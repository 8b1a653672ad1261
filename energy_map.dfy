/** The parser of `loadEnergyMap` (js/pokedex.js): the energy text lists,
    for each field, a table of Pokémon counts and the energy each count
    needs. A field name stands on a line of its own, a line starting with
    "ポケモン数" opens its table, and table rows are tab-separated. The text
    is given as a string; fetching it and the cache are not modelled. */
module EnergyMap {
  import opened Wrappers
  import opened Text

  /** One table row: the Pokémon count and the energy text shown for it. */
  datatype EnergyRow = EnergyRow(count: real, energyText: string)

  /** The parser's state between lines: the rows so far per field, the
      current field, and whether its table has been opened. */
  datatype Energy = Energy(rows: map<string, seq<EnergyRow>>, currentField: Option<string>, inTable: bool)

  const TableHeader: string := "ポケモン数"
  const Ellipsis: string := "..."

  /** The current field always has a list of rows. */
  predicate Valid(st: Energy) {
    st.currentField.Some? ==> st.currentField.value in st.rows
  }

  /** A line that names a field: not blank, no tab, not the table header
      and not "...". */
  predicate StartsField(raw: string) {
    var line := Trim(raw);
    line != [] && '\t' !in line && !Contains(line, TableHeader) && line != Ellipsis
  }

  /** A table row: split at runs of tabs; a row needs two columns and a
      finite count in the first; an empty energy text is shown as "-". */
  function RowOf(line: string): (r: Option<EnergyRow>)
    ensures r.None? <==> |SplitRuns(line, IsTab)| < 2 || JsNumber(SplitRuns(line, IsTab)[0]).None?
    ensures r.Some? ==> r.value.count == JsNumber(SplitRuns(line, IsTab)[0]).value
    ensures r.Some? ==> var t := Trim(SplitRuns(line, IsTab)[1]);
      r.value.energyText == (if t == [] then "-" else t)
    ensures r.Some? ==> r.value.energyText != []
  {
    var cols := SplitRuns(line, IsTab);
    if |cols| < 2 then None
    else
      var energyText := Trim(cols[1]);
      match JsNumber(cols[0])
      case None => None
      case Some(count) => Some(EnergyRow(count, if energyText == [] then "-" else energyText))
  }

  /** One line of the loop. */
  function Step(st: Energy, raw: string): (r: Energy)
    requires Valid(st)
    ensures Valid(r)
  {
    var line := Trim(raw);
    if line == [] then st
    else if StartsField(raw) then
      Energy(if line in st.rows then st.rows else st.rows[line := []], Some(line), false)
    else if st.currentField.None? then st
    else if StartsWith(line, TableHeader) then st.(inTable := true)
    else if !st.inTable then st
    else if line == Ellipsis then st
    else match RowOf(line)
      case None => st
      case Some(row) =>
        var f := st.currentField.value;
        Energy(st.rows[f := st.rows[f] + [row]], st.currentField, st.inTable)
  }

  /** The loop over the lines from state `st`. */
  function Run(st: Energy, lines: seq<string>): (r: Energy)
    requires Valid(st)
    ensures Valid(r)
    decreases |lines|
  {
    if lines == [] then st else Run(Step(st, lines[0]), lines[1..])
  }

  lemma RunFirst(st: Energy, lines: seq<string>)
    requires Valid(st) && lines != []
    ensures Run(st, lines) == Run(Step(st, lines[0]), lines[1..])
  {
  }

  /** What `loadEnergyMap` returns for the text. */
  function EnergyTables(text: string): map<string, seq<EnergyRow>> {
    Run(Energy(map[], None, false), SplitLines(text)).rows
  }

  /** `loadEnergyMap` on the fetched text: the loop over its lines. */
  method LoadEnergyMap(text: string) returns (rows: map<string, seq<EnergyRow>>)
    ensures rows == EnergyTables(text)
  {
    var lines := SplitLines(text);
    rows := map[];
    var currentField: Option<string> := None;
    var inTable := false;
    var i := 0;
    while i < |lines|
      invariant 0 <= i <= |lines|
      invariant Valid(Energy(rows, currentField, inTable))
      invariant Run(Energy(rows, currentField, inTable), lines[i..]) == Run(Energy(map[], None, false), lines)
    {
      RunFirst(Energy(rows, currentField, inTable), lines[i..]);
      assert lines[i..][0] == lines[i] && lines[i..][1..] == lines[i + 1..];
      rows, currentField, inTable := ReadLine(rows, currentField, inTable, lines[i]);
      i := i + 1;
    }
  }

  /** The body of the loop, on one line. */
  method ReadLine(rows0: map<string, seq<EnergyRow>>, currentField0: Option<string>, inTable0: bool, raw: string)
    returns (rows: map<string, seq<EnergyRow>>, currentField: Option<string>, inTable: bool)
    requires Valid(Energy(rows0, currentField0, inTable0))
    ensures Energy(rows, currentField, inTable) == Step(Energy(rows0, currentField0, inTable0), raw)
  {
    rows, currentField, inTable := rows0, currentField0, inTable0;
    var line := Trim(raw);
    if line == [] {
    } else if '\t' !in line && !Contains(line, TableHeader) && line != Ellipsis {
      currentField := Some(line);
      inTable := false;
      if line !in rows {
        rows := rows[line := []];
      }
    } else if currentField.None? {
    } else if StartsWith(line, TableHeader) {
      inTable := true;
    } else if !inTable {
    } else if line == Ellipsis {
    } else {
      var row := ParseRow(line);
      if row.Some? {
        rows := rows[currentField.value := rows[currentField.value] + [row.value]];
      }
    }
  }

  /** The row part of the loop body: the columns, the count and the
      energy text of a table line. */
  method ParseRow(line: string) returns (row: Option<EnergyRow>)
    ensures row == RowOf(line)
  {
    var cols := SplitRuns(line, IsTab);
    if |cols| < 2 {
      return None;
    }
    var count := JsNumber(cols[0]);
    var energyText := Trim(cols[1]);
    if count.None? {
      return None;
    }
    row := Some(EnergyRow(count.value, if energyText == [] then "-" else energyText));
  }

  /** A field line makes that field current with its table closed; the rows
      it already had are kept, and a new field starts with none. */
  lemma FieldLineStartsField(st: Energy, raw: string)
    requires Valid(st) && StartsField(raw)
    ensures var r := Step(st, raw);
      && r.currentField == Some(Trim(raw)) && !r.inTable
      && (Trim(raw) in st.rows ==> r.rows == st.rows)
      && (Trim(raw) !in st.rows ==> r.rows == st.rows[Trim(raw) := []])
  {
  }

  /** The table header line opens the current field's table. */
  lemma HeaderOpensTable(st: Energy, raw: string)
    requires Valid(st) && st.currentField.Some? && !StartsField(raw) && StartsWith(Trim(raw), TableHeader)
    ensures Step(st, raw) == st.(inTable := true)
  {
  }

  /** In an open table, every other line appends the row it holds to the
      current field's rows; a line that holds no row (fewer than two columns,
      or a count that is not a finite number) changes nothing. */
  lemma TableLineAddsRow(st: Energy, raw: string)
    requires Valid(st) && st.currentField.Some? && st.inTable
    requires !StartsField(raw) && !StartsWith(Trim(raw), TableHeader) && Trim(raw) != Ellipsis && Trim(raw) != []
    ensures RowOf(Trim(raw)).Some? ==>
      Step(st, raw) == st.(rows := st.rows[st.currentField.value := st.rows[st.currentField.value] + [RowOf(Trim(raw)).value]])
    ensures RowOf(Trim(raw)).None? ==> Step(st, raw) == st
  {
  }

  /** Blank lines, "..." lines, and lines before any field line (other
      than a field line) change nothing. */
  lemma IgnoredLineChangesNothing(st: Energy, raw: string)
    requires Valid(st)
    requires Trim(raw) == [] || Trim(raw) == Ellipsis || (st.currentField.None? && !StartsField(raw))
    ensures Step(st, raw) == st
  {
  }

  /** With the table closed, a line that neither names a field nor is the
      table header changes nothing: after a field line, rows wait for that
      field's own header. */
  lemma ClosedTableChangesNothing(st: Energy, raw: string)
    requires Valid(st) && !st.inTable && !StartsField(raw) && !StartsWith(Trim(raw), TableHeader)
    ensures Step(st, raw) == st
  {
  }

  /** Rows are only collected after a table header: from a closed table, and
      with no header line to come, every field keeps the rows it had and a
      field named on the way gets none. */
  lemma {:induction false} NoRowsWithoutHeader(st: Energy, lines: seq<string>)
    requires Valid(st) && !st.inTable
    requires forall k :: 0 <= k < |lines| ==> !StartsWith(Trim(lines[k]), TableHeader)
    ensures var r := Run(st, lines);
      && !r.inTable
      && (forall f :: f in st.rows ==> f in r.rows)
      && (forall f :: f in r.rows ==> r.rows[f] == (if f in st.rows then st.rows[f] else []))
    decreases |lines|
  {
    if lines != [] {
      var next := Step(st, lines[0]);
      if !StartsField(lines[0]) {
        ClosedTableChangesNothing(st, lines[0]);
      }
      assert !next.inTable;
      assert forall f :: f in next.rows ==> next.rows[f] == (if f in st.rows then st.rows[f] else []);
      NoRowsWithoutHeader(next, lines[1..]);
    }
  }

  /** A text without a table header gives no rows. */
  lemma NoHeaderNoRows(text: string)
    requires forall k :: 0 <= k < |SplitLines(text)| ==> !StartsWith(Trim(SplitLines(text)[k]), TableHeader)
    ensures forall f :: f in EnergyTables(text) ==> EnergyTables(text)[f] == []
  {
    NoRowsWithoutHeader(Energy(map[], None, false), SplitLines(text));
  }
}
