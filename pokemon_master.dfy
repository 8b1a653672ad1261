/** The parser of `loadPokemonMaster` (js/pokedex.js): the master table is
    tab-separated text with a header line; each further line describes one
    Pokémon, and lines sharing a name are grouped as variations of the
    first. The text is given as a string; fetching it, the cache and the
    averages computed afterwards are not modelled. */
module PokemonMaster {
  import opened Wrappers
  import opened Seqs
  import opened Text

  /** One parsed line. Numbers are JavaScript numbers, kept exactly. */
  datatype Entry = Entry(
    id: string,
    name: string,
    typeName: string,
    evo: real,
    kind: string,
    sleep: Option<string>,
    helpTime: real,
    ingProb: real,
    skillProb: real,
    skillName: string,
    ing1: string,
    ing2: string,
    ing3: string,
    carry: real,
    file: string)

  /** An entry of the list: the first line with a name, and every line with
      that name, the first included, in order. */
  datatype Group = Group(head: Entry, variations: seq<Entry>)

  /** The parser's state: the list so far and the position of each name in it. */
  datatype Master = Master(list: seq<Group>, index: map<string, nat>)

  predicate WellFormed(g: Group) {
    g.variations != [] && g.variations[0] == g.head
    && forall k :: 0 <= k < |g.variations| ==> g.variations[k].name == g.head.name
  }

  /** The index names each group by its position, and every group starts
      with its own head. */
  predicate Valid(st: Master) {
    (forall n :: n in st.index ==> st.index[n] < |st.list| && st.list[st.index[n]].head.name == n)
    && (forall i :: 0 <= i < |st.list| ==> st.list[i].head.name in st.index && st.index[st.list[i].head.name] == i)
    && (forall i :: 0 <= i < |st.list| ==> WellFormed(st.list[i]))
  }

  predicate NonEmpty(s: string) { s != [] }

  /** `line.split("\t").map(s => s.trim())`. */
  function Columns(line: string): (cols: seq<string>)
    ensures |cols| == |SplitOn(line, '\t')|
    ensures forall k :: 0 <= k < |cols| ==> cols[k] == Trim(SplitOn(line, '\t')[k])
  {
    var parts := SplitOn(line, '\t');
    seq(|parts|, k requires 0 <= k < |parts| => Trim(parts[k]))
  }

  /** `cols[k]`, which is `undefined` past the end. */
  function Col(cols: seq<string>, k: nat): Option<string> {
    if k < |cols| then Some(cols[k]) else None
  }

  /** `cols[k] || "-"`: a missing or empty column reads as "-". */
  function TextOr(c: Option<string>): (r: string)
    ensures r != []
    ensures c.Some? && c.value != [] ==> r == c.value
    ensures c.None? || c.value == [] ==> r == "-"
  {
    if c.Some? && c.value != [] then c.value else "-"
  }

  /** `Number(cols[k]) || d`: a missing column, one that is not a number,
      and one that reads as 0 all give the default. */
  function NumberOr(c: Option<string>, d: real): (r: real)
    ensures r != 0.0 || d == 0.0
  {
    match c
    case None => d
    case Some(s) =>
      match JsNumber(s)
      case None => d
      case Some(v) => if v == 0.0 then d else v
  }

  /** Which of the two `NumberOr` gives: the column's number when it reads
      as one other than 0, and the default otherwise. */
  lemma NumberOrValue(c: Option<string>, d: real)
    ensures c.Some? && JsNumber(c.value).Some? && JsNumber(c.value).value != 0.0 ==> NumberOr(c, d) == JsNumber(c.value).value
    ensures c.None? || JsNumber(c.value).None? || JsNumber(c.value) == Some(0.0) ==> NumberOr(c, d) == d
  {
  }

  /** The entry a line of five or more columns describes. */
  function EntryOf(cols: seq<string>): (p: Entry)
    requires |cols| >= 5
    ensures p.id == cols[0] && p.name == cols[1] && p.kind == cols[4]
    ensures p.evo != 0.0 && p.typeName != [] && p.skillName != []
  {
    Entry(
      cols[0], cols[1], TextOr(Col(cols, 2)), NumberOr(Col(cols, 3), 1.0), cols[4], Col(cols, 5),
      NumberOr(Col(cols, 6), 0.0), NumberOr(Col(cols, 7), 0.0), NumberOr(Col(cols, 8), 0.0),
      TextOr(Col(cols, 9)), TextOr(Col(cols, 10)), TextOr(Col(cols, 11)), TextOr(Col(cols, 12)),
      NumberOr(Col(cols, 13), 0.0), cols[0] + ".webp")
  }

  /** One line of the loop: a line of fewer than five columns is skipped;
      an entry whose name is already listed joins that group's variations,
      and any other is listed as a new group of its own. */
  function Step(st: Master, line: string): (r: Master)
    requires Valid(st)
    ensures |Columns(line)| < 5 ==> r == st
  {
    var cols := Columns(line);
    if |cols| < 5 then st else Place(st, EntryOf(cols))
  }

  /** Where an entry goes: into the variations of the group of its name,
      or, for a new name, into a new group at the end of the list. */
  function Place(st: Master, p: Entry): Master
    requires Valid(st)
  {
    if p.name in st.index then
      var j := st.index[p.name];
      Master(st.list[j := Group(st.list[j].head, st.list[j].variations + [p])], st.index)
    else
      Master(st.list + [Group(p, [p])], st.index[p.name := |st.list|])
  }

  /** Each line keeps the state valid. */
  lemma StepKeepsValid(st: Master, line: string)
    requires Valid(st)
    ensures Valid(Step(st, line))
  {
    var cols := Columns(line);
    if |cols| >= 5 {
      var p := EntryOf(cols);
      if p.name in st.index {
        JoinKeepsValid(st, p);
      } else {
        AddKeepsValid(st, p);
      }
    }
  }

  lemma JoinKeepsValid(st: Master, p: Entry)
    requires Valid(st) && p.name in st.index
    ensures var j := st.index[p.name];
      Valid(Master(st.list[j := Group(st.list[j].head, st.list[j].variations + [p])], st.index))
  {
    var j := st.index[p.name];
    var g := Group(st.list[j].head, st.list[j].variations + [p]);
    var list := st.list[j := g];
    assert WellFormed(st.list[j]);
    assert WellFormed(g);
    assert forall i :: 0 <= i < |list| ==> list[i].head == st.list[i].head;
    assert forall i :: 0 <= i < |list| && i != j ==> list[i] == st.list[i];
  }

  lemma AddKeepsValid(st: Master, p: Entry)
    requires Valid(st) && p.name !in st.index
    ensures Valid(Master(st.list + [Group(p, [p])], st.index[p.name := |st.list|]))
  {
    var list := st.list + [Group(p, [p])];
    var index := st.index[p.name := |st.list|];
    assert forall i :: 0 <= i < |st.list| ==> list[i] == st.list[i];
    assert list[|st.list|] == Group(p, [p]);
    forall i | 0 <= i < |list|
      ensures list[i].head.name in index && index[list[i].head.name] == i
    {
      if i < |st.list| {
        assert st.list[i].head.name in st.index;
      }
    }
  }

  /** The loop over the lines from state `st`. */
  function Run(st: Master, lines: seq<string>): (r: Master)
    requires Valid(st)
    ensures Valid(r)
    decreases |lines|
  {
    if lines == [] then st
    else
      StepKeepsValid(st, lines[0]);
      Run(Step(st, lines[0]), lines[1..])
  }

  lemma RunFirst(st: Master, lines: seq<string>)
    requires Valid(st) && lines != []
    ensures Valid(Step(st, lines[0])) && Run(st, lines) == Run(Step(st, lines[0]), lines[1..])
  {
    StepKeepsValid(st, lines[0]);
  }

  /** The lines the loop reads: the non-empty lines after the first. */
  function DataLines(tsv: string): seq<string> {
    var lines := Filter(SplitLines(tsv), NonEmpty);
    if lines == [] then [] else lines[1..]
  }

  /** What `loadPokemonMaster` returns: the list and the map by name. */
  function MasterOf(tsv: string): (r: Master)
    ensures Valid(r)
  {
    Run(Master([], map[]), DataLines(tsv))
  }

  /** `loadPokemonMaster` on the fetched text: the loop over its lines from
      the second on. */
  method LoadPokemonMaster(tsv: string) returns (list: seq<Group>, index: map<string, nat>)
    ensures Master(list, index) == MasterOf(tsv)
  {
    var lines := Filter(SplitLines(tsv), NonEmpty);
    list := [];
    index := map[];
    if lines == [] {
      return;
    }
    var i := 1;
    while i < |lines|
      invariant 1 <= i <= |lines|
      invariant Valid(Master(list, index))
      invariant Run(Master(list, index), lines[i..]) == MasterOf(tsv)
    {
      ghost var st := Master(list, index);
      RunFirst(st, lines[i..]);
      assert lines[i..][0] == lines[i] && lines[i..][1..] == lines[i + 1..];
      list, index := ReadLine(list, index, lines[i]);
      i := i + 1;
    }
    assert lines[i..] == [];
  }

  /** The body of the loop, on one line. */
  method ReadLine(list0: seq<Group>, index0: map<string, nat>, line: string)
    returns (list: seq<Group>, index: map<string, nat>)
    requires Valid(Master(list0, index0))
    ensures Master(list, index) == Step(Master(list0, index0), line)
  {
    list, index := list0, index0;
    var cols := Columns(line);
    if |cols| >= 5 {
      var p := EntryOf(cols);
      list, index := PlaceEntry(list, index, p);
    }
  }

  /** The placing part of the loop body. */
  method PlaceEntry(list0: seq<Group>, index0: map<string, nat>, p: Entry)
    returns (list: seq<Group>, index: map<string, nat>)
    requires Valid(Master(list0, index0))
    ensures Master(list, index) == Place(Master(list0, index0), p)
  {
    list, index := list0, index0;
    if p.name in index {
      var j := index[p.name];
      list := list[j := Group(list[j].head, list[j].variations + [p])];
    } else {
      list := list + [Group(p, [p])];
      index := index[p.name := |list| - 1];
    }
  }

  /** A line with a name already listed adds its entry to the end of that
      group's variations and lists nothing new. */
  lemma RepeatedNameJoinsGroup(st: Master, line: string)
    requires Valid(st) && |Columns(line)| >= 5 && EntryOf(Columns(line)).name in st.index
    ensures var p := EntryOf(Columns(line));
      var j := st.index[p.name];
      var r := Step(st, line);
      && r.index == st.index && |r.list| == |st.list|
      && r.list[j].head == st.list[j].head && r.list[j].variations == st.list[j].variations + [p]
      && (forall i :: 0 <= i < |st.list| && i != j ==> r.list[i] == st.list[i])
  {
    var p := EntryOf(Columns(line));
    var j := st.index[p.name];
    assert Step(st, line) == Master(st.list[j := Group(st.list[j].head, st.list[j].variations + [p])], st.index);
    JoinShape(st.list, j, p);
  }

  lemma JoinShape(list: seq<Group>, j: nat, p: Entry)
    requires j < |list|
    ensures var r := list[j := Group(list[j].head, list[j].variations + [p])];
      && |r| == |list| && r[j].head == list[j].head && r[j].variations == list[j].variations + [p]
      && (forall i :: 0 <= i < |list| && i != j ==> r[i] == list[i])
  {
  }

  /** A line with a new name lists a new group holding only its entry. */
  lemma NewNameListed(st: Master, line: string)
    requires Valid(st) && |Columns(line)| >= 5 && EntryOf(Columns(line)).name !in st.index
    ensures var p := EntryOf(Columns(line));
      var r := Step(st, line);
      r.list == st.list + [Group(p, [p])] && r.index == st.index[p.name := |st.list|]
  {
  }

  /** No two groups of the list have the same name. */
  lemma NamesDistinct(st: Master)
    requires Valid(st)
    ensures forall i, j :: 0 <= i < j < |st.list| ==> st.list[i].head.name != st.list[j].head.name
  {
    forall i, j | 0 <= i < j < |st.list|
      ensures st.list[i].head.name != st.list[j].head.name
    {
      assert st.index[st.list[i].head.name] == i && st.index[st.list[j].head.name] == j;
    }
  }

  /** The number of entries a list holds, variations included. */
  function Entries(list: seq<Group>): nat {
    if list == [] then 0 else |list[0].variations| + Entries(list[1..])
  }

  /** The number of lines of five or more columns. */
  function LongLines(lines: seq<string>): nat {
    if lines == [] then 0 else (if |Columns(lines[0])| >= 5 then 1 else 0) + LongLines(lines[1..])
  }

  lemma {:induction false} EntriesSnoc(list: seq<Group>, g: Group)
    ensures Entries(list + [g]) == Entries(list) + |g.variations|
    decreases |list|
  {
    if list == [] {
      assert [] + [g] == [g];
    } else {
      assert (list + [g])[1..] == list[1..] + [g];
      EntriesSnoc(list[1..], g);
    }
  }

  lemma {:induction false} EntriesUpdate(list: seq<Group>, j: nat, g: Group)
    requires j < |list|
    ensures Entries(list[j := g]) == Entries(list) - |list[j].variations| + |g.variations|
    decreases |list|
  {
    if j > 0 {
      assert list[j := g][1..] == list[1..][j - 1 := g];
      EntriesUpdate(list[1..], j - 1, g);
    } else {
      assert list[j := g][1..] == list[1..];
    }
  }

  /** No line is lost: every line of five or more columns ends up as
      exactly one entry of one group. */
  lemma {:induction false} EveryLongLineKept(st: Master, lines: seq<string>)
    requires Valid(st)
    ensures Entries(Run(st, lines).list) == Entries(st.list) + LongLines(lines)
    decreases |lines|
  {
    if lines != [] {
      var next := Step(st, lines[0]);
      StepKeepsValid(st, lines[0]);
      EveryLongLineKept(next, lines[1..]);
      if |Columns(lines[0])| >= 5 {
        var p := EntryOf(Columns(lines[0]));
        if p.name in st.index {
          var j := st.index[p.name];
          EntriesUpdate(st.list, j, Group(st.list[j].head, st.list[j].variations + [p]));
        } else {
          EntriesSnoc(st.list, Group(p, [p]));
        }
      }
    }
  }

  /** For the whole text: the variations of the list hold one entry per line
      of five or more columns after the header line. */
  lemma MasterKeepsEveryLine(tsv: string)
    ensures Entries(MasterOf(tsv).list) == LongLines(DataLines(tsv))
  {
    EveryLongLineKept(Master([], map[]), DataLines(tsv));
  }
}
