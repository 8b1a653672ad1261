/** The section parser of `loadFieldPokemon` (js/pokedex.js): a field's
    text lists Pokémon names under headers "・うとうと", "・すやすや" and
    "・ぐっすり", one per line. The text is given as a string; fetching it
    and the per-field cache are not modelled. */
module FieldPokemon {
  import opened Wrappers
  import opened Text

  /** The three sleep types, the keys of the result. */
  const SleepTypes: set<string> := {"うとうと", "すやすや", "ぐっすり"}

  /** The result before any line is read. */
  function EmptyResult(): (m: map<string, seq<string>>)
    ensures m.Keys == SleepTypes
  {
    map["うとうと" := [], "すやすや" := [], "ぐっすり" := []]
  }

  /** The parser's state between lines: the lists so far and the current
      sleep type, if the last header named one. */
  datatype Sections = Sections(result: map<string, seq<string>>, mode: Option<string>)

  predicate Valid(st: Sections) {
    st.result.Keys == SleepTypes && (st.mode.Some? ==> st.mode.value in SleepTypes)
  }

  /** A line that, once trimmed, starts with "・". */
  predicate IsHeader(raw: string) {
    Trim(raw) != [] && Trim(raw)[0] == '・'
  }

  /** The key a header names: the leading "・" dropped, the rest trimmed. */
  function HeaderKey(raw: string): (k: string)
    requires IsHeader(raw)
    ensures Trimmed(k)
  {
    Trim(Trim(raw)[1..])
  }

  /** One line of the loop: blank lines are skipped, a header sets the mode
      to its key when the key is a sleep type and clears it otherwise, and
      any other line is added, trimmed, to the list of the current mode. */
  function Step(st: Sections, raw: string): (r: Sections)
    requires Valid(st)
    ensures Valid(r)
    ensures IsHeader(raw) ==>
      r.result == st.result && r.mode == (if HeaderKey(raw) in SleepTypes then Some(HeaderKey(raw)) else None)
    ensures !IsHeader(raw) ==> r.mode == st.mode
    ensures !IsHeader(raw) && Trim(raw) != [] && st.mode.Some? ==>
      r.result == st.result[st.mode.value := st.result[st.mode.value] + [Trim(raw)]]
    ensures !IsHeader(raw) && (Trim(raw) == [] || st.mode.None?) ==> r == st
  {
    var line := Trim(raw);
    if line == [] then st
    else if line[0] == '・' then
      var key := Trim(line[1..]);
      Sections(st.result, if key in SleepTypes then Some(key) else None)
    else match st.mode
      case None => st
      case Some(m) => Sections(st.result[m := st.result[m] + [line]], st.mode)
  }

  /** The loop over the lines from state `st`. */
  function Run(st: Sections, lines: seq<string>): (r: Sections)
    requires Valid(st)
    ensures Valid(r)
    decreases |lines|
  {
    if lines == [] then st else Run(Step(st, lines[0]), lines[1..])
  }

  /** What `loadFieldPokemon` returns for a field's text. */
  function FieldLists(text: string): map<string, seq<string>> {
    Run(Sections(EmptyResult(), None), SplitLines(text)).result
  }

  /** `loadFieldPokemon` on the fetched text: the loop over its lines. */
  method LoadFieldPokemon(text: string) returns (result: map<string, seq<string>>)
    ensures result == FieldLists(text)
    ensures result.Keys == SleepTypes
  {
    var lines := SplitLines(text);
    result := EmptyResult();
    var mode: Option<string> := None;
    var i := 0;
    while i < |lines|
      invariant 0 <= i <= |lines|
      invariant Valid(Sections(result, mode))
      invariant Run(Sections(result, mode), lines[i..]) == Run(Sections(EmptyResult(), None), lines)
    {
      assert lines[i..][0] == lines[i] && lines[i..][1..] == lines[i + 1..];
      result, mode := ReadLine(result, mode, lines[i]);
      i := i + 1;
    }
  }

  /** The body of the loop, on one line. */
  method ReadLine(result0: map<string, seq<string>>, mode0: Option<string>, raw: string)
    returns (result: map<string, seq<string>>, mode: Option<string>)
    requires Valid(Sections(result0, mode0))
    ensures Sections(result, mode) == Step(Sections(result0, mode0), raw)
  {
    result, mode := result0, mode0;
    var line := Trim(raw);
    if line == [] {
    } else if line[0] == '・' {
      var key := Trim(line[1..]);
      mode := if key in SleepTypes then Some(key) else None;
    } else if mode.Some? {
      result := result[mode.value := result[mode.value] + [line]];
    }
  }

  /** A line trimmed, or nothing for a blank line. */
  function Chunk(raw: string): seq<string> {
    if Trim(raw) == [] then [] else [Trim(raw)]
  }

  /** The trimmed non-blank lines of `lines`. */
  function Body(lines: seq<string>): (b: seq<string>)
    ensures forall k :: 0 <= k < |b| ==> b[k] != [] && Trimmed(b[k])
  {
    if lines == [] then [] else Chunk(lines[0]) + Body(lines[1..])
  }

  /** Without a current sleep type, lines up to the next header are
      dropped: this covers the lines before the first header and those
      after a header that names no sleep type. */
  lemma {:induction false} DroppedWithoutMode(st: Sections, lines: seq<string>)
    requires Valid(st) && st.mode.None?
    requires forall k :: 0 <= k < |lines| ==> !IsHeader(lines[k])
    ensures Run(st, lines) == st
    decreases |lines|
  {
    if lines != [] {
      DroppedWithoutMode(Step(st, lines[0]), lines[1..]);
    }
  }

  /** The state with `items` added to the list of sleep type `m`. */
  function AddTo(st: Sections, m: string, items: seq<string>): Sections
    requires m in st.result
  {
    Sections(st.result[m := st.result[m] + items], st.mode)
  }

  lemma AddToTwice(st: Sections, m: string, a: seq<string>, b: seq<string>)
    requires m in st.result
    ensures AddTo(AddTo(st, m, a), m, b) == AddTo(st, m, a + b)
  {
    assert st.result[m] + a + b == st.result[m] + (a + b);
  }

  lemma AddToNothing(st: Sections, m: string)
    requires m in st.result
    ensures AddTo(st, m, []) == st
  {
    assert st.result[m] + [] == st.result[m];
    assert st.result[m := st.result[m]] == st.result;
  }

  /** Under a sleep type, a line that is not a header adds its trimmed
      text, if any, to that type's list. */
  lemma StepUnderMode(st: Sections, raw: string)
    requires Valid(st) && st.mode.Some? && !IsHeader(raw)
    ensures Step(st, raw) == AddTo(st, st.mode.value, Chunk(raw))
  {
    if Trim(raw) == [] {
      AddToNothing(st, st.mode.value);
    }
  }

  /** Under a sleep type, the lines up to the next header are added,
      trimmed, to that type's list, blank lines left out; no other list
      changes. */
  lemma {:induction false} CollectedUnderMode(st: Sections, lines: seq<string>)
    requires Valid(st) && st.mode.Some?
    requires forall k :: 0 <= k < |lines| ==> !IsHeader(lines[k])
    ensures Run(st, lines) == AddTo(st, st.mode.value, Body(lines))
    decreases |lines|
  {
    var m := st.mode.value;
    if lines != [] {
      var next := Step(st, lines[0]);
      StepUnderMode(st, lines[0]);
      CollectedUnderMode(next, lines[1..]);
      AddToTwice(st, m, Chunk(lines[0]), Body(lines[1..]));
    } else {
      AddToNothing(st, m);
    }
  }

  /** The loop over `a + b` is the loop over `a` followed by the loop over `b`. */
  lemma {:induction false} RunAppend(st: Sections, a: seq<string>, b: seq<string>)
    requires Valid(st)
    ensures Run(st, a + b) == Run(Run(st, a), b)
    decreases |a|
  {
    if a != [] {
      assert (a + b)[0] == a[0] && (a + b)[1..] == a[1..] + b;
      RunAppend(Step(st, a[0]), a[1..], b);
    } else {
      assert a + b == b;
    }
  }

  /** A section: a header followed by lines up to the next header. Under a
      header naming a sleep type the lines are added to that type's list;
      under any other header they are dropped. */
  lemma Section(st: Sections, header: string, lines: seq<string>)
    requires Valid(st) && IsHeader(header)
    requires forall k :: 0 <= k < |lines| ==> !IsHeader(lines[k])
    ensures var r := Run(st, [header] + lines);
      && (HeaderKey(header) in SleepTypes ==>
            r.result == st.result[HeaderKey(header) := st.result[HeaderKey(header)] + Body(lines)])
      && (HeaderKey(header) !in SleepTypes ==> r.result == st.result && r.mode.None?)
  {
    RunAppend(st, [header], lines);
    var h := Step(st, header);
    assert Run(st, [header]) == h by {
      assert [header][1..] == [];
    }
    if HeaderKey(header) in SleepTypes {
      CollectedUnderMode(h, lines);
    } else {
      DroppedWithoutMode(h, lines);
    }
  }

  /** Text with no header yields three empty lists. */
  lemma NoHeaderNoNames(text: string)
    requires forall k :: 0 <= k < |SplitLines(text)| ==> !IsHeader(SplitLines(text)[k])
    ensures FieldLists(text) == EmptyResult()
  {
    DroppedWithoutMode(Sections(EmptyResult(), None), SplitLines(text));
  }
}
