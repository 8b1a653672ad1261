/** `sortByDexOrder(names, pokeList)` (js/pokedex.js): names are ordered by
    their position in the Pokédex list, names the list does not know coming
    last, and then a fixed list of override rules moves a few regional forms
    next to their relatives. */
module DexOrder {
  import opened Wrappers
  import opened Seqs

  /** The index given to a name the Pokédex list does not know. */
  const Unknown: int := 99999

  /** An override rule: move `name` just after `after`, or just before
      `before`. */
  datatype Rule = Rule(name: string, after: Option<string>, before: Option<string>)

  /** `DEX_ORDER_OVERRIDES`. */
  const Overrides: seq<Rule> := [
    Rule("ストリンダー（ロー）", Some("ストリンダー（ハイ）"), None),
    Rule("ウパー（パルデア）", None, Some("ドオー")),
    Rule("ロコン（アローラ）", Some("ロコン"), None),
    Rule("キュウコン（アローラ）", Some("キュウコン"), None)
  ]

  /** A present, non-empty option string: what `if (rule.after)` accepts. */
  predicate Truthy(o: Option<string>) {
    o.Some? && o.value != ""
  }

  /** The `dexOrderMap` built from the Pokédex list: each name mapped to
      its position, a later occurrence overwriting an earlier one. */
  function DexIndex(pokeList: seq<string>): (m: map<string, int>)
    ensures forall n :: n in m <==> n in pokeList
  {
    if pokeList == [] then map[]
    else DexIndex(pokeList[..|pokeList| - 1])[pokeList[|pokeList| - 1] := |pokeList| - 1]
  }

  /** Each name is mapped to its last position in the list. */
  lemma {:induction false} DexIndexIsLast(pokeList: seq<string>, n: string)
    requires n in pokeList
    ensures var m := DexIndex(pokeList);
      0 <= m[n] < |pokeList| && pokeList[m[n]] == n
      && forall j :: m[n] < j < |pokeList| ==> pokeList[j] != n
    decreases |pokeList|
  {
    var init := pokeList[..|pokeList| - 1];
    if pokeList[|pokeList| - 1] != n {
      assert n in init;
      DexIndexIsLast(init, n);
    }
  }

  /** The sort key of a name. */
  function Key(idx: map<string, int>, n: string): int {
    if n in idx then idx[n] else Unknown
  }

  predicate SortedBy(s: seq<string>, idx: map<string, int>) {
    forall i, j :: 0 <= i < j < |s| ==> Key(idx, s[i]) <= Key(idx, s[j])
  }

  /** The names of `s` with key `k`, in their order in `s`. */
  function WithKey(s: seq<string>, idx: map<string, int>, k: int): seq<string> {
    if s == [] then []
    else (if Key(idx, s[0]) == k then [s[0]] else []) + WithKey(s[1..], idx, k)
  }

  /** Places `x` before the first name of `sorted` whose key is not below
      its own. */
  function Insert(sorted: seq<string>, idx: map<string, int>, x: string): (r: seq<string>)
    ensures multiset(r) == multiset(sorted) + multiset{x}
  {
    if sorted == [] || Key(idx, x) <= Key(idx, sorted[0]) then [x] + sorted
    else
      assert sorted == [sorted[0]] + sorted[1..];
      [sorted[0]] + Insert(sorted[1..], idx, x)
  }

  /** `[...names].sort((a, b) => key(a) - key(b))`: the library sort, which
      is stable, given here as insertion sort from the back, each name going
      in front of the names of its key already placed. */
  function SortByKey(s: seq<string>, idx: map<string, int>): (r: seq<string>)
    ensures multiset(r) == multiset(s)
  {
    if s == [] then []
    else
      assert s == [s[0]] + s[1..];
      Insert(SortByKey(s[1..], idx), idx, s[0])
  }

  /** Each name's key is at most the next one's. */
  predicate Ordered(s: seq<string>, idx: map<string, int>) {
    forall i :: 0 <= i < |s| - 1 ==> Key(idx, s[i]) <= Key(idx, s[i + 1])
  }

  lemma {:induction false} OrderedIsSorted(s: seq<string>, idx: map<string, int>)
    requires Ordered(s, idx)
    ensures SortedBy(s, idx)
    decreases |s|
  {
    if |s| > 1 {
      OrderedIsSorted(s[1..], idx);
      forall j | 0 < j < |s|
        ensures Key(idx, s[0]) <= Key(idx, s[j])
      {
        if j > 1 {
          assert s[1..][0] == s[1] && s[1..][j - 1] == s[j];
        }
      }
    }
  }

  /** Inserting into an ordered sequence keeps it ordered; the first name
      is then `x` or the old first name. */
  lemma {:induction false} InsertOrdered(sorted: seq<string>, idx: map<string, int>, x: string)
    requires Ordered(sorted, idx)
    ensures Ordered(Insert(sorted, idx, x), idx)
    ensures Insert(sorted, idx, x)[0] == x || (sorted != [] && Insert(sorted, idx, x)[0] == sorted[0])
    decreases |sorted|
  {
    var r := Insert(sorted, idx, x);
    if sorted == [] || Key(idx, x) <= Key(idx, sorted[0]) {
      assert r == [x] + sorted;
      forall i | 0 <= i < |r| - 1
        ensures Key(idx, r[i]) <= Key(idx, r[i + 1])
      {
        if i > 0 {
          assert r[i] == sorted[i - 1] && r[i + 1] == sorted[i];
        }
      }
    } else {
      var rest := Insert(sorted[1..], idx, x);
      InsertOrdered(sorted[1..], idx, x);
      assert r == [sorted[0]] + rest;
      forall i | 0 <= i < |r| - 1
        ensures Key(idx, r[i]) <= Key(idx, r[i + 1])
      {
        if i > 0 {
          assert r[i] == rest[i - 1] && r[i + 1] == rest[i];
        } else if rest[0] != x {
          assert sorted[1..] != [] && rest[0] == sorted[1];
        }
      }
    }
  }

  lemma {:induction false} SortIsOrdered(s: seq<string>, idx: map<string, int>)
    ensures Ordered(SortByKey(s, idx), idx)
    decreases |s|
  {
    if s != [] {
      SortIsOrdered(s[1..], idx);
      InsertOrdered(SortByKey(s[1..], idx), idx, s[0]);
    }
  }

  /** The sort orders the names by key. */
  lemma SortIsSorted(s: seq<string>, idx: map<string, int>)
    ensures SortedBy(SortByKey(s, idx), idx)
  {
    SortIsOrdered(s, idx);
    OrderedIsSorted(SortByKey(s, idx), idx);
  }

  /** `x` goes in front of the names of `sorted` with its key. */
  lemma {:induction false} InsertWithKey(sorted: seq<string>, idx: map<string, int>, x: string, k: int)
    ensures WithKey(Insert(sorted, idx, x), idx, k) == (if Key(idx, x) == k then [x] else []) + WithKey(sorted, idx, k)
    decreases |sorted|
  {
    var r := Insert(sorted, idx, x);
    if sorted == [] || Key(idx, x) <= Key(idx, sorted[0]) {
      assert r == [x] + sorted && r[1..] == sorted;
    } else {
      var rest := Insert(sorted[1..], idx, x);
      assert r == [sorted[0]] + rest && r[1..] == rest;
      InsertWithKey(sorted[1..], idx, x, k);
      var w := WithKey(sorted[1..], idx, k);
      if Key(idx, x) == k {
        assert WithKey(r, idx, k) == [x] + w;
        assert WithKey(sorted, idx, k) == w;
      } else {
        assert WithKey(rest, idx, k) == w;
      }
    }
  }

  /** The sort is stable: the names of any one key come out in the order
      they went in. */
  lemma {:induction false} SortIsStable(s: seq<string>, idx: map<string, int>, k: int)
    ensures WithKey(SortByKey(s, idx), idx, k) == WithKey(s, idx, k)
    decreases |s|
  {
    if s != [] {
      SortIsStable(s[1..], idx, k);
      InsertWithKey(SortByKey(s[1..], idx), idx, s[0], k);
    }
  }

  /** With fewer than 99999 entries in the Pokédex list, every name it knows
      comes before every name it does not know. */
  lemma KnownBeforeUnknown(names: seq<string>, pokeList: seq<string>)
    requires |pokeList| < Unknown
    ensures var r := SortByKey(names, DexIndex(pokeList));
      forall i, j :: 0 <= i < |r| && 0 <= j < |r| && r[i] in pokeList && r[j] !in pokeList ==> i < j
  {
    var idx := DexIndex(pokeList);
    var r := SortByKey(names, idx);
    SortIsSorted(names, idx);
    forall i, j | 0 <= i < |r| && 0 <= j < |r| && r[i] in pokeList && r[j] !in pokeList
      ensures i < j
    {
      DexIndexIsLast(pokeList, r[i]);
      assert Key(idx, r[i]) < Unknown && Key(idx, r[j]) == Unknown;
    }
  }

  /** One override rule: a rule whose name is absent changes nothing;
      otherwise the name's first occurrence is taken out and put back just
      after (or before) the first occurrence of the target, or at the end
      when the target is missing. */
  function ApplyRule(base: seq<string>, rule: Rule): seq<string> {
    match IndexOf(base, rule.name)
    case None => base
    case Some(idx) =>
      var b := RemoveAt(base, idx);
      if Truthy(rule.after) then
        match IndexOf(b, rule.after.value)
        case Some(t) => InsertAt(b, t + 1, rule.name)
        case None => b + [rule.name]
      else if Truthy(rule.before) then
        match IndexOf(b, rule.before.value)
        case Some(t) => InsertAt(b, t, rule.name)
        case None => b + [rule.name]
      else b
  }

  /** The sequence a rule works on once its name is taken out. */
  function Removed(base: seq<string>, rule: Rule): seq<string>
    requires rule.name in base
  {
    RemoveAt(base, IndexOf(base, rule.name).value)
  }

  /** A rule whose name is absent changes nothing, and a rule with a target
      only moves its name: no name is added or lost. */
  lemma RuleKeepsNames(base: seq<string>, rule: Rule)
    ensures rule.name !in base ==> ApplyRule(base, rule) == base
    ensures Truthy(rule.after) || Truthy(rule.before) ==> multiset(ApplyRule(base, rule)) == multiset(base)
  {
    if rule.name in base {
      var idx := IndexOf(base, rule.name).value;
      assert base[idx] == rule.name;
      assert multiset(Removed(base, rule)) + multiset{rule.name} == multiset(base);
    }
  }

  /** A rule with an `after` target puts its name right after the target's
      first occurrence, or last when the target is missing. */
  lemma RuleAfterTarget(base: seq<string>, rule: Rule)
    requires rule.name in base && Truthy(rule.after)
    ensures var r := ApplyRule(base, rule);
      rule.after.value in Removed(base, rule) ==>
        exists j :: 0 <= j < |r| - 1 && r[j] == rule.after.value && r[j + 1] == rule.name
          && rule.after.value !in r[..j] && r[..j + 1] + r[j + 2..] == Removed(base, rule)
    ensures rule.after.value !in Removed(base, rule) ==> ApplyRule(base, rule) == Removed(base, rule) + [rule.name]
  {
    var b := Removed(base, rule);
    var r := ApplyRule(base, rule);
    match IndexOf(b, rule.after.value)
    case Some(t) =>
      assert r == InsertAt(b, t + 1, rule.name);
      InsertAtHalves(b, t + 1, rule.name);
      assert r[..t] == b[..t];
      assert r[t] == rule.after.value && r[t + 1] == rule.name;
    case None =>
  }

  /** A rule with only a `before` target puts its name right before the
      target's first occurrence, or last when the target is missing. */
  lemma RuleBeforeTarget(base: seq<string>, rule: Rule)
    requires rule.name in base && !Truthy(rule.after) && Truthy(rule.before)
    ensures var r := ApplyRule(base, rule);
      rule.before.value in Removed(base, rule) ==>
        exists j :: 0 <= j < |r| - 1 && r[j] == rule.name && r[j + 1] == rule.before.value
          && rule.before.value !in r[..j] && r[..j] + r[j + 1..] == Removed(base, rule)
    ensures rule.before.value !in Removed(base, rule) ==> ApplyRule(base, rule) == Removed(base, rule) + [rule.name]
  {
    var b := Removed(base, rule);
    var r := ApplyRule(base, rule);
    match IndexOf(b, rule.before.value)
    case Some(t) =>
      assert r == InsertAt(b, t, rule.name);
      InsertAtHalves(b, t, rule.name);
      assert r[t] == rule.name && r[t + 1] == rule.before.value;
    case None =>
  }

  /** The rules applied one after the other. */
  function ApplyRules(base: seq<string>, rules: seq<Rule>): seq<string> {
    if rules == [] then base
    else ApplyRule(ApplyRules(base, rules[..|rules| - 1]), rules[|rules| - 1])
  }

  /** Applying one more rule of a list applies it to what the earlier ones left. */
  lemma ApplyRulesSnoc(base: seq<string>, rules: seq<Rule>, n: nat)
    requires n < |rules|
    ensures ApplyRules(base, rules[..n + 1]) == ApplyRule(ApplyRules(base, rules[..n]), rules[n])
  {
    assert rules[..n + 1][..n] == rules[..n];
  }

  /** Rules that each name a target keep the names, only moving them. */
  lemma {:induction false} ApplyRulesPermutes(base: seq<string>, rules: seq<Rule>)
    requires forall i :: 0 <= i < |rules| ==> Truthy(rules[i].after) || Truthy(rules[i].before)
    ensures multiset(ApplyRules(base, rules)) == multiset(base)
    decreases |rules|
  {
    if rules != [] {
      ApplyRulesPermutes(base, rules[..|rules| - 1]);
      RuleKeepsNames(ApplyRules(base, rules[..|rules| - 1]), rules[|rules| - 1]);
    }
  }

  /** What `sortByDexOrder(names, pokeList)` returns. */
  function DexSorted(names: seq<string>, pokeList: seq<string>): seq<string> {
    ApplyRules(SortByKey(names, DexIndex(pokeList)), Overrides)
  }

  /** The result is a permutation of the names: nothing is added or lost. */
  lemma DexSortedPermutes(names: seq<string>, pokeList: seq<string>)
    ensures multiset(DexSorted(names, pokeList)) == multiset(names)
  {
    ApplyRulesPermutes(SortByKey(names, DexIndex(pokeList)), Overrides);
  }

  /** The body of the override loop: one rule applied with `indexOf` and
      `splice`. */
  method ApplyOverride(base: seq<string>, rule: Rule) returns (r: seq<string>)
    ensures r == ApplyRule(base, rule)
  {
    r := base;
    var idx := IndexOf(r, rule.name);
    if idx.None? {
      return;
    }
    r := RemoveAt(r, idx.value);
    if Truthy(rule.after) {
      var targetIdx := IndexOf(r, rule.after.value);
      if targetIdx.Some? {
        r := InsertAt(r, targetIdx.value + 1, rule.name);
      } else {
        r := r + [rule.name];
      }
    } else if Truthy(rule.before) {
      var targetIdx := IndexOf(r, rule.before.value);
      if targetIdx.Some? {
        r := InsertAt(r, targetIdx.value, rule.name);
      } else {
        r := r + [rule.name];
      }
    }
  }

  /** `sortByDexOrder`: the index map is filled by a loop over the list, the
      copy of the names is sorted, and the rules are applied in a loop. */
  method SortByDexOrder(names: seq<string>, pokeList: seq<string>) returns (base: seq<string>)
    ensures base == DexSorted(names, pokeList)
    ensures multiset(base) == multiset(names)
  {
    var dexOrderMap := BuildIndex(pokeList);
    base := SortByKey(names, dexOrderMap);
    base := ApplyOverrides(base);
    DexSortedPermutes(names, pokeList);
  }

  /** The `forEach` that fills `dexOrderMap`. */
  method BuildIndex(pokeList: seq<string>) returns (dexOrderMap: map<string, int>)
    ensures dexOrderMap == DexIndex(pokeList)
  {
    dexOrderMap := map[];
    var i := 0;
    while i < |pokeList|
      invariant 0 <= i <= |pokeList|
      invariant dexOrderMap == DexIndex(pokeList[..i])
    {
      assert pokeList[..i + 1][..i] == pokeList[..i];
      dexOrderMap := dexOrderMap[pokeList[i] := i];
      i := i + 1;
    }
    assert pokeList[..i] == pokeList;
  }

  /** The loop over `DEX_ORDER_OVERRIDES`. */
  method ApplyOverrides(sorted: seq<string>) returns (base: seq<string>)
    ensures base == ApplyRules(sorted, Overrides)
  {
    base := sorted;
    var n := 0;
    while n < |Overrides|
      invariant 0 <= n <= |Overrides|
      invariant base == ApplyRules(sorted, Overrides[..n])
    {
      ApplyRulesSnoc(sorted, Overrides, n);
      base := ApplyOverride(base, Overrides[n]);
      n := n + 1;
    }
    assert Overrides[..n] == Overrides;
  }
}
