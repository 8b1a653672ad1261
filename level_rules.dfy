/** The pure rules of the level-up calculator (js/level.js): JavaScript's
    rounding functions on exact rationals, `clampInt`, `ceilDiv`, the EXP
    type multipliers, the per-candy EXP yield, and the parser of the two
    whitespace-separated lookup tables. */
module LevelRules {
  import opened Wrappers
  import opened Text

  const LvMin: int := 1
  const LvMax: int := 65

  function IntMax(a: int, b: int): int { if a >= b then a else b }
  function IntMin(a: int, b: int): int { if a <= b then a else b }

  /** `Math.round(x)`, which rounds halves up: floor(x + 1/2). */
  function Round(x: real): (r: int)
    ensures x - 0.5 < r as real <= x + 0.5
  {
    (x + 0.5).Floor
  }

  /** `Math.trunc(x)`: drop the fraction, toward zero. */
  function Trunc(x: real): (r: int)
    ensures x >= 0.0 ==> 0 <= r && r as real <= x < r as real + 1.0
    ensures x < 0.0 ==> r <= 0 && r as real - 1.0 < x <= r as real
  {
    if x >= 0.0 then x.Floor else -((-x).Floor)
  }

  /** `Math.ceil(x)`: the least integer at or above x. */
  function Ceil(x: real): (r: int)
    ensures x <= r as real < x + 1.0
  {
    -((-x).Floor)
  }

  /** `clampInt(n, min, max)` with `Number(n)` already taken: `None` stands
      for a value that is not finite (NaN or an infinity). */
  function ClampInt(n: Option<real>, min: int, max: int): (r: int)
    ensures r >= min
    ensures min <= max ==> r <= max
    ensures n.None? ==> r == min
    ensures n.Some? && min <= Trunc(n.value) <= max ==> r == Trunc(n.value)
    ensures n.Some? && Trunc(n.value) < min ==> r == min
    ensures n.Some? && min <= max < Trunc(n.value) ==> r == max
    ensures min > max ==> r == min
  {
    match n
    case None => min
    case Some(v) => IntMax(min, IntMin(max, Trunc(v)))
  }

  /** The result of `ceilDiv`: a whole number, or `Infinity`. */
  datatype Quotient = Finite(k: int) | Infinity

  lemma MulLe(x: real, y: real, b: real)
    requires x <= y && b > 0.0
    ensures x * b <= y * b
  {
  }

  lemma MulLt(x: real, y: real, b: real)
    requires x < y && b > 0.0
    ensures x * b < y * b
  {
  }

  /** `ceilDiv(a, b)`: Infinity when b <= 0, otherwise `Math.ceil(a / b)`. */
  function CeilDiv(a: real, b: real): (r: Quotient)
    ensures b <= 0.0 <==> r == Infinity
  {
    if b <= 0.0 then Infinity else Finite(Ceil(a / b))
  }

  /** For b > 0, `ceilDiv(a, b)` is the least integer k with k * b >= a:
      k candies of b EXP cover a, and k - 1 do not. */
  lemma CeilDivLeast(a: real, b: real)
    requires b > 0.0
    ensures CeilDiv(a, b).k as real * b >= a
    ensures (CeilDiv(a, b).k - 1) as real * b < a
  {
    CeilDivBounds(a, b, Ceil(a / b));
  }

  lemma CeilDivBounds(a: real, b: real, k: int)
    requires b > 0.0 && k == Ceil(a / b)
    ensures k as real * b >= a && (k - 1) as real * b < a
  {
    var q := a / b;
    assert q * b == a;
    assert q <= k as real;
    MulLe(q, k as real, b);
    assert (k - 1) as real == k as real - 1.0;
    assert (k - 1) as real < q;
    MulLt((k - 1) as real, q, b);
  }

  /** A positive need over a positive yield takes at least one candy. */
  lemma CeilDivPositive(a: real, b: real)
    requires a > 0.0 && b > 0.0
    ensures CeilDiv(a, b).Finite? && CeilDiv(a, b).k >= 1
  {
    assert a / b > 0.0;
  }

  /** Any count below the `ceilDiv` quotient falls short of `a`. */
  lemma BelowCeilDivFallsShort(a: real, b: real, j: int)
    requires b > 0.0 && j < CeilDiv(a, b).k
    ensures j as real * b < a
  {
    var k := CeilDiv(a, b).k;
    CeilDivLeast(a, b);
    assert (k - 1) as real * b < a;
    MulLe(j as real, (k - 1) as real, b);
    assert j as real * b <= (k - 1) as real * b;
  }

  /** `EXP_TYPE_MULT[typeKey] ?? 1.0`: the EXP type multiplier, 1.0 for an
      unknown key. */
  function TypeMult(typeKey: string): (r: real)
    ensures r == 1.0 || r == 1.5 || r == 1.8 || r == 2.2
    ensures r == 1.5 <==> typeKey == "600"
    ensures r == 1.8 <==> typeKey == "semi"
    ensures r == 2.2 <==> typeKey == "legend"
    ensures typeKey != "600" && typeKey != "semi" && typeKey != "legend" ==> r == 1.0
  {
    if typeKey == "600" then 1.5
    else if typeKey == "semi" then 1.8
    else if typeKey == "legend" then 2.2
    else 1.0
  }

  /** `v * EXP_TYPE_MULT[typeKey]`, written as one constant factor per key
      so that it stays linear in `v`. */
  function ScaleByType(v: real, typeKey: string): real {
    if typeKey == "600" then v * 1.5
    else if typeKey == "semi" then v * 1.8
    else if typeKey == "legend" then v * 2.2
    else v
  }

  lemma ScaleByTypeIsProduct(v: real, typeKey: string)
    ensures ScaleByType(v, typeKey) == v * TypeMult(typeKey)
  {
  }

  datatype Nature = Neutral | Up | Down

  /** The nature keys of the table; any other key is read as "none". */
  function NatureOf(natureKey: string): Nature {
    if natureKey == "up" then Up else if natureKey == "down" then Down else Neutral
  }

  /** The three level bands of the yield table. */
  datatype Band = Low | Mid | High

  function BandOf(level: int): (b: Band)
    ensures b == Low <==> level < 25
    ensures b == Mid <==> 25 <= level < 30
    ensures b == High <==> 30 <= level
  {
    if level < 25 then Low else if level < 30 then Mid else High
  }

  /** The table entry for a band and a nature. */
  function BandYield(b: Band, n: Nature): real {
    match b
    case Low => (match n case Neutral => 35.0 case Up => 41.0 case Down => 29.0)
    case Mid => (match n case Neutral => 30.0 case Up => 35.0 case Down => 25.0)
    case High => (match n case Neutral => 25.0 case Up => 30.0 case Down => 21.0)
  }

  /** The second nature factor applied on top of the table entry. */
  function NatureExtra(n: Nature): real {
    match n
    case Neutral => 1.0
    case Up => 0.82
    case Down => 1.18
  }

  /** `baseCandyExp(level, nature)`: the EXP one ordinary candy gives at
      `level`. It is always positive, so `ceilDiv` by it is finite. */
  function BaseCandyExp(level: int, natureKey: string): (r: real)
    ensures 24.6 <= r <= 35.0
  {
    var n := NatureOf(natureKey);
    BandYield(BandOf(level), n) * NatureExtra(n)
  }

  /** The nine values the yield takes, the nature factor included. */
  lemma BaseCandyExpValues(level: int, natureKey: string)
    ensures level < 25 ==>
      (BaseCandyExp(level, natureKey) == match NatureOf(natureKey) case Neutral => 35.0 case Up => 33.62 case Down => 34.22)
    ensures 25 <= level < 30 ==>
      (BaseCandyExp(level, natureKey) == match NatureOf(natureKey) case Neutral => 30.0 case Up => 28.7 case Down => 29.5)
    ensures 30 <= level ==>
      (BaseCandyExp(level, natureKey) == match NatureOf(natureKey) case Neutral => 25.0 case Up => 24.6 case Down => 24.78)
  {
  }

  /** A key other than "up" and "down" yields exactly what "none" yields. */
  lemma UnknownNatureIsNeutral(level: int, natureKey: string)
    requires natureKey != "up" && natureKey != "down"
    ensures BaseCandyExp(level, natureKey) == BaseCandyExp(level, "none")
  {
  }

  /** Because the factor is applied on top of nature-specific entries, in
      every band "up" yields the least EXP per candy and "none" the most. */
  lemma NatureOrderOfYield(level: int)
    ensures BaseCandyExp(level, "up") < BaseCandyExp(level, "down") < BaseCandyExp(level, "none")
  {
  }

  /** A higher level never yields more EXP per candy. */
  lemma YieldNonIncreasingInLevel(lo: int, hi: int, natureKey: string)
    requires lo <= hi
    ensures BaseCandyExp(hi, natureKey) <= BaseCandyExp(lo, natureKey)
  {
  }

  /** `m.get(k) || 0`: a missing row (or a row holding 0) reads as 0. */
  function Lookup0(m: map<real, real>, k: int): (r: real)
    ensures (k as real) in m ==> r == m[k as real]
    ensures (k as real) !in m ==> r == 0.0
  {
    if (k as real) in m then m[k as real] else 0.0
  }

  /** `s.split(/\s+/)` of a trimmed line: its fields. */
  function Fields(s: string): seq<string> {
    SplitRuns(s, IsSpace)
  }

  /** The key and value one line of a two-column table contributes, if any.
      A blank line, a line starting with '#', a line with fewer than two
      fields, and a line whose first or second field is not a finite number
      contribute nothing; every other line contributes its first two fields. */
  function RowOf(line: string): (r: Option<(real, real)>)
    ensures Trim(line) == [] ==> r.None?
    ensures Trim(line) != [] && Trim(line)[0] == '#' ==> r.None?
    ensures |Fields(Trim(line))| < 2 ==> r.None?
    ensures |Fields(Trim(line))| >= 2 && (JsNumber(Fields(Trim(line))[0]).None? || JsNumber(Fields(Trim(line))[1]).None?) ==> r.None?
    ensures r.Some? ==>
      (|Fields(Trim(line))| >= 2
       && JsNumber(Fields(Trim(line))[0]) == Some(r.value.0)
       && JsNumber(Fields(Trim(line))[1]) == Some(r.value.1))
  {
    var s := Trim(line);
    if s == [] then None
    else if s[0] == '#' then None
    else
      var parts := Fields(s);
      if |parts| < 2 then None
      else
        var k, v := JsNumber(parts[0]), JsNumber(parts[1]);
        if k.Some? && v.Some? then Some((k.value, v.value)) else None
  }

  /** The row each line contributes, line by line. */
  function RowsOf(lines: seq<string>): (rows: seq<Option<(real, real)>>)
    ensures |rows| == |lines|
    ensures forall i :: 0 <= i < |lines| ==> rows[i] == RowOf(lines[i])
  {
    seq(|lines|, i requires 0 <= i < |lines| => RowOf(lines[i]))
  }

  /** The table the rows describe: each row sets its key to its value, in
      order, and a missing row changes nothing. */
  function TableOf(rows: seq<Option<(real, real)>>): map<real, real>
    decreases |rows|
  {
    if rows == [] then map[]
    else
      var m := TableOf(rows[..|rows| - 1]);
      match rows[|rows| - 1]
      case None => m
      case Some(kv) => m[kv.0 := kv.1]
  }

  /** `parseTwoColTable(txt)`: the `forEach` over the lines filling a `Map`. */
  method ParseTwoColTable(txt: string) returns (m: map<real, real>)
    ensures m == TableOf(RowsOf(SplitLines(txt)))
  {
    var rows := RowsOf(SplitLines(txt));
    m := FillTable(rows);
  }

  method FillTable(rows: seq<Option<(real, real)>>) returns (m: map<real, real>)
    ensures m == TableOf(rows)
  {
    m := map[];
    var i := 0;
    while i < |rows|
      invariant 0 <= i <= |rows|
      invariant m == TableOf(rows[..i])
    {
      var row := rows[i];
      assert rows[..i + 1][..i] == rows[..i];
      if row.Some? {
        m := m[row.value.0 := row.value.1];
      }
      i := i + 1;
    }
    assert rows[..i] == rows;
  }

  /** One more row updates the table by that row, if it holds one. */
  lemma TableOfSnoc(rows: seq<Option<(real, real)>>, row: Option<(real, real)>)
    ensures TableOf(rows + [row]) == (if row.None? then TableOf(rows) else TableOf(rows)[row.value.0 := row.value.1])
  {
    assert (rows + [row])[..|rows|] == rows;
  }

  /** The row contributes the key `k`. */
  predicate HasKey(row: Option<(real, real)>, k: real) {
    row.Some? && row.value.0 == k
  }

  /** Every row that holds a key puts that key in the table. */
  lemma {:induction false} RowKeyPresent(rows: seq<Option<(real, real)>>, i: nat, k: real)
    requires i < |rows| && HasKey(rows[i], k)
    ensures k in TableOf(rows)
    decreases |rows|
  {
    var init := rows[..|rows| - 1];
    if i < |init| {
      assert init[i] == rows[i];
      RowKeyPresent(init, i, k);
    }
  }

  /** Every key of the table comes from some row. */
  lemma {:induction false} PresentKeyFromRow(rows: seq<Option<(real, real)>>, k: real)
    requires k in TableOf(rows)
    ensures exists i :: 0 <= i < |rows| && HasKey(rows[i], k)
    decreases |rows|
  {
    var init := rows[..|rows| - 1];
    if !HasKey(rows[|rows| - 1], k) {
      PresentKeyFromRow(init, k);
      var i :| 0 <= i < |init| && HasKey(init[i], k);
      assert rows[i] == init[i];
    }
  }

  /** A key is in the parsed table exactly when some line contributes it. */
  lemma TableKeys(lines: seq<string>, k: real)
    ensures k in TableOf(RowsOf(lines)) <==> exists i :: 0 <= i < |lines| && HasKey(RowOf(lines[i]), k)
  {
    var rows := RowsOf(lines);
    if k in TableOf(rows) {
      PresentKeyFromRow(rows, k);
      var i :| 0 <= i < |rows| && HasKey(rows[i], k);
      assert HasKey(RowOf(lines[i]), k);
    }
    if exists i :: 0 <= i < |lines| && HasKey(RowOf(lines[i]), k) {
      var i :| 0 <= i < |lines| && HasKey(RowOf(lines[i]), k);
      assert HasKey(rows[i], k);
      RowKeyPresent(rows, i, k);
    }
  }

  /** The value of a key is the one in the last row that holds it: a later
      duplicate key overwrites an earlier one. */
  lemma {:induction false} LastRowWins(rows: seq<Option<(real, real)>>, i: nat)
    requires i < |rows| && rows[i].Some?
    requires forall j :: i < j < |rows| ==> !HasKey(rows[j], rows[i].value.0)
    ensures rows[i].value.0 in TableOf(rows)
    ensures TableOf(rows)[rows[i].value.0] == rows[i].value.1
    decreases |rows|
  {
    if i < |rows| - 1 {
      var init := rows[..|rows| - 1];
      assert init[i] == rows[i];
      forall j | i < j < |init| ensures !HasKey(init[j], init[i].value.0) {
        assert init[j] == rows[j];
      }
      LastRowWins(init, i);
    }
  }
}
