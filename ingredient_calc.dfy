/** The ingredient aggregation of `calc` (js/app.js): for a week of meals
    given as recipe rows, the ingredients each category of dishes needs are
    summed, the largest category sum is taken per ingredient, and seven days
    of the daily supply are subtracted. The check boxes and number fields
    of the page are replaced by the excluded ids and the supply texts; the
    tiles and badges drawn from the result are not modelled. */
module IngredientCalc {
  import opened Wrappers
  import opened Text
  import opened Seqs

  const Curry: string := "カレー・シチュー"
  const Salad: string := "サラダ"
  const Dessert: string := "デザート・ドリンク"

  /** The three dish categories, in the order `catSums` lists them. */
  const Categories: seq<string> := [Curry, Salad, Dessert]

  /** A recipe of `RECIPES`: its ingredients in the order of
      `Object.entries`, each id with the quantity one meal needs. */
  datatype Recipe = Recipe(id: string, cat: string, ingredients: seq<(string, real)>)

  /** A row of `state.recipeRows`. */
  datatype Row = Row(rowId: string, cat: string, recipeId: string, meals: int)

  /** What `calc` reads from the page: the rows, the ingredient ids in the
      order of `INGREDIENTS`, the excluded ids, the text of each supply field
      and the "NcPika" option. */
  datatype CalcInput = CalcInput(
    recipes: seq<Recipe>,
    rows: seq<Row>,
    ingredients: seq<string>,
    exclude: set<string>,
    perDayText: map<string, string>,
    ncPika: bool)

  /** The tiles shown, each an ingredient id with the count still needed,
      and the grand total. */
  datatype CalcOutput = CalcOutput(shown: seq<(string, real)>, grandTotal: real)

  function MaxR(a: real, b: real): (r: real)
    ensures r >= a && r >= b && (r == a || r == b)
  {
    if a >= b then a else b
  }

  /** `m.get(k) || 0`. */
  function Get0(m: map<string, real>, k: string): real {
    if k in m then m[k] else 0.0
  }

  /** `RECIPES.find(x => x.id === id)`: the first recipe with that id. */
  function FindRecipe(recipes: seq<Recipe>, id: string): (r: Option<Recipe>)
    ensures r.None? <==> forall k :: 0 <= k < |recipes| ==> recipes[k].id != id
    ensures r.Some? ==> r.value in recipes && r.value.id == id
  {
    Find(recipes, (x: Recipe) => x.id == id)
  }

  /** `Number(c.value) || 0`: a field that holds no number supplies 0. */
  function SupplyOf(text: string): real {
    match JsNumber(text)
    case None => 0.0
    case Some(v) => v
  }

  /** The daily supply per ingredient id, read from the fields. */
  function PerDayOf(texts: map<string, string>): (m: map<string, real>)
    ensures m.Keys == texts.Keys
  {
    map k | k in texts :: SupplyOf(texts[k])
  }

  /** The "NcPika" option adds 12 apples, 5 cacao and 3 honey a day, and
      changes nothing else. */
  function WithPika(perDay: map<string, real>, ncPika: bool): (r: map<string, real>)
    ensures !ncPika ==> r == perDay
    ensures ncPika ==> (Get0(r, "apple") == Get0(perDay, "apple") + 12.0
      && Get0(r, "cacao") == Get0(perDay, "cacao") + 5.0
      && Get0(r, "honey") == Get0(perDay, "honey") + 3.0)
    ensures forall k :: k != "apple" && k != "cacao" && k != "honey" ==> Get0(r, k) == Get0(perDay, k)
  {
    if !ncPika then perDay
    else
      var a := perDay["apple" := Get0(perDay, "apple") + 12.0];
      var b := a["cacao" := Get0(a, "cacao") + 5.0];
      b["honey" := Get0(b, "honey") + 3.0]
  }

  /** What the entries of a recipe add to ingredient `iid` for `meals`
      meals: `qty * meals` for each entry with that id. */
  function EntryAmount(ings: seq<(string, real)>, iid: string, meals: int): real {
    if ings == [] then 0.0
    else
      var last := ings[|ings| - 1];
      EntryAmount(ings[..|ings| - 1], iid, meals) + (if last.0 == iid then last.1 * meals as real else 0.0)
  }

  /** What one row adds to the sum of category `cat` for ingredient `iid`:
      nothing when its recipe is unknown, its meal count is not positive, or
      it belongs to another category. */
  function RowAmount(recipes: seq<Recipe>, row: Row, cat: string, iid: string): real {
    match FindRecipe(recipes, row.recipeId)
    case None => 0.0
    case Some(r) => if row.meals <= 0 || row.cat != cat then 0.0 else EntryAmount(r.ingredients, iid, row.meals)
  }

  /** `catSums[cat].get(iid) || 0` once every row has been added. */
  function CatSum(recipes: seq<Recipe>, rows: seq<Row>, cat: string, iid: string): real {
    if rows == [] then 0.0
    else CatSum(recipes, rows[..|rows| - 1], cat, iid) + RowAmount(recipes, rows[|rows| - 1], cat, iid)
  }

  /** The gross need of an ingredient: the largest of its category sums,
      and 0 when none is positive. */
  function Gross(recipes: seq<Recipe>, rows: seq<Row>, iid: string): real {
    MaxR(MaxR(MaxR(0.0, CatSum(recipes, rows, Curry, iid)), CatSum(recipes, rows, Salad, iid)), CatSum(recipes, rows, Dessert, iid))
  }

  /** The count still needed: the gross need less seven days of supply,
      never below 0. */
  function Final(recipes: seq<Recipe>, rows: seq<Row>, perDay: map<string, real>, iid: string): real {
    MaxR(0.0, Gross(recipes, rows, iid) - Get0(perDay, iid) * 7.0)
  }

  /** The supply `calc` works with. */
  function PerDay(inp: CalcInput): map<string, real> {
    WithPika(PerDayOf(inp.perDayText), inp.ncPika)
  }

  /** Whether ingredient `iid` gets a tile, and its count. */
  predicate IsShown(inp: CalcInput, iid: string) {
    iid !in inp.exclude && Final(inp.recipes, inp.rows, PerDay(inp), iid) > 0.0
  }

  /** The tiles for the ingredients `ings`, in their order. */
  function ShownOf(inp: CalcInput, ings: seq<string>): seq<(string, real)> {
    if ings == [] then []
    else
      var iid := ings[|ings| - 1];
      ShownOf(inp, ings[..|ings| - 1]) + (if IsShown(inp, iid) then [(iid, Final(inp.recipes, inp.rows, PerDay(inp), iid))] else [])
  }

  /** The sum of the counts of a list of tiles. */
  function SumOf(tiles: seq<(string, real)>): real {
    if tiles == [] then 0.0 else SumOf(tiles[..|tiles| - 1]) + tiles[|tiles| - 1].1
  }

  /** What `calc` shows. */
  function CalcResult(inp: CalcInput): CalcOutput {
    var shown := ShownOf(inp, inp.ingredients);
    CalcOutput(shown, SumOf(shown))
  }

  /** Every row's category is one of the three (the category select offers
      no other), without which `catSums[row.cat]` does not exist. */
  predicate RowsInCategories(rows: seq<Row>) {
    forall i :: 0 <= i < |rows| ==> rows[i].cat in Categories
  }

  /** `calc`: the supply, the category sums, the maximum across categories,
      and the loop over the ingredients. */
  method Calc(inp: CalcInput) returns (out: CalcOutput)
    requires RowsInCategories(inp.rows)
    ensures out == CalcResult(inp)
  {
    var perDay := WithPika(PerDayOf(inp.perDayText), inp.ncPika);
    var catSums := SumByCategory(inp.recipes, inp.rows);
    var finalGross := MaxAcrossCategories(catSums);
    forall x
      ensures Get0(finalGross, x) == Gross(inp.recipes, inp.rows, x)
    {
      GrossUpToAll(catSums, inp.recipes, inp.rows, x);
    }
    out := Tiles(inp, finalGross, perDay);
  }

  /** The loop over the ingredients: an excluded one is skipped, and one
      that still needs a positive count gets a tile and adds to the total. */
  method Tiles(inp: CalcInput, finalGross: map<string, real>, perDay: map<string, real>) returns (out: CalcOutput)
    requires perDay == PerDay(inp)
    requires forall x :: Get0(finalGross, x) == Gross(inp.recipes, inp.rows, x)
    ensures out == CalcResult(inp)
  {
    var shown: seq<(string, real)> := [];
    var grandTotal := 0.0;
    var k := 0;
    while k < |inp.ingredients|
      invariant 0 <= k <= |inp.ingredients|
      invariant shown == ShownOf(inp, inp.ingredients[..k])
      invariant grandTotal == SumOf(shown)
    {
      var iid := inp.ingredients[k];
      ShownLast(inp, inp.ingredients, k);
      ghost var before := shown;
      if iid !in inp.exclude {
        var final := MaxR(0.0, Get0(finalGross, iid) - Get0(perDay, iid) * 7.0);
        assert final == Final(inp.recipes, inp.rows, perDay, iid);
        if final > 0.0 {
          grandTotal := grandTotal + final;
          shown := shown + [(iid, final)];
          SumOfSnoc(before, (iid, final));
        }
      }
      k := k + 1;
    }
    assert inp.ingredients[..k] == inp.ingredients;
    out := CalcOutput(shown, grandTotal);
  }

  lemma ShownLast(inp: CalcInput, ings: seq<string>, k: nat)
    requires k < |ings|
    ensures ShownOf(inp, ings[..k + 1]) == ShownOf(inp, ings[..k])
      + (if IsShown(inp, ings[k]) then [(ings[k], Final(inp.recipes, inp.rows, PerDay(inp), ings[k]))] else [])
  {
    assert ings[..k + 1][..k] == ings[..k];
  }

  lemma SumOfSnoc(tiles: seq<(string, real)>, t: (string, real))
    ensures SumOf(tiles + [t]) == SumOf(tiles) + t.1
  {
    assert (tiles + [t])[..|tiles|] == tiles;
  }

  /** The nested loops over the rows and their recipes' entries, filling
      one map per category. */
  method SumByCategory(recipes: seq<Recipe>, rows: seq<Row>) returns (catSums: map<string, map<string, real>>)
    requires RowsInCategories(rows)
    ensures catSums.Keys == {Curry, Salad, Dessert}
    ensures forall c, x :: c in catSums ==> Get0(catSums[c], x) == CatSum(recipes, rows, c, x)
  {
    catSums := map[Curry := map[], Salad := map[], Dessert := map[]];
    var i := 0;
    while i < |rows|
      invariant 0 <= i <= |rows|
      invariant catSums.Keys == {Curry, Salad, Dessert}
      invariant forall c, x :: c in catSums ==> Get0(catSums[c], x) == CatSum(recipes, rows[..i], c, x)
    {
      var row := rows[i];
      ghost var before := catSums;
      var r := FindRecipe(recipes, row.recipeId);
      if r.Some? && row.meals > 0 {
        var m := AddRecipe(catSums[row.cat], r.value.ingredients, row.meals);
        catSums := catSums[row.cat := m];
      }
      forall c, x | c in catSums
        ensures Get0(catSums[c], x) == CatSum(recipes, rows[..i + 1], c, x)
      {
        CatSumLast(recipes, rows, i, c, x);
      }
      i := i + 1;
    }
    assert rows[..i] == rows;
  }

  lemma CatSumLast(recipes: seq<Recipe>, rows: seq<Row>, i: nat, cat: string, iid: string)
    requires i < |rows|
    ensures CatSum(recipes, rows[..i + 1], cat, iid) == CatSum(recipes, rows[..i], cat, iid) + RowAmount(recipes, rows[i], cat, iid)
  {
    assert rows[..i + 1][..i] == rows[..i];
  }

  /** The loop over one recipe's entries, adding `qty * meals` to the
      entry's ingredient in one category's map. */
  method AddRecipe(m0: map<string, real>, ings: seq<(string, real)>, meals: int) returns (m: map<string, real>)
    ensures forall x :: Get0(m, x) == Get0(m0, x) + EntryAmount(ings, x, meals)
  {
    m := m0;
    var k := 0;
    while k < |ings|
      invariant 0 <= k <= |ings|
      invariant forall x :: Get0(m, x) == Get0(m0, x) + EntryAmount(ings[..k], x, meals)
    {
      assert ings[..k + 1][..k] == ings[..k];
      var (iid, qty) := ings[k];
      m := m[iid := Get0(m, iid) + qty * meals as real];
      k := k + 1;
    }
    assert ings[..k] == ings;
  }

  /** The gross need from the first `i` categories. */
  function GrossUpTo(catSums: map<string, map<string, real>>, i: nat, x: string): (g: real)
    requires i <= |Categories| && forall c :: c in Categories ==> c in catSums
    ensures g >= 0.0
  {
    if i == 0 then 0.0 else MaxR(GrossUpTo(catSums, i - 1, x), Get0(catSums[Categories[i - 1]], x))
  }

  lemma GrossUpToAll(catSums: map<string, map<string, real>>, recipes: seq<Recipe>, rows: seq<Row>, x: string)
    requires catSums.Keys == {Curry, Salad, Dessert}
    requires forall c, y :: c in catSums ==> Get0(catSums[c], y) == CatSum(recipes, rows, c, y)
    ensures GrossUpTo(catSums, 3, x) == Gross(recipes, rows, x)
  {
    assert Categories[0] == Curry && Categories[1] == Salad && Categories[2] == Dessert;
    assert GrossUpTo(catSums, 1, x) == MaxR(0.0, CatSum(recipes, rows, Curry, x));
    assert GrossUpTo(catSums, 2, x) == MaxR(GrossUpTo(catSums, 1, x), CatSum(recipes, rows, Salad, x));
  }

  /** The loop over the three maps, so that each ingredient ends with the
      largest of its sums. */
  method MaxAcrossCategories(catSums: map<string, map<string, real>>) returns (finalGross: map<string, real>)
    requires catSums.Keys == {Curry, Salad, Dessert}
    ensures forall x :: Get0(finalGross, x) == GrossUpTo(catSums, 3, x)
  {
    finalGross := map[];
    var i := 0;
    while i < |Categories|
      invariant 0 <= i <= |Categories|
      invariant forall x :: Get0(finalGross, x) == GrossUpTo(catSums, i, x)
    {
      finalGross := MergeLarger(finalGross, catSums[Categories[i]]);
      i := i + 1;
    }
  }

  /** The loop over one category's map: an entry replaces the running value
      when it is larger. */
  method MergeLarger(g0: map<string, real>, m: map<string, real>) returns (g: map<string, real>)
    requires forall x :: Get0(g0, x) >= 0.0
    ensures forall x :: Get0(g, x) == MaxR(Get0(g0, x), Get0(m, x))
  {
    g := g0;
    var keys := m.Keys;
    while keys != {}
      invariant keys <= m.Keys
      invariant forall x :: Get0(g, x) == MaxR(Get0(g0, x), if x in m && x !in keys then m[x] else 0.0)
      decreases |keys|
    {
      var iid :| iid in keys;
      if m[iid] > Get0(g, iid) {
        g := g[iid := m[iid]];
      }
      keys := keys - {iid};
    }
  }

  /** The gross need is the largest category sum, not their total: it is
      at least every category sum and at least 0, and it is one of them or 0. */
  lemma GrossIsLargestSum(recipes: seq<Recipe>, rows: seq<Row>, iid: string)
    ensures var g := Gross(recipes, rows, iid);
      && g >= 0.0
      && (forall c :: c in Categories ==> g >= CatSum(recipes, rows, c, iid))
      && (g == 0.0 || exists c :: c in Categories && g == CatSum(recipes, rows, c, iid))
  {
    var g := Gross(recipes, rows, iid);
    if g != 0.0 {
      if g == CatSum(recipes, rows, Curry, iid) {
        assert Curry in Categories;
      } else if g == CatSum(recipes, rows, Salad, iid) {
        assert Salad in Categories;
      } else {
        assert Dessert in Categories;
      }
    }
  }

  /** The count still needed is never negative, is what the week needs less
      seven days of supply when that is positive, and with a supply that is
      not negative it is at most the gross need. */
  lemma FinalBounds(recipes: seq<Recipe>, rows: seq<Row>, perDay: map<string, real>, iid: string)
    ensures var f := Final(recipes, rows, perDay, iid);
      var g := Gross(recipes, rows, iid);
      && f >= 0.0
      && (g - Get0(perDay, iid) * 7.0 > 0.0 ==> f == g - Get0(perDay, iid) * 7.0)
      && (g - Get0(perDay, iid) * 7.0 <= 0.0 ==> f == 0.0)
      && (Get0(perDay, iid) >= 0.0 ==> f <= g)
  {
    GrossIsLargestSum(recipes, rows, iid);
  }

  lemma {:induction false} CatSumAppend(recipes: seq<Recipe>, a: seq<Row>, b: seq<Row>, cat: string, iid: string)
    ensures CatSum(recipes, a + b, cat, iid) == CatSum(recipes, a, cat, iid) + CatSum(recipes, b, cat, iid)
    decreases |b|
  {
    if b == [] {
      assert a + b == a;
    } else {
      assert (a + b)[..|a + b| - 1] == a + b[..|b| - 1];
      CatSumAppend(recipes, a, b[..|b| - 1], cat, iid);
    }
  }

  /** A row whose recipe is unknown or whose meal count is not positive
      adds nothing: taking it out leaves every category sum as it was. */
  lemma IdleRowAddsNothing(recipes: seq<Recipe>, a: seq<Row>, row: Row, b: seq<Row>, cat: string, iid: string)
    requires FindRecipe(recipes, row.recipeId).None? || row.meals <= 0
    ensures CatSum(recipes, a + [row] + b, cat, iid) == CatSum(recipes, a + b, cat, iid)
  {
    CatSumAppend(recipes, a + [row], b, cat, iid);
    CatSumAppend(recipes, a, [row], cat, iid);
    CatSumAppend(recipes, a, b, cat, iid);
    assert CatSum(recipes, [row], cat, iid) == 0.0 by {
      assert [row][..0] == [];
    }
  }

  /** The rows of a category are summed: a row of another category adds
      nothing to it, and a row of that category adds `qty * meals` for each
      entry of its recipe. */
  lemma RowAddsToItsCategory(recipes: seq<Recipe>, rows: seq<Row>, row: Row, cat: string, iid: string)
    ensures row.cat != cat ==> CatSum(recipes, rows + [row], cat, iid) == CatSum(recipes, rows, cat, iid)
    ensures row.cat == cat && row.meals > 0 && FindRecipe(recipes, row.recipeId).Some? ==>
      CatSum(recipes, rows + [row], cat, iid)
        == CatSum(recipes, rows, cat, iid) + EntryAmount(FindRecipe(recipes, row.recipeId).value.ingredients, iid, row.meals)
  {
    assert (rows + [row])[..|rows|] == rows;
  }

  /** The tiles: every tile is an ingredient that is not excluded, with a
      positive count equal to what it still needs; every such ingredient
      gets a tile; and the grand total is the sum of the tiles. */
  lemma {:induction false} ShownExactly(inp: CalcInput, ings: seq<string>)
    ensures forall t :: t in ShownOf(inp, ings) ==>
      t.0 in ings && t.0 !in inp.exclude && t.1 > 0.0 && t.1 == Final(inp.recipes, inp.rows, PerDay(inp), t.0)
    ensures forall iid :: iid in ings && IsShown(inp, iid) ==> exists t :: t in ShownOf(inp, ings) && t.0 == iid
    decreases |ings|
  {
    if ings != [] {
      var init := ings[..|ings| - 1];
      var iid := ings[|ings| - 1];
      ShownExactly(inp, init);
      assert ings == init + [iid];
      forall x | x in ings && IsShown(inp, x)
        ensures exists t :: t in ShownOf(inp, ings) && t.0 == x
      {
        if x == iid {
          assert ShownOf(inp, ings)[|ShownOf(inp, ings)| - 1].0 == x;
        } else {
          assert x in init;
          var t :| t in ShownOf(inp, init) && t.0 == x;
          assert t in ShownOf(inp, ings);
        }
      }
    }
  }

  /** The grand total is never negative. */
  lemma {:induction false} SumOfShownNonNegative(inp: CalcInput, ings: seq<string>)
    ensures SumOf(ShownOf(inp, ings)) >= 0.0
    decreases |ings|
  {
    if ings != [] {
      var init := ings[..|ings| - 1];
      SumOfShownNonNegative(inp, init);
      var s := ShownOf(inp, ings);
      if IsShown(inp, ings[|ings| - 1]) {
        assert s[..|s| - 1] == ShownOf(inp, init);
      } else {
        assert s == ShownOf(inp, init);
      }
    }
  }
}
