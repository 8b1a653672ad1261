/** The recipe rows of the meal planner (js/app.js): at most nine rows, each
    a category, a recipe and a meal count, with the meal counts of the week
    kept within 21 by the choices each row's meal select offers. The page
    elements are not modelled; the random row ids are parameters. */
module MealPlanner {
  import opened Wrappers
  import opened Seqs
  import opened IngredientCalc

  const MaxRows: nat := 9
  const WeekMeals: int := 21

  /** What `addRecipeRow` is given: an empty text stands for a missing field,
      as `||` treats both alike. The meal count it is given is not kept, so
      it is not part of the model. */
  datatype RowInit = RowInit(cat: string, recipeId: string)

  /** `addRecipeRow()` and `addRecipeRow({ meals: 0 })`. */
  const NoInit: RowInit := RowInit("", "")

  /** `RECIPES.find(r => r.cat === cat)`. */
  function FirstOfCat(recipes: seq<Recipe>, cat: string): (r: Option<Recipe>)
    ensures r.None? <==> forall k :: 0 <= k < |recipes| ==> recipes[k].cat != cat
    ensures r.Some? ==> r.value in recipes && r.value.cat == cat
  {
    Find(recipes, (x: Recipe) => x.cat == cat)
  }

  /** Whether some recipe has id `id` and category `cat`
      (`filtered.some(r => r.id === id)`). */
  predicate InCat(recipes: seq<Recipe>, cat: string, id: string) {
    exists k :: 0 <= k < |recipes| && recipes[k].cat == cat && recipes[k].id == id
  }

  /** The category of a new row. */
  function InitCat(init: RowInit): string {
    if init.cat == "" then Curry else init.cat
  }

  /** What `addRecipeRow` needs: the category is one of the select's
      options and has a recipe, without which `filtered[0]` does not exist. */
  predicate CanAdd(recipes: seq<Recipe>, init: RowInit) {
    InitCat(init) in Categories && FirstOfCat(recipes, InitCat(init)).Some?
  }

  /** The row `addRecipeRow` pushes, as `updateRecipeList` and
      `updatePreview` leave it: the requested recipe when the category has
      it, the category's first recipe otherwise, and 0 meals, since the meal
      select has no options yet when its value is read. */
  function NewRow(recipes: seq<Recipe>, init: RowInit, rowId: string): (r: Row)
    requires CanAdd(recipes, init)
    ensures r.rowId == rowId && r.cat == InitCat(init) && r.meals == 0
    ensures InCat(recipes, r.cat, r.recipeId)
    ensures init.recipeId != "" && InCat(recipes, r.cat, init.recipeId) ==> r.recipeId == init.recipeId
    ensures !(init.recipeId != "" && InCat(recipes, r.cat, init.recipeId)) ==> r.recipeId == FirstOfCat(recipes, r.cat).value.id
  {
    var cat := InitCat(init);
    var first := FirstOfCat(recipes, cat).value;
    var wanted := if init.recipeId == "" then first.id else init.recipeId;
    Row(rowId, cat, if InCat(recipes, cat, wanted) then wanted else first.id, 0)
  }

  /** The meals of the week: `recipeRows.reduce((s, r) => s + r.meals, 0)`. */
  function Total(rows: seq<Row>): int {
    if rows == [] then 0 else rows[0].meals + Total(rows[1..])
  }

  /** The largest meal count row `i` is offered: what the week leaves once
      the other rows are counted. */
  function MaxAvail(rows: seq<Row>, i: nat): int
    requires i < |rows|
  {
    WeekMeals - (Total(rows) - rows[i].meals)
  }

  /** The options of row `i`'s meal select, 0 up to `MaxAvail`. */
  function MealChoices(rows: seq<Row>, i: nat): (r: seq<int>)
    requires i < |rows|
    ensures |r| == if MaxAvail(rows, i) < 0 then 0 else MaxAvail(rows, i) + 1
    ensures forall k :: 0 <= k < |r| ==> r[k] == k
  {
    var n := if MaxAvail(rows, i) < 0 then 0 else MaxAvail(rows, i) + 1;
    seq(n, k => k)
  }

  /** The rows after the remove button of row `rowId`. */
  function Without(rows: seq<Row>, rowId: string): seq<Row> {
    Filter(rows, OtherId(rowId))
  }

  /** `r => r.rowId !== rowId`. */
  function OtherId(rowId: string): Row -> bool {
    (r: Row) => r.rowId != rowId
  }

  /** The rows as `applyQuick21` leaves them: all meals of the week on the
      first row and none on the others. */
  function Quick21(rows: seq<Row>): (r: seq<Row>)
    ensures |r| == |rows|
    ensures forall k :: 0 <= k < |r| ==> r[k] == rows[k].(meals := if k == 0 then WeekMeals else 0)
  {
    seq(|rows|, k requires 0 <= k < |rows| => rows[k].(meals := if k == 0 then WeekMeals else 0))
  }

  /** What the page keeps true of the rows: at most nine, every category one
      of the three, no negative meal count, and at most 21 meals in all. */
  predicate Valid(rows: seq<Row>) {
    && |rows| <= MaxRows
    && (forall k :: 0 <= k < |rows| ==> rows[k].cat in Categories && rows[k].meals >= 0)
    && Total(rows) <= WeekMeals
  }

  lemma {:induction false} TotalAppend(a: seq<Row>, b: seq<Row>)
    ensures Total(a + b) == Total(a) + Total(b)
    decreases |a|
  {
    if a == [] {
      assert a + b == b;
    } else {
      assert (a + b)[1..] == a[1..] + b;
      TotalAppend(a[1..], b);
    }
  }

  /** Changing one row's meal count changes the week's meals by the
      difference. */
  lemma {:induction false} TotalUpdate(rows: seq<Row>, i: nat, m: int)
    requires i < |rows|
    ensures Total(rows[i := rows[i].(meals := m)]) == Total(rows) - rows[i].meals + m
    decreases |rows|
  {
    var r := rows[i := rows[i].(meals := m)];
    if i == 0 {
      assert r[1..] == rows[1..];
    } else {
      assert r[1..] == rows[1..][i - 1 := rows[i].(meals := m)];
      TotalUpdate(rows[1..], i - 1, m);
    }
  }

  /** Whatever row `i`'s select offers keeps the week within 21 meals. */
  lemma ChoiceKeepsWeek(rows: seq<Row>, i: nat, m: int)
    requires i < |rows| && m in MealChoices(rows, i)
    ensures 0 <= m && Total(rows[i := rows[i].(meals := m)]) <= WeekMeals
  {
    TotalUpdate(rows, i, m);
  }

  /** The choices are exactly the counts that keep the week within 21 meals:
      a count that is not offered is negative or would exceed the week. */
  lemma ChoicesAreExactlyThoseThatFit(rows: seq<Row>, i: nat, m: int)
    requires i < |rows|
    ensures m in MealChoices(rows, i) <==> 0 <= m && Total(rows[i := rows[i].(meals := m)]) <= WeekMeals
  {
    TotalUpdate(rows, i, m);
    var c := MealChoices(rows, i);
    if 0 <= m <= MaxAvail(rows, i) {
      assert c[m] == m;
    }
  }

  /** Removing rows whose meal counts are not negative never raises the
      week's meals. */
  lemma {:induction false} WithoutTotal(rows: seq<Row>, rowId: string)
    requires forall k :: 0 <= k < |rows| ==> rows[k].meals >= 0
    ensures Total(Without(rows, rowId)) <= Total(rows)
    decreases |rows|
  {
    if rows != [] {
      WithoutTotal(rows[1..], rowId);
      var keep := OtherId(rowId);
      assert Without(rows, rowId) == (if keep(rows[0]) then [rows[0]] else []) + Without(rows[1..], rowId);
      TotalAppend(if keep(rows[0]) then [rows[0]] else [], Without(rows[1..], rowId));
      assert Total([rows[0]]) == rows[0].meals by {
        assert [rows[0]][1..] == [];
      }
    }
  }

  /** The remove button takes out the rows with that id and keeps every
      other row, and the rows stay valid. */
  lemma RemoveProperties(rows: seq<Row>, rowId: string)
    ensures forall r :: r in Without(rows, rowId) <==> r in rows && r.rowId != rowId
    ensures Valid(rows) ==> Valid(Without(rows, rowId))
  {
    var w := Without(rows, rowId);
    forall r | r in w
      ensures r in rows && r.rowId != rowId
    {
      var k :| 0 <= k < |w| && w[k] == r;
    }
    if Valid(rows) {
      WithoutTotal(rows, rowId);
    }
  }

  /** Rows of other ids are all kept. */
  lemma {:induction false} WithoutOthers(rows: seq<Row>, rowId: string)
    requires forall k :: 0 <= k < |rows| ==> rows[k].rowId != rowId
    ensures Without(rows, rowId) == rows
    decreases |rows|
  {
    if rows != [] {
      WithoutOthers(rows[1..], rowId);
      assert [rows[0]] + rows[1..] == rows;
    }
  }

  /** The remove button deletes exactly the row with that id and keeps the
      other rows in their order. */
  lemma RemoveKeepsOrder(a: seq<Row>, row: Row, b: seq<Row>)
    requires forall k :: 0 <= k < |a| ==> a[k].rowId != row.rowId
    requires forall k :: 0 <= k < |b| ==> b[k].rowId != row.rowId
    ensures Without(a + [row] + b, row.rowId) == a + b
  {
    var id := row.rowId;
    WithoutOthers(a, id);
    WithoutOthers(b, id);
    WithoutSelf(row);
    WithoutConcat(a + [row], b, id);
    WithoutConcat(a, [row], id);
    assert a + [] == a;
  }

  lemma WithoutConcat(a: seq<Row>, b: seq<Row>, rowId: string)
    ensures Without(a + b, rowId) == Without(a, rowId) + Without(b, rowId)
  {
    FilterConcat(a, b, OtherId(rowId));
  }

  lemma WithoutSelf(row: Row)
    ensures Without([row], row.rowId) == []
  {
    assert [row][1..] == [];
    assert !OtherId(row.rowId)(row);
  }

  /** A new row keeps the rows valid while there is room for it. */
  lemma AddKeepsValid(rows: seq<Row>, recipes: seq<Recipe>, init: RowInit, rowId: string)
    requires Valid(rows) && |rows| < MaxRows && CanAdd(recipes, init)
    ensures Valid(rows + [NewRow(recipes, init, rowId)])
  {
    TotalAppend(rows, [NewRow(recipes, init, rowId)]);
    assert [NewRow(recipes, init, rowId)][1..] == [];
  }

  /** `applyQuick21` fills the week: exactly 21 meals, all on the first
      row, and the rows stay valid. */
  lemma {:induction false} Quick21FillsWeek(rows: seq<Row>)
    requires rows != []
    ensures Total(Quick21(rows)) == WeekMeals
    ensures Valid(rows) ==> Valid(Quick21(rows))
  {
    var q := Quick21(rows);
    assert forall k :: 0 <= k < |q[1..]| ==> q[1..][k].meals == 0;
    NoMeals(q[1..]);
  }

  lemma {:induction false} NoMeals(rows: seq<Row>)
    requires forall k :: 0 <= k < |rows| ==> rows[k].meals == 0
    ensures Total(rows) == 0
    decreases |rows|
  {
    if rows != [] {
      NoMeals(rows[1..]);
    }
  }

  /** The rows of the page (`state.recipeRows`). */
  class Planner {
    var rows: seq<Row>

    constructor ()
      ensures rows == []
    {
      rows := [];
    }

    /** `addRecipeRow`: nothing happens once nine rows exist; otherwise the
        new row is pushed. */
    method AddRecipeRow(recipes: seq<Recipe>, init: RowInit, rowId: string)
      requires |rows| < MaxRows ==> CanAdd(recipes, init)
      modifies this
      ensures |old(rows)| >= MaxRows ==> rows == old(rows)
      ensures |old(rows)| < MaxRows ==> rows == old(rows) + [NewRow(recipes, init, rowId)]
      ensures Valid(old(rows)) ==> Valid(rows)
    {
      if |rows| >= MaxRows {
        return;
      }
      var cat := if init.cat == "" then Curry else init.cat;
      var first := FirstOfCat(recipes, cat).value;
      var recipeId := if init.recipeId == "" then first.id else init.recipeId;
      if !InCat(recipes, cat, recipeId) {
        recipeId := first.id;
      }
      assert InCat(recipes, cat, first.id) by {
        var k :| k in recipes && k == first;
      }
      if Valid(rows) {
        AddKeepsValid(rows, recipes, init, rowId);
      }
      rows := rows + [Row(rowId, cat, recipeId, 0)];
    }

    /** The remove button of row `rowId`. */
    method RemoveRow(rowId: string)
      modifies this
      ensures rows == Without(old(rows), rowId)
      ensures Valid(old(rows)) ==> Valid(rows)
    {
      RemoveProperties(rows, rowId);
      rows := Without(rows, rowId);
    }

    /** Picking `m` in row `i`'s meal select: the select offers only
        `MealChoices`, so the week stays within 21 meals. */
    method SetMeals(i: nat, m: int)
      requires i < |rows| && m in MealChoices(rows, i)
      modifies this
      ensures rows == old(rows)[i := old(rows)[i].(meals := m)]
      ensures Valid(old(rows)) ==> Valid(rows)
    {
      ChoiceKeepsWeek(rows, i, m);
      rows := rows[i := rows[i].(meals := m)];
    }

    /** `applyQuickSet(cat)`: the rows are replaced by three rows of the
        category's first recipe. */
    method ApplyQuickSet(recipes: seq<Recipe>, cat: string, rowIds: seq<string>)
      requires cat in Categories && FirstOfCat(recipes, cat).Some? && |rowIds| == 3
      modifies this
      ensures var d := FirstOfCat(recipes, cat).value.id;
        rows == [Row(rowIds[0], cat, d, 0), Row(rowIds[1], cat, d, 0), Row(rowIds[2], cat, d, 0)]
      ensures Valid(rows)
    {
      rows := [];
      var defaultId := FirstOfCat(recipes, cat).value.id;
      var init := RowInit(cat, defaultId);
      assert InCat(recipes, cat, defaultId) by {
        var k :| k in recipes && k == FirstOfCat(recipes, cat).value;
      }
      assert Valid(rows);
      var i := 0;
      while i < 3
        invariant 0 <= i <= 3 && Valid(rows) && |rows| == i
        invariant forall k :: 0 <= k < i ==> rows[k] == Row(rowIds[k], cat, defaultId, 0)
      {
        assert NewRow(recipes, init, rowIds[i]) == Row(rowIds[i], cat, defaultId, 0);
        AddRecipeRow(recipes, init, rowIds[i]);
        i := i + 1;
      }
      assert rows[0] == Row(rowIds[0], cat, defaultId, 0);
      assert rows[1] == Row(rowIds[1], cat, defaultId, 0);
      assert rows[2] == Row(rowIds[2], cat, defaultId, 0);
    }

    /** `applyQuick21`: a default row is added when there are none, then the
        first row gets all 21 meals and every other row none. */
    method ApplyQuick21(recipes: seq<Recipe>, rowId: string)
      requires rows == [] ==> CanAdd(recipes, NoInit)
      modifies this
      ensures old(rows) == [] ==> rows == Quick21([NewRow(recipes, NoInit, rowId)])
      ensures old(rows) != [] ==> rows == Quick21(old(rows))
      ensures Total(rows) == WeekMeals
      ensures Valid(old(rows)) ==> Valid(rows)
    {
      if |rows| == 0 {
        AddRecipeRow(recipes, NoInit, rowId);
      }
      ghost var base := rows;
      var idx := 0;
      while idx < |rows|
        invariant 0 <= idx <= |rows| == |base|
        invariant forall k :: 0 <= k < idx ==> rows[k] == base[k].(meals := if k == 0 then WeekMeals else 0)
        invariant forall k :: idx <= k < |rows| ==> rows[k] == base[k]
      {
        rows := rows[idx := rows[idx].(meals := if idx == 0 then WeekMeals else 0)];
        idx := idx + 1;
      }
      assert rows == Quick21(base);
      Quick21FillsWeek(base);
    }

    /** The clear button: the rows are replaced by one default row (the
        check boxes and supply fields it also clears are inputs of `calc`). */
    method ClearAll(recipes: seq<Recipe>, rowId: string)
      requires CanAdd(recipes, NoInit)
      modifies this
      ensures rows == [NewRow(recipes, NoInit, rowId)]
      ensures Valid(rows)
    {
      rows := [];
      AddRecipeRow(recipes, NoInit, rowId);
    }
  }
}
