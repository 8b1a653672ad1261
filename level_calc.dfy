/** The arithmetic of the calculate button (`onCalc` in js/level.js): the
    form fields are read and clamped, the input is validated, and the two
    level walks give the five figures of the result. The DOM is replaced by
    a record of the fields' texts and the selected radio values. */
module LevelCalc {
  import opened Wrappers
  import opened Text
  import opened LevelRules
  import opened LevelSim

  /** The form as `onCalc` reads it: the text of each number field and the
      value of the checked radio button of each group, if any. */
  datatype CalcForm = CalcForm(
    lvNow: string,
    lvTarget: string,
    nature: Option<string>,
    expType: Option<string>,
    progressExp: string,
    candyOwned: string,
    boost: string,
    miniBoost: string)

  /** The inputs after clamping. */
  datatype Inputs = Inputs(
    lvNow: int,
    lvTarget: int,
    natureKey: string,
    typeKey: string,
    progressExp: int,
    candyOwned: int,
    boost: int,
    mini: int)

  /** The validation messages, in the order `onCalc` collects them. */
  datatype InputError = NoLvNow | NoLvTarget | TargetNotAbove | BothBoosts

  /** What `onCalc` ends with: the error box, a level missing from the EXP
      table (the exception `calcTotalNeedExp` throws, which ends `onCalc`
      with the result hidden), or the five figures of the result. */
  datatype Outcome =
    | InputErrors(errors: seq<InputError>)
    | TableMissing(level: int)
    | Shown(totalNeedExp: int, remainNeedExp: int, candiesTotal: int, candiesAfterOwned: int, shardsTotal: int)

  /** `x || 0` followed by `Number`: an empty field reads as 0. */
  function NumberOrZero(s: string): (r: Option<real>)
    ensures s == [] ==> r == Some(0.0)
  {
    if s == [] then Some(0.0) else JsNumber(s)
  }

  /** `getRadio(name) || fallback`: no checked button, or an empty value,
      gives the fallback. */
  function RadioOr(v: Option<string>, fallback: string): (r: string)
    ensures v.Some? && v.value != [] ==> r == v.value
    ensures v.None? || v.value == [] ==> r == fallback
  {
    match v
    case None => fallback
    case Some(x) => if x == [] then fallback else x
  }

  /** Reading the form: each field is clamped to its range, a level field
      that holds no number gives the least level. */
  function ReadInputs(f: CalcForm): (i: Inputs)
    ensures LvMin <= i.lvNow <= LvMax && 2 <= i.lvTarget <= LvMax
    ensures 0 <= i.progressExp <= 9999 && 0 <= i.candyOwned <= 9999
    ensures 0 <= i.boost <= 999 && 0 <= i.mini <= 999
    ensures JsNumber(f.lvNow).None? ==> i.lvNow == LvMin
    ensures f.progressExp == [] ==> i.progressExp == 0
    ensures f.boost == [] ==> i.boost == 0
    ensures f.miniBoost == [] ==> i.mini == 0
  {
    Inputs(
      ClampInt(JsNumber(f.lvNow), LvMin, LvMax),
      ClampInt(JsNumber(f.lvTarget), 2, LvMax),
      RadioOr(f.nature, "none"),
      RadioOr(f.expType, "normal"),
      ClampInt(NumberOrZero(f.progressExp), 0, 9999),
      ClampInt(NumberOrZero(f.candyOwned), 0, 9999),
      ClampInt(NumberOrZero(f.boost), 0, 999),
      ClampInt(NumberOrZero(f.miniBoost), 0, 999))
  }

  /** The validation: the four checks of `onCalc`, each adding its message. */
  function Validate(i: Inputs): (errs: seq<InputError>)
    ensures NoLvNow in errs <==> i.lvNow == 0
    ensures NoLvTarget in errs <==> i.lvTarget == 0
    ensures TargetNotAbove in errs <==> i.lvTarget <= i.lvNow
    ensures BothBoosts in errs <==> i.boost > 0 && i.mini > 0
  {
    (if i.lvNow == 0 then [NoLvNow] else [])
    + (if i.lvTarget == 0 then [NoLvTarget] else [])
    + (if i.lvTarget <= i.lvNow then [TargetNotAbove] else [])
    + (if i.boost > 0 && i.mini > 0 then [BothBoosts] else [])
  }

  /** The boost choice: a mini boost count selects "mini", a boost count
      selects "full" and wins over it. */
  function BoostChoice(i: Inputs): (r: (BoostKind, int))
    ensures i.boost > 0 ==> r == (Full, i.boost)
    ensures i.boost <= 0 && i.mini > 0 ==> r == (Mini, i.mini)
    ensures i.boost <= 0 && i.mini <= 0 ==> r == (NoBoost, 0)
  {
    if i.boost > 0 then (Full, i.boost)
    else if i.mini > 0 then (Mini, i.mini)
    else (NoBoost, 0)
  }

  /** The options `onCalc` passes to the simulation. */
  function OptionsOf(i: Inputs): SimOptions {
    SimOptions(i.lvNow, i.lvTarget, i.typeKey, i.natureKey, i.progressExp, BoostChoice(i).0, BoostChoice(i).1)
  }

  /** What `onCalc` shows for the clamped inputs and the two tables. */
  function OutcomeOf(t: Tables, i: Inputs): Outcome {
    var errs := Validate(i);
    if errs != [] then InputErrors(errs)
    else match TotalNeedExp(t.exp, i.lvNow, i.lvTarget, i.typeKey)
      case Err(k) => TableMissing(k)
      case Ok(total) =>
        var tr := Simulate(t, OptionsOf(i));
        var candies := TotalCandies(tr);
        Shown(total, IntMax(0, total - i.progressExp), candies, IntMax(0, candies - i.candyOwned), Round(TotalShards(tr)))
  }

  /** What `onCalc` shows for a form and the two tables. */
  function CalcOutcome(t: Tables, f: CalcForm): Outcome {
    OutcomeOf(t, ReadInputs(f))
  }

  /** `onCalc`, step by step: read the form, then compute. */
  method OnCalc(t: Tables, f: CalcForm) returns (r: Outcome)
    ensures r == CalcOutcome(t, f)
  {
    var i := ReadInputs(f);
    r := Compute(t, i);
  }

  /** The part of `onCalc` after reading the form: validate, total EXP,
      boost choice, simulation, and the subtraction of the owned candies. */
  method Compute(t: Tables, i: Inputs) returns (r: Outcome)
    ensures r == OutcomeOf(t, i)
  {
    var errs := Validate(i);
    if |errs| > 0 {
      return InputErrors(errs);
    }
    var total := CalcTotalNeedExp(t.exp, i.lvNow, i.lvTarget, i.typeKey);
    if total.Err? {
      return TableMissing(total.error);
    }
    var remainNeedExp := IntMax(0, total.value - i.progressExp);
    var boostKind := NoBoost;
    var boostCount := 0;
    if i.mini > 0 {
      boostKind, boostCount := Mini, i.mini;
    }
    if i.boost > 0 {
      boostKind, boostCount := Full, i.boost;
    }
    assert SimOptions(i.lvNow, i.lvTarget, i.typeKey, i.natureKey, i.progressExp, boostKind, boostCount) == OptionsOf(i);
    var sim := SimulateCandiesAndShards(t, OptionsOf(i));
    var candiesNeedAfterOwned := IntMax(0, sim.candiesTotal - i.candyOwned);
    r := Shown(total.value, remainNeedExp, sim.candiesTotal, candiesNeedAfterOwned, sim.shardsTotal);
  }

  /** The two "enter a level" messages can never appear: clamping already
      puts both levels at 1 or more. */
  lemma LevelMessagesNeverShown(f: CalcForm)
    ensures NoLvNow !in Validate(ReadInputs(f)) && NoLvTarget !in Validate(ReadInputs(f))
  {
  }

  /** The error box is shown exactly when the target is not above the
      current level or both boost counts are positive (the level checks
      aside, which need a level of 0). */
  lemma InputErrorsExactly(t: Tables, i: Inputs)
    requires i.lvNow != 0 && i.lvTarget != 0
    ensures OutcomeOf(t, i).InputErrors? <==> (i.lvTarget <= i.lvNow || (i.boost > 0 && i.mini > 0))
  {
    var errs := Validate(i);
    if i.lvTarget <= i.lvNow {
      assert TargetNotAbove in errs;
    } else if i.boost > 0 && i.mini > 0 {
      assert BothBoosts in errs;
    } else {
      assert errs == [];
    }
  }

  /** Valid input ends with the result, or, when a level of the range has no
      EXP entry, with the lowest such level. */
  lemma MissingLevelStopsCalc(t: Tables, i: Inputs)
    ensures OutcomeOf(t, i).TableMissing? ==>
      (var k := OutcomeOf(t, i).level;
       i.lvNow < k <= i.lvTarget && Missing(t.exp, k) && forall j :: i.lvNow < j < k ==> !Missing(t.exp, j))
    ensures !OutcomeOf(t, i).InputErrors? ==>
      (OutcomeOf(t, i).TableMissing? <==> exists k :: i.lvNow < k <= i.lvTarget && Missing(t.exp, k))
  {
    TotalNeedExpErrors(t.exp, i.lvNow, i.lvTarget, i.typeKey);
  }

  /** The figures of the result: the EXP still needed is the total less the
      progress, and the candies still needed the total less those owned,
      neither going below 0 nor above the figure it is taken from. */
  lemma ShownFigures(t: Tables, i: Inputs)
    requires i.progressExp >= 0 && i.candyOwned >= 0
    ensures var r := OutcomeOf(t, i);
      r.Shown? ==>
        && r.remainNeedExp == IntMax(0, r.totalNeedExp - i.progressExp)
        && r.candiesAfterOwned == IntMax(0, r.candiesTotal - i.candyOwned)
        && 0 <= r.candiesAfterOwned <= r.candiesTotal
        && r.remainNeedExp >= 0
        && (r.totalNeedExp >= 0 ==> r.remainNeedExp <= r.totalNeedExp)
  {
    var r := OutcomeOf(t, i);
    if r.Shown? {
      var o := OptionsOf(i);
      TotalCandiesNonNegative(t, o, o.lvNow, IntMax(0, o.boostCount));
      assert r.candiesTotal == TotalCandies(Simulate(t, o));
    }
  }

  /** The simulation is run with the boost the form asks for: at most one
      of the two counts is positive once validation passed, and with neither
      no candy is boosted. */
  lemma ShownBoostChoice(t: Tables, i: Inputs)
    ensures OutcomeOf(t, i).Shown? ==>
      && !(i.boost > 0 && i.mini > 0)
      && (i.boost > 0 ==> OptionsOf(i).boostKind == Full && OptionsOf(i).boostCount == i.boost)
      && (i.mini > 0 ==> OptionsOf(i).boostKind == Mini && OptionsOf(i).boostCount == i.mini)
      && (i.boost <= 0 && i.mini <= 0 ==> OptionsOf(i).boostKind == NoBoost)
  {
    if OutcomeOf(t, i).Shown? {
      assert Validate(i) == [];
    }
  }
}
