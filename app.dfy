/** The tracker's filtering step: the table is narrowed to the selected
    companies, then to the calorie range, then to the protein range, and then
    by each dietary filter whose checkbox is ticked, in a fixed order. */
module App {
  import opened Nutrition
  import Masks
  import Filters

  /** One filter of the library together with its parameters. */
  datatype Step =
    | Company(companies: seq<string>)
    | Calories(minCalories: real, maxCalories: real)
    | Protein(minProtein: real, maxProtein: real)
    | LowCalorie
    | LowFat
    | LowSodium
    | LowCarb
    | LowFiber
    | LowSugar
    | HighProtein
    | WeightLoss

  /** The row passes the test of step `s`: the library's own test for that filter. */
  predicate Passes(s: Step, x: Record)
  {
    match s
    case Company(c) => Filters.FromCompanies(c)(x)
    case Calories(lo, hi) => Filters.CaloriesBetween(lo, hi)(x)
    case Protein(lo, hi) => Filters.ProteinBetween(lo, hi)(x)
    case LowCalorie => Filters.IsLowCalorie(x)
    case LowFat => Filters.IsLowFat(x)
    case LowSodium => Filters.IsLowSodium(x)
    case LowCarb => Filters.IsLowCarb(x)
    case LowFiber => Filters.IsLowFiber(x)
    case LowSugar => Filters.IsLowSugar(x)
    case HighProtein => Filters.IsHighProtein(x)
    case WeightLoss => Filters.IsBestForLosingWeight(x)
  }

  /** The row-wise test a step masks by. */
  function Test(s: Step): Record -> bool
  {
    x => Passes(s, x)
  }

  /** Runs the library filter a step names. */
  function Apply(s: Step, t: Table): Table
  {
    match s
      case Company(c) => Filters.FilterByCompany(t, c)
      case Calories(lo, hi) => Filters.FilterByCalories(t, lo, hi)
      case Protein(lo, hi) => Filters.FilterByProtein(t, lo, hi)
      case LowCalorie => Filters.LowCalorie(t)
      case LowFat => Filters.LowFat(t)
      case LowSodium => Filters.LowSodium(t)
      case LowCarb => Filters.LowCarb(t)
      case LowFiber => Filters.LowFiber(t)
      case LowSugar => Filters.LowSugar(t)
      case HighProtein => Filters.HighProtein(t)
      case WeightLoss => Filters.BestForLosingWeight(t)
  }

  /** Every filter of the library is a mask by its step's test. */
  lemma ApplyIsKeep(s: Step, t: Table)
    ensures Apply(s, t) == Masks.Keep(t, Test(s))
    ensures Masks.IsMaskOf(Apply(s, t), t, Test(s))
    ensures Masks.IsSubsequence(Apply(s, t), t)
  {
    Masks.KeepIsMask(t, Test(s));
    match s
    case Company(c) => Masks.KeepAgree(t, Test(s), Filters.FromCompanies(c));
    case Calories(lo, hi) => Masks.KeepAgree(t, Test(s), Filters.CaloriesBetween(lo, hi));
    case Protein(lo, hi) => Masks.KeepAgree(t, Test(s), Filters.ProteinBetween(lo, hi));
    case LowCalorie => Masks.KeepAgree(t, Test(s), Filters.IsLowCalorie);
    case LowFat => Masks.KeepAgree(t, Test(s), Filters.IsLowFat);
    case LowSodium => Masks.KeepAgree(t, Test(s), Filters.IsLowSodium);
    case LowCarb => Masks.KeepAgree(t, Test(s), Filters.IsLowCarb);
    case LowFiber => Masks.KeepAgree(t, Test(s), Filters.IsLowFiber);
    case LowSugar => Masks.KeepAgree(t, Test(s), Filters.IsLowSugar);
    case HighProtein => Masks.KeepAgree(t, Test(s), Filters.IsHighProtein);
    case WeightLoss => Masks.KeepAgree(t, Test(s), Filters.IsBestForLosingWeight);
  }

  /** Filtering twice by the same filter is filtering once. */
  lemma ApplyIdempotent(s: Step, t: Table)
    ensures Apply(s, Apply(s, t)) == Apply(s, t)
  {
    ApplyIsKeep(s, t);
    ApplyIsKeep(s, Apply(s, t));
    Masks.KeepIdempotent(t, Test(s));
  }

  /** Any two filters of the library commute. */
  lemma ApplyCommutes(s1: Step, s2: Step, t: Table)
    ensures Apply(s1, Apply(s2, t)) == Apply(s2, Apply(s1, t))
  {
    ApplyIsKeep(s1, t);
    ApplyIsKeep(s2, t);
    ApplyIsKeep(s1, Apply(s2, t));
    ApplyIsKeep(s2, Apply(s1, t));
    Masks.KeepCommutes(t, Test(s2), Test(s1));
  }

  /** The steps applied one after another, each to the previous result; each
      step masks by its test, which is what its library filter does (ApplyIsKeep). */
  function Run(steps: seq<Step>, t: Table): Table
    decreases |steps|
  {
    if steps == [] then t else Run(steps[1..], Masks.Keep(t, Test(steps[0])))
  }

  /** Each step of a run is the library filter the step names, applied to the
      previous result. */
  lemma RunApplies(steps: seq<Step>, t: Table)
    requires steps != []
    ensures Run(steps, t) == Run(steps[1..], Apply(steps[0], t))
  {
    ApplyIsKeep(steps[0], t);
  }

  /** The row passes every one of `steps`. */
  predicate PassesAll(steps: seq<Step>, x: Record)
    decreases |steps|
  {
    steps == [] || (Passes(steps[0], x) && PassesAll(steps[1..], x))
  }

  lemma {:induction false} PassesAllMembers(steps: seq<Step>, x: Record)
    ensures PassesAll(steps, x) <==> forall s :: s in steps ==> Passes(s, x)
  {
    if steps != [] {
      PassesAllMembers(steps[1..], x);
      assert steps == [steps[0]] + steps[1..];
    }
  }

  function AllOf(steps: seq<Step>): Record -> bool
  {
    x => PassesAll(steps, x)
  }

  /** Running steps one after another is masking once by their conjunction. */
  lemma {:induction false} RunIsConjunction(steps: seq<Step>, t: Table)
    ensures Run(steps, t) == Masks.Keep(t, AllOf(steps))
  {
    if steps == [] {
      Masks.KeepAll(t, AllOf(steps));
    } else {
      var s, rest := steps[0], steps[1..];
      RunIsConjunction(rest, Masks.Keep(t, Test(s)));
      Masks.KeepKeep(t, Test(s), AllOf(rest));
      Masks.KeepAgree(t, Masks.Both(Test(s), AllOf(rest)), AllOf(steps));
    }
  }

  /** The result of running filters depends only on which filters are run:
      not on their order, nor on how often each one is run. */
  lemma RunOrderIrrelevant(steps1: seq<Step>, steps2: seq<Step>, t: Table)
    requires forall s :: s in steps1 <==> s in steps2
    ensures Run(steps1, t) == Run(steps2, t)
  {
    RunIsConjunction(steps1, t);
    RunIsConjunction(steps2, t);
    forall x ensures PassesAll(steps1, x) <==> PassesAll(steps2, x) {
      PassesAllMembers(steps1, x);
      PassesAllMembers(steps2, x);
    }
    Masks.KeepAgree(t, AllOf(steps1), AllOf(steps2));
  }

  /** Running one more batch of steps continues from the previous result. */
  lemma {:induction false} RunAppend(steps: seq<Step>, more: seq<Step>, t: Table)
    ensures Run(steps + more, t) == Run(more, Run(steps, t))
  {
    if steps == [] {
      assert steps + more == more;
    } else {
      assert (steps + more)[0] == steps[0];
      assert (steps + more)[1..] == steps[1..] + more;
      RunAppend(steps[1..], more, Masks.Keep(t, Test(steps[0])));
    }
  }

  // The user's preferences and the pipeline they drive

  /** An inclusive `(min, max)` range as chosen on a slider. */
  datatype Range = Range(min: real, max: real)

  /** The sidebar settings: the selected companies, two ranges and eight checkboxes. */
  datatype Preferences = Preferences(
    companies: seq<string>,
    calories: Range,
    protein: Range,
    lowCalorie: bool,
    lowFat: bool,
    lowSodium: bool,
    lowCarb: bool,
    lowFiber: bool,
    lowSugar: bool,
    highProtein: bool,
    weightLoss: bool)

  /** `[s]` when the checkbox is ticked, nothing otherwise. */
  function When(ticked: bool, s: Step): seq<Step>
  {
    if ticked then [s] else []
  }

  /** The company filter and the two range filters, which always run. */
  function MandatorySteps(p: Preferences): seq<Step>
  {
    [Company(p.companies), Calories(p.calories.min, p.calories.max), Protein(p.protein.min, p.protein.max)]
  }

  /** The filters the pipeline runs, in the order it runs them. */
  function Steps(p: Preferences): seq<Step>
  {
    MandatorySteps(p)
      + When(p.lowCalorie, LowCalorie)
      + When(p.lowFat, LowFat)
      + When(p.lowSodium, LowSodium)
      + When(p.lowCarb, LowCarb)
      + When(p.lowFiber, LowFiber)
      + When(p.lowSugar, LowSugar)
      + When(p.highProtein, HighProtein)
      + When(p.weightLoss, WeightLoss)
  }

  /** The three tests that always apply. */
  predicate Mandatory(p: Preferences, x: Record)
  {
    && Filters.FromCompanies(p.companies)(x)
    && Filters.CaloriesBetween(p.calories.min, p.calories.max)(x)
    && Filters.ProteinBetween(p.protein.min, p.protein.max)(x)
  }

  function MandatoryTest(p: Preferences): Record -> bool
  {
    x => Mandatory(p, x)
  }

  /** What the preferences ask of a row: the mandatory tests and each ticked dietary test. */
  predicate Admits(p: Preferences, x: Record)
  {
    && Mandatory(p, x)
    && (p.lowCalorie ==> Filters.IsLowCalorie(x))
    && (p.lowFat ==> Filters.IsLowFat(x))
    && (p.lowSodium ==> Filters.IsLowSodium(x))
    && (p.lowCarb ==> Filters.IsLowCarb(x))
    && (p.lowFiber ==> Filters.IsLowFiber(x))
    && (p.lowSugar ==> Filters.IsLowSugar(x))
    && (p.highProtein ==> Filters.IsHighProtein(x))
    && (p.weightLoss ==> Filters.IsBestForLosingWeight(x))
  }

  function Admission(p: Preferences): Record -> bool
  {
    x => Admits(p, x)
  }

  /** The rows the preferences select, as one mask. */
  function Selected(p: Preferences, df: Table): Table
  {
    Masks.Keep(df, Admission(p))
  }

  /** The selection is the boolean mask of the rows the preferences admit:
      exactly those rows, in their original order. */
  lemma SelectedIsMask(p: Preferences, df: Table)
    ensures Masks.IsMaskOf(Selected(p, df), df, Admission(p))
    ensures Masks.IsSubsequence(Selected(p, df), df)
    ensures forall x :: x in Selected(p, df) <==> x in df && Admits(p, x)
  {
    Masks.KeepIsMask(df, Admission(p));
    Masks.KeepMembers(df, Admission(p));
  }

  /** The three mandatory steps ask what the mandatory tests ask. */
  lemma MandatoryStepsAdmit(p: Preferences, x: Record)
    ensures PassesAll(MandatorySteps(p), x) <==> Mandatory(p, x)
  {
    var t1 := MandatorySteps(p)[1..];
    var t2 := t1[1..];
    assert t2[1..] == [];
    assert PassesAll(t2, x) <==> Passes(t2[0], x);
    assert PassesAll(t1, x) <==> Passes(t1[0], x) && PassesAll(t2, x);
  }

  /** A step is among those run for a checkbox exactly when it is ticked and its own. */
  lemma WhenMembers(ticked: bool, t: Step, s: Step)
    ensures s in When(ticked, t) <==> ticked && s == t
  {
  }

  /** A step is run exactly when it is mandatory or its checkbox is ticked. */
  lemma StepsMembers(p: Preferences, s: Step)
    ensures s in Steps(p) <==>
      (|| s in MandatorySteps(p)
       || (p.lowCalorie && s == LowCalorie) || (p.lowFat && s == LowFat)
       || (p.lowSodium && s == LowSodium) || (p.lowCarb && s == LowCarb)
       || (p.lowFiber && s == LowFiber) || (p.lowSugar && s == LowSugar)
       || (p.highProtein && s == HighProtein) || (p.weightLoss && s == WeightLoss))
  {
    WhenMembers(p.lowCalorie, LowCalorie, s);
    WhenMembers(p.lowFat, LowFat, s);
    WhenMembers(p.lowSodium, LowSodium, s);
    WhenMembers(p.lowCarb, LowCarb, s);
    WhenMembers(p.lowFiber, LowFiber, s);
    WhenMembers(p.lowSugar, LowSugar, s);
    WhenMembers(p.highProtein, HighProtein, s);
    WhenMembers(p.weightLoss, WeightLoss, s);
  }

  /** The mandatory steps and every ticked step are among the steps run. */
  lemma StepsInclude(p: Preferences)
    ensures forall s :: s in MandatorySteps(p) ==> s in Steps(p)
    ensures p.lowCalorie ==> LowCalorie in Steps(p)
    ensures p.lowFat ==> LowFat in Steps(p)
    ensures p.lowSodium ==> LowSodium in Steps(p)
    ensures p.lowCarb ==> LowCarb in Steps(p)
    ensures p.lowFiber ==> LowFiber in Steps(p)
    ensures p.lowSugar ==> LowSugar in Steps(p)
    ensures p.highProtein ==> HighProtein in Steps(p)
    ensures p.weightLoss ==> WeightLoss in Steps(p)
  {
  }

  /** A row that passes every step the pipeline runs is admitted. */
  lemma PassingAllAdmits(p: Preferences, x: Record)
    requires PassesAll(Steps(p), x)
    ensures Admits(p, x)
  {
    PassesAllMembers(Steps(p), x);
    StepsInclude(p);
    assert Mandatory(p, x) by {
      PassesAllMembers(MandatorySteps(p), x);
      MandatoryStepsAdmit(p, x);
    }
    assert p.lowCalorie ==> Passes(LowCalorie, x);
    assert p.lowFat ==> Passes(LowFat, x);
    assert p.lowSodium ==> Passes(LowSodium, x);
    assert p.lowCarb ==> Passes(LowCarb, x);
    assert p.lowFiber ==> Passes(LowFiber, x);
    assert p.lowSugar ==> Passes(LowSugar, x);
    assert p.highProtein ==> Passes(HighProtein, x);
    assert p.weightLoss ==> Passes(WeightLoss, x);
  }

  /** An admitted row passes every step the pipeline runs. */
  lemma AdmittedPassesAll(p: Preferences, x: Record)
    requires Admits(p, x)
    ensures PassesAll(Steps(p), x)
  {
    var m := MandatorySteps(p);
    PassesAllMembers(m, x);
    MandatoryStepsAdmit(p, x);
    forall s | s in Steps(p)
      ensures Passes(s, x)
    {
      StepsMembers(p, s);
    }
    PassesAllMembers(Steps(p), x);
  }

  /** A row passes every step the pipeline runs exactly when the preferences admit it. */
  lemma StepsAdmit(p: Preferences, x: Record)
    ensures PassesAll(Steps(p), x) <==> Admits(p, x)
  {
    if PassesAll(Steps(p), x) {
      PassingAllAdmits(p, x);
    }
    if Admits(p, x) {
      AdmittedPassesAll(p, x);
    }
  }

  /** The pipeline's steps select exactly the rows the preferences admit. */
  lemma StepsSelect(p: Preferences, df: Table)
    ensures Run(Steps(p), df) == Selected(p, df)
  {
    RunIsConjunction(Steps(p), df);
    forall x ensures PassesAll(Steps(p), x) <==> Admits(p, x) {
      StepsAdmit(p, x);
    }
    Masks.KeepAgree(df, AllOf(Steps(p)), Admission(p));
  }

  /** Masking what `q` selects by `test` selects what `q'` selects, when `q'`
      asks of a row what `q` asks and, besides, `test`. */
  lemma Tighten(q: Preferences, q': Preferences, df: Table, test: Record -> bool)
    requires forall x :: Admits(q', x) <==> Admits(q, x) && test(x)
    ensures Masks.Keep(Selected(q, df), test) == Selected(q', df)
  {
    Masks.KeepKeep(df, Admission(q), test);
    Masks.KeepAgree(df, Masks.Both(Admission(q), test), Admission(q'));
  }

  /** Setting "low calories" to `ticked` runs LowCalorie on what the other
      settings select if it is ticked, and changes nothing otherwise. */
  lemma TickLowCalorie(q: Preferences, ticked: bool, df: Table)
    requires !q.lowCalorie
    ensures Selected(q.(lowCalorie := ticked), df)
         == if ticked then Filters.LowCalorie(Selected(q, df)) else Selected(q, df)
  {
    if ticked {
      Tighten(q, q.(lowCalorie := true), df, Filters.IsLowCalorie);
    } else {
      assert q.(lowCalorie := ticked) == q;
    }
  }

  /** Setting "low fat" to `ticked` runs LowFat on what the other
      settings select if it is ticked, and changes nothing otherwise. */
  lemma TickLowFat(q: Preferences, ticked: bool, df: Table)
    requires !q.lowFat
    ensures Selected(q.(lowFat := ticked), df)
         == if ticked then Filters.LowFat(Selected(q, df)) else Selected(q, df)
  {
    if ticked {
      Tighten(q, q.(lowFat := true), df, Filters.IsLowFat);
    } else {
      assert q.(lowFat := ticked) == q;
    }
  }

  /** Setting "low sodium" to `ticked` runs LowSodium on what the other
      settings select if it is ticked, and changes nothing otherwise. */
  lemma TickLowSodium(q: Preferences, ticked: bool, df: Table)
    requires !q.lowSodium
    ensures Selected(q.(lowSodium := ticked), df)
         == if ticked then Filters.LowSodium(Selected(q, df)) else Selected(q, df)
  {
    if ticked {
      Tighten(q, q.(lowSodium := true), df, Filters.IsLowSodium);
    } else {
      assert q.(lowSodium := ticked) == q;
    }
  }

  /** Setting "low carb" to `ticked` runs LowCarb on what the other
      settings select if it is ticked, and changes nothing otherwise. */
  lemma TickLowCarb(q: Preferences, ticked: bool, df: Table)
    requires !q.lowCarb
    ensures Selected(q.(lowCarb := ticked), df)
         == if ticked then Filters.LowCarb(Selected(q, df)) else Selected(q, df)
  {
    if ticked {
      Tighten(q, q.(lowCarb := true), df, Filters.IsLowCarb);
    } else {
      assert q.(lowCarb := ticked) == q;
    }
  }

  /** Setting "low fiber" to `ticked` runs LowFiber on what the other
      settings select if it is ticked, and changes nothing otherwise. */
  lemma TickLowFiber(q: Preferences, ticked: bool, df: Table)
    requires !q.lowFiber
    ensures Selected(q.(lowFiber := ticked), df)
         == if ticked then Filters.LowFiber(Selected(q, df)) else Selected(q, df)
  {
    if ticked {
      Tighten(q, q.(lowFiber := true), df, Filters.IsLowFiber);
    } else {
      assert q.(lowFiber := ticked) == q;
    }
  }

  /** Setting "low sugar" to `ticked` runs LowSugar on what the other
      settings select if it is ticked, and changes nothing otherwise. */
  lemma TickLowSugar(q: Preferences, ticked: bool, df: Table)
    requires !q.lowSugar
    ensures Selected(q.(lowSugar := ticked), df)
         == if ticked then Filters.LowSugar(Selected(q, df)) else Selected(q, df)
  {
    if ticked {
      Tighten(q, q.(lowSugar := true), df, Filters.IsLowSugar);
    } else {
      assert q.(lowSugar := ticked) == q;
    }
  }

  /** Setting "high protein" to `ticked` runs HighProtein on what the other
      settings select if it is ticked, and changes nothing otherwise. */
  lemma TickHighProtein(q: Preferences, ticked: bool, df: Table)
    requires !q.highProtein
    ensures Selected(q.(highProtein := ticked), df)
         == if ticked then Filters.HighProtein(Selected(q, df)) else Selected(q, df)
  {
    if ticked {
      Tighten(q, q.(highProtein := true), df, Filters.IsHighProtein);
    } else {
      assert q.(highProtein := ticked) == q;
    }
  }

  /** Setting "best for losing weight" to `ticked` runs BestForLosingWeight on what the other
      settings select if it is ticked, and changes nothing otherwise. */
  lemma TickWeightLoss(q: Preferences, ticked: bool, df: Table)
    requires !q.weightLoss
    ensures Selected(q.(weightLoss := ticked), df)
         == if ticked then Filters.BestForLosingWeight(Selected(q, df)) else Selected(q, df)
  {
    if ticked {
      Tighten(q, q.(weightLoss := true), df, Filters.IsBestForLosingWeight);
    } else {
      assert q.(weightLoss := ticked) == q;
    }
  }

  // The tables `filtered` holds in turn

  /** After the company filter and the two range filters. */
  function AfterRanges(df: Table, p: Preferences): Table
  {
    Filters.FilterByProtein(
      Filters.FilterByCalories(Filters.FilterByCompany(df, p.companies), p.calories.min, p.calories.max),
      p.protein.min, p.protein.max)
  }

  function AfterLowCalorie(df: Table, p: Preferences): Table
  {
    if p.lowCalorie then Filters.LowCalorie(AfterRanges(df, p)) else AfterRanges(df, p)
  }

  function AfterLowFat(df: Table, p: Preferences): Table
  {
    if p.lowFat then Filters.LowFat(AfterLowCalorie(df, p)) else AfterLowCalorie(df, p)
  }

  function AfterLowSodium(df: Table, p: Preferences): Table
  {
    if p.lowSodium then Filters.LowSodium(AfterLowFat(df, p)) else AfterLowFat(df, p)
  }

  function AfterLowCarb(df: Table, p: Preferences): Table
  {
    if p.lowCarb then Filters.LowCarb(AfterLowSodium(df, p)) else AfterLowSodium(df, p)
  }

  function AfterLowFiber(df: Table, p: Preferences): Table
  {
    if p.lowFiber then Filters.LowFiber(AfterLowCarb(df, p)) else AfterLowCarb(df, p)
  }

  function AfterLowSugar(df: Table, p: Preferences): Table
  {
    if p.lowSugar then Filters.LowSugar(AfterLowFiber(df, p)) else AfterLowFiber(df, p)
  }

  function AfterHighProtein(df: Table, p: Preferences): Table
  {
    if p.highProtein then Filters.HighProtein(AfterLowSugar(df, p)) else AfterLowSugar(df, p)
  }

  function AfterWeightLoss(df: Table, p: Preferences): Table
  {
    if p.weightLoss then Filters.BestForLosingWeight(AfterHighProtein(df, p)) else AfterHighProtein(df, p)
  }

  /** The preferences with only the first `k` checkboxes as set and the rest unticked. */
  function UpTo(p: Preferences, k: nat): Preferences
  {
    p.(lowCalorie := p.lowCalorie && 0 < k, lowFat := p.lowFat && 1 < k,
       lowSodium := p.lowSodium && 2 < k, lowCarb := p.lowCarb && 3 < k,
       lowFiber := p.lowFiber && 4 < k, lowSugar := p.lowSugar && 5 < k,
       highProtein := p.highProtein && 6 < k, weightLoss := p.weightLoss && 7 < k)
  }

  /** After the mandatory filters, `filtered` holds what the companies and ranges select. */
  lemma AfterRangesSelects(df: Table, p: Preferences)
    ensures AfterRanges(df, p) == Selected(UpTo(p, 0), df)
  {
    NoTogglesSelectsMandatory(UpTo(p, 0), df);
  }

  /** After the "low calories" check, `filtered` holds what the settings up to it select. */
  lemma AfterLowCalorieSelects(df: Table, p: Preferences)
    ensures AfterLowCalorie(df, p) == Selected(UpTo(p, 1), df)
  {
    AfterRangesSelects(df, p);
    TickLowCalorie(UpTo(p, 0), p.lowCalorie, df);
    assert UpTo(p, 0).(lowCalorie := p.lowCalorie) == UpTo(p, 1);
  }

  /** After the "low fat" check, `filtered` holds what the settings up to it select. */
  lemma AfterLowFatSelects(df: Table, p: Preferences)
    ensures AfterLowFat(df, p) == Selected(UpTo(p, 2), df)
  {
    AfterLowCalorieSelects(df, p);
    TickLowFat(UpTo(p, 1), p.lowFat, df);
    assert UpTo(p, 1).(lowFat := p.lowFat) == UpTo(p, 2);
  }

  /** After the "low sodium" check, `filtered` holds what the settings up to it select. */
  lemma AfterLowSodiumSelects(df: Table, p: Preferences)
    ensures AfterLowSodium(df, p) == Selected(UpTo(p, 3), df)
  {
    AfterLowFatSelects(df, p);
    TickLowSodium(UpTo(p, 2), p.lowSodium, df);
    assert UpTo(p, 2).(lowSodium := p.lowSodium) == UpTo(p, 3);
  }

  /** After the "low carb" check, `filtered` holds what the settings up to it select. */
  lemma AfterLowCarbSelects(df: Table, p: Preferences)
    ensures AfterLowCarb(df, p) == Selected(UpTo(p, 4), df)
  {
    AfterLowSodiumSelects(df, p);
    TickLowCarb(UpTo(p, 3), p.lowCarb, df);
    assert UpTo(p, 3).(lowCarb := p.lowCarb) == UpTo(p, 4);
  }

  /** After the "low fiber" check, `filtered` holds what the settings up to it select. */
  lemma AfterLowFiberSelects(df: Table, p: Preferences)
    ensures AfterLowFiber(df, p) == Selected(UpTo(p, 5), df)
  {
    AfterLowCarbSelects(df, p);
    TickLowFiber(UpTo(p, 4), p.lowFiber, df);
    assert UpTo(p, 4).(lowFiber := p.lowFiber) == UpTo(p, 5);
  }

  /** After the "low sugar" check, `filtered` holds what the settings up to it select. */
  lemma AfterLowSugarSelects(df: Table, p: Preferences)
    ensures AfterLowSugar(df, p) == Selected(UpTo(p, 6), df)
  {
    AfterLowFiberSelects(df, p);
    TickLowSugar(UpTo(p, 5), p.lowSugar, df);
    assert UpTo(p, 5).(lowSugar := p.lowSugar) == UpTo(p, 6);
  }

  /** After the "high protein" check, `filtered` holds what the settings up to it select. */
  lemma AfterHighProteinSelects(df: Table, p: Preferences)
    ensures AfterHighProtein(df, p) == Selected(UpTo(p, 7), df)
  {
    AfterLowSugarSelects(df, p);
    TickHighProtein(UpTo(p, 6), p.highProtein, df);
    assert UpTo(p, 6).(highProtein := p.highProtein) == UpTo(p, 7);
  }

  /** After the "best for losing weight" check, `filtered` holds what the settings up to it select. */
  lemma AfterWeightLossSelects(df: Table, p: Preferences)
    ensures AfterWeightLoss(df, p) == Selected(p, df)
  {
    assert UpTo(p, 8) == p;
    AfterHighProteinSelects(df, p);
    TickWeightLoss(UpTo(p, 7), p.weightLoss, df);
    assert UpTo(p, 7).(weightLoss := p.weightLoss) == UpTo(p, 8);
  }

  /** The filtering in the tracker's main view: `filtered` is reassigned by
      each filter in turn, the dietary ones only when their checkbox is ticked. */
  method FilterPipeline(df: Table, p: Preferences) returns (filtered: Table)
    ensures filtered == Selected(p, df)
  {
    filtered := Filters.FilterByCompany(df, p.companies);
    filtered := Filters.FilterByCalories(filtered, p.calories.min, p.calories.max);
    filtered := Filters.FilterByProtein(filtered, p.protein.min, p.protein.max);
    assert filtered == AfterRanges(df, p);

    // Dietary preferences
    if p.lowCalorie {
      filtered := Filters.LowCalorie(filtered);
    }
    assert filtered == AfterLowCalorie(df, p);
    if p.lowFat {
      filtered := Filters.LowFat(filtered);
    }
    assert filtered == AfterLowFat(df, p);
    if p.lowSodium {
      filtered := Filters.LowSodium(filtered);
    }
    assert filtered == AfterLowSodium(df, p);
    if p.lowCarb {
      filtered := Filters.LowCarb(filtered);
    }
    assert filtered == AfterLowCarb(df, p);
    if p.lowFiber {
      filtered := Filters.LowFiber(filtered);
    }
    assert filtered == AfterLowFiber(df, p);
    if p.lowSugar {
      filtered := Filters.LowSugar(filtered);
    }
    assert filtered == AfterLowSugar(df, p);
    if p.highProtein {
      filtered := Filters.HighProtein(filtered);
    }
    assert filtered == AfterHighProtein(df, p);
    if p.weightLoss {
      filtered := Filters.BestForLosingWeight(filtered);
    }
    assert filtered == AfterWeightLoss(df, p);

    AfterWeightLossSelects(df, p);
  }

  // Properties of the pipeline

  /** With every checkbox unticked, the result is the rows of the selected
      companies within both ranges, in their original order. */
  lemma NoTogglesSelectsMandatory(p: Preferences, df: Table)
    requires !p.lowCalorie && !p.lowFat && !p.lowSodium && !p.lowCarb
    requires !p.lowFiber && !p.lowSugar && !p.highProtein && !p.weightLoss
    ensures Selected(p, df) == Filters.FilterByProtein(Filters.FilterByCalories(
      Filters.FilterByCompany(df, p.companies), p.calories.min, p.calories.max), p.protein.min, p.protein.max)
    ensures Masks.IsMaskOf(Selected(p, df), df, MandatoryTest(p))
  {
    var company := Filters.FromCompanies(p.companies);
    var calories := Filters.CaloriesBetween(p.calories.min, p.calories.max);
    var protein := Filters.ProteinBetween(p.protein.min, p.protein.max);
    Masks.KeepKeep(df, company, calories);
    Masks.KeepKeep(df, Masks.Both(company, calories), protein);
    Masks.KeepAgree(df, Masks.Both(Masks.Both(company, calories), protein), Admission(p));
    Masks.KeepAgree(df, Admission(p), MandatoryTest(p));
    Masks.KeepIsMask(df, MandatoryTest(p));
  }

  /** When every row already satisfies the preferences, nothing is dropped. */
  lemma NothingToDropKeepsTable(p: Preferences, df: Table)
    requires forall x :: x in df ==> Admits(p, x)
    ensures Selected(p, df) == df
  {
    Masks.KeepAll(df, Admission(p));
  }

  /** No selected company gives an empty result, whatever else is chosen. */
  lemma NoCompaniesEmptiesPipeline(p: Preferences, df: Table)
    requires p.companies == []
    ensures Selected(p, df) == []
  {
    Masks.KeepNone(df, Admission(p));
  }

  /** The result depends only on which filters are on: running the steps the
      preferences name in any order, any number of times each, gives it. */
  lemma PipelineOrderIrrelevant(p: Preferences, steps: seq<Step>, df: Table)
    requires forall s :: s in steps <==> s in Steps(p)
    ensures Run(steps, df) == Selected(p, df)
  {
    RunOrderIrrelevant(steps, Steps(p), df);
    StepsSelect(p, df);
  }

  /** Ticking "best for losing weight" selects what ticking "low calories",
      "low carb" and "high protein" selects. */
  lemma WeightLossIsThreeToggles(p: Preferences, df: Table)
    ensures Selected(p.(weightLoss := true), df)
         == Selected(p.(weightLoss := false, lowCalorie := true, lowCarb := true, highProtein := true), df)
  {
    var q := p.(weightLoss := true);
    var q' := p.(weightLoss := false, lowCalorie := true, lowCarb := true, highProtein := true);
    Masks.KeepAgree(df, Admission(q), Admission(q'));
  }

  /** `q` asks at least what `p` asks: the same companies and ranges, and every
      checkbox ticked in `p` is ticked in `q`. */
  predicate AtLeastAsStrict(q: Preferences, p: Preferences)
  {
    && q.companies == p.companies && q.calories == p.calories && q.protein == p.protein
    && (p.lowCalorie ==> q.lowCalorie)
    && (p.lowFat ==> q.lowFat)
    && (p.lowSodium ==> q.lowSodium)
    && (p.lowCarb ==> q.lowCarb)
    && (p.lowFiber ==> q.lowFiber)
    && (p.lowSugar ==> q.lowSugar)
    && (p.highProtein ==> q.highProtein)
    && (p.weightLoss ==> q.weightLoss)
  }

  /** Ticking more checkboxes can only drop rows: the stricter result is the
      looser result filtered further. */
  lemma MoreTogglesShrink(p: Preferences, q: Preferences, df: Table)
    requires AtLeastAsStrict(q, p)
    ensures Selected(q, df) == Masks.Keep(Selected(p, df), Admission(q))
    ensures Masks.IsSubsequence(Selected(q, df), Selected(p, df))
    ensures |Selected(q, df)| <= |Selected(p, df)|
  {
    Masks.KeepStricter(df, Admission(q), Admission(p));
  }
}
