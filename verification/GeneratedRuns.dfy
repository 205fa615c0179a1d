/** Generated cases, step by step: a blueprint is drawn, edited in place, rendered and screened; and
    the loop that does so for one taxonomy code. */
module GeneratedRuns {
  import opened Contracts
  import opened Guardrail
  import opened Graph
  import opened Generator
  import opened Isolation
  import opened SpellingIsolation
  import opened Metrics
  import opened GeneratedCases
  import opened Blueprints

  // ----- one case -----

  // INJECTORS and BOUNDARY: the in-place edit of a recipe.
  method InjectInPlace(bp: Blueprint, r: Recipe)
    requires Shaped(bp.Snapshot()) && Draws(r, bp.Snapshot())
    modifies bp
    ensures bp.Snapshot() == Apply(r, old(bp.Snapshot()))
  {
    hide Draws;
    match r
    case RecipeA2(alt) => ReplaceTaxId(bp, alt);
    case RecipeB1a => bp.InjectB1aInPlace();
    case RecipeB1b(older) => bp.InjectB1bInPlace(older);
    case RecipeB2a(drop) => bp.InjectB2aInPlace(drop);
    case RecipeB2b(add) => bp.InjectB2bInPlace(add);
    case RecipeC1a(_, _, _) => InjectAuthority(bp, r);
    case RecipeC1b(_, _) => InjectAuthority(bp, r);
    case RecipeC2(_) => InjectAuthority(bp, r);
    case EdgeC1a(_) => InjectAuthority(bp, r);
    case EdgeC1b(_) => InjectAuthority(bp, r);
    case EdgeC2 => InjectAuthority(bp, r);
    case _ => InjectRest(bp, r);
  }

  // The first draw already differs.
  method ReplaceTaxId(bp: Blueprint, alt: string)
    requires Shaped(bp.Snapshot()) && Draws(RecipeA2(alt), bp.Snapshot())
    modifies bp
    ensures bp.Snapshot() == Apply(RecipeA2(alt), old(bp.Snapshot()))
  {
    var found := bp.InjectA2InPlace([alt]);
    assert [alt][0] == alt;
  }

  method InjectAuthority(bp: Blueprint, r: Recipe)
    requires Shaped(bp.Snapshot())
    requires r.RecipeC1a? || r.RecipeC1b? || r.RecipeC2? || r.EdgeC1a? || r.EdgeC1b? || r.EdgeC2?
    modifies bp
    ensures bp.Snapshot() == Apply(r, old(bp.Snapshot()))
  {
    hide InjectC1a, InjectC1b, InjectC2, BoundaryC1a, BoundaryC1b, BoundaryC2;
    match r
    case RecipeC1a(beyond, before, stranger) => bp.InjectC1aInPlace(beyond, before, stranger);
    case RecipeC1b(later, stranger) => bp.InjectC1bInPlace(later, stranger);
    case RecipeC2(before) => bp.InjectC2InPlace(before);
    case EdgeC1a(stranger) => bp.BoundaryC1aInPlace(stranger);
    case EdgeC1b(stranger) => bp.BoundaryC1bInPlace(stranger);
    case EdgeC2 => bp.BoundaryC2InPlace();
  }

  method InjectRest(bp: Blueprint, r: Recipe)
    requires Shaped(bp.Snapshot())
    requires r.Untouched? || r.RecipeA1? || r.RecipeD1a? || r.RecipeD1b? || r.RecipeE1? || r.RecipeE2? || r.EdgeNone?
      || r.EdgeD1a?
    modifies bp
    ensures bp.Snapshot() == Apply(r, old(bp.Snapshot()))
  {
    hide InjectA1, InjectD1a, InjectD1b, InjectE1, InjectE2, LeadAnd;
    match r
    case Untouched =>
    case RecipeA1 => bp.InjectA1InPlace();
    case RecipeD1a(extra) => bp.InjectD1aInPlace(extra);
    case RecipeD1b(extra) => bp.InjectD1bInPlace(extra);
    case RecipeE1(which) => bp.InjectE1InPlace(which);
    case RecipeE2(blank) => bp.InjectE2InPlace(blank);
    case EdgeNone(other) => bp.LeadAndInPlace(75.1, other, 24.9);
    case EdgeD1a(other) => bp.LeadAndInPlace(75.0, other, 25.0);
  }

  // A case drawn, edited, rendered and screened with no concern raised: it is found for its label and
  // decided as labelled exactly when the drawn names do not collide, and looks clean otherwise.
  method GenerateAndScreen(ch: Choices, r: Recipe, person: (string, string) -> real, legal: (string, string) -> real,
        proposed: Decision, reasoning: string) returns (run: AgentResult)
    requires DrawnFromPools(ch) && Draws(r, CleanBase(ch))
    ensures Shaped(CleanBase(ch)) && AsLabelledIffFree(r, CleanBase(ch), Matchers(person, legal), run)
  {
    hide *;
    EveryDrawIsLabelled(ch, r, person, legal, proposed, reasoning);
    PoolsAreDrawable(ch);
    var bp := new Blueprint(ch);
    InjectInPlace(bp, r);
    var d := bp.Render();
    var state := SynthesisStep(TriageStep(RunChecks(d, Cfg(Matchers(person, legal))), Returned(TriageResult([]))),
      Returned(Available(proposed, reasoning)));
    run := Conclude(state);
    ScreenedInSteps(Apply(r, CleanBase(ch)), Matchers(person, legal), proposed, reasoning);
  }

  lemma PoolsAreDrawable(ch: Choices)
    requires DrawnFromPools(ch)
    ensures Drawable(ch)
  {}

  lemma ScreenedInSteps(p: Plan, m: EntityMap, proposed: Decision, reasoning: string)
    ensures Screened(p, m, proposed, reasoning)
      == Conclude(
        SynthesisStep(TriageStep(RunChecks(ToDossier(p), Cfg(m)), Returned(TriageResult([]))),
          Returned(Available(proposed, reasoning))))
  {
    hide ToDossier, Cfg, RunChecks, TriageStep, SynthesisStep, Conclude;
  }

  // ----- one code -----

  predicate IsBoundary(r: Recipe) {
    r.EdgeNone? || r.EdgeC1a? || r.EdgeC1b? || r.EdgeC2? || r.EdgeD1a?
  }

  // How many of n cases are boundary variants, at the standard fraction of a quarter.
  function Boundaries(code: Option<Code>, n: nat): nat {
    if code in {None, Some(C1a), Some(C1b), Some(C2), Some(D1a)} then n / 4 else 0
  }

  // What is drawn for one case.
  datatype Draw = Draw(choices: Choices, recipe: Recipe)

  // The draws for n cases of a code: each from the pools, the last ones for the boundary.
  ghost predicate DrawnFor(code: Option<Code>, draws: seq<Draw>) {
    forall i :: 0 <= i < |draws| ==>
      && DrawnFromPools(draws[i].choices) && Draws(draws[i].recipe, CleanBase(draws[i].choices))
      && Label(draws[i].recipe) == code && (IsBoundary(draws[i].recipe) <==> i >= |draws| - Boundaries(code, |draws|))
  }

  ghost predicate Collided(d: Draw, m: EntityMap)
    requires DrawnFromPools(d.choices) && Shaped(CleanBase(d.choices))
  {
    !CollisionFree(d.recipe, CleanBase(d.choices), m)
  }

  // A run of a case of this code is as labelled, or its names collided and it looks clean.
  ghost predicate RunOf(code: Option<Code>, d: Draw, m: EntityMap, run: AgentResult)
    requires DrawnFromPools(d.choices) && Shaped(CleanBase(d.choices))
  {
    if Collided(d, m) then AgentFindingCodes(run.findings) == {None} && run.decision == Approve
    else AgentFindingCodes(run.findings) == {code} && run.decision == LabelledDecision(code)
  }

  lemma LabelledRun(code: Option<Code>, d: Draw, m: EntityMap, run: AgentResult)
    requires DrawnFromPools(d.choices) && Shaped(CleanBase(d.choices)) && Label(d.recipe) == code
    requires AsLabelledIffFree(d.recipe, CleanBase(d.choices), m, run)
    ensures RunOf(code, d, m, run)
  {
    hide DrawnFromPools, Shaped, CleanBase, CollisionFree, AgentFindingCodes, Label, LabelledDecision;
  }

  lemma BasesAreShaped(ch: Choices)
    requires DrawnFromPools(ch)
    ensures Drawable(ch) && Shaped(CleanBase(ch))
  {
    hide Nameable, FromPools;
    PoolDrawsAreFromPools(ch);
    CleanBaseOfPools(ch);
  }

  lemma CleanBaseOfPools(ch: Choices)
    requires FromPools(ch)
    ensures Shaped(CleanBase(ch))
  {
    hide IsBase;
    CleanBaseIsBase(ch);
    BaseIsShaped(CleanBase(ch));
  }

  // generate_for_code, every case screened: each run carries exactly the code and its decision, or
  // comes from a colliding draw and carries nothing.
  method GenerateForCode(code: Option<Code>, draws: seq<Draw>, person: (string, string) -> real,
        legal: (string, string) -> real, proposed: Decision, reasoning: string) returns (runs: seq<AgentResult>)
    requires DrawnFor(code, draws)
    ensures |runs| == |draws|
    ensures forall i :: 0 <= i < |draws| ==>
      DrawnFromPools(draws[i].choices) && Shaped(CleanBase(draws[i].choices))
        && RunOf(code, draws[i], Matchers(person, legal), runs[i])
  {
    hide DrawnFromPools, Shaped, CleanBase, Draws, RunOf, AsLabelledIffFree, Matchers, Label, IsBoundary, Boundaries;
    runs := [];
    for i := 0 to |draws|
      invariant |runs| == i
      invariant forall k :: 0 <= k < i ==>
        DrawnFromPools(draws[k].choices) && Drawable(draws[k].choices) && Shaped(CleanBase(draws[k].choices))
        && RunOf(code, draws[k], Matchers(person, legal), runs[k])
    {
      BasesAreShaped(draws[i].choices);
      var run := GenerateAndScreen(draws[i].choices, draws[i].recipe, person, legal, proposed, reasoning);
      LabelledRun(code, draws[i], Matchers(person, legal), run);
      runs := runs + [run];
    }
  }
}
