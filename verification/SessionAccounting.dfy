/** The session state machine, for every target, every number of replacements and every provider:
    what its terminal state means, what it may cost, and what its record adds up to. */
module SessionAccounting {
  import opened Contracts
  import opened CallBudget
  import opened LiveAttempt
  import opened AttemptAccounting
  import opened LiveSession
  import FailClosed

  function CountContaminated(attempts: seq<Attempt>): nat {
    if attempts == [] then 0
    else CountContaminated(attempts[..|attempts| - 1]) + if attempts[|attempts| - 1].Contaminated? then 1 else 0
  }

  lemma CountsGrow(attempts: seq<Attempt>, a: Attempt)
    ensures CountValid(attempts + [a]) == CountValid(attempts) + if a.Valid? then 1 else 0
    ensures CountContaminated(attempts + [a]) == CountContaminated(attempts) + if a.Contaminated? then 1 else 0
  {
    assert (attempts + [a])[..|attempts|] == attempts;
  }

  // ----- what the terminal state means -----

  // Sessions in progress hold valid and contaminated attempts only, numbered from one.
  ghost predicate Running(attempts: seq<Attempt>) {
    forall i :: 0 <= i < |attempts| ==> (attempts[i].Valid? || attempts[i].Contaminated?) && attempts[i].index == i + 1
  }

  // The terminal state is fixed by the counts or by the last attempt alone.
  ghost predicate Explains(run: SessionRun, target: nat, replacements: nat) {
    var n := |run.attempts|;
    && 1 <= n <= target + replacements && Running(run.attempts[..n - 1]) && run.attempts[n - 1].index == n
    && CountValid(run.attempts) <= target && CountContaminated(run.attempts) == run.replacements <= replacements + 1
    && var last := run.attempts[n - 1];
    && (run.terminal.Completed? <==> CountValid(run.attempts) == target)
    && (run.terminal.Completed? <==> last.Valid?)
    && (run.terminal.OperationalFailureExhausted? <==> run.replacements == replacements + 1)
    && (run.terminal.OperationalFailureExhausted? <==> last.Contaminated?)
    && (run.terminal.CoverageViolationFound? <==> last.CoverageViolation?)
    && (run.terminal.InputIntegrityFailure? <==> last.IntegrityFailure?)
    && (run.terminal.LiveCallBudgetExhausted? <==> last.BudgetExhausted?)
  }

  lemma AttemptIndex(w: World, pre: Preflight, ceiling: nat, index: nat, m: Meter)
    ensures RunOf(w, pre, ceiling, index, m).attempt.index == index
  {
    OnlyTheLastRowIsUnclean(w, pre, ceiling, index, 0, [], m);
  }

  // A session that is still running when attempt `index` begins.
  ghost predicate InProgress(pol: Policy, index: nat, attempts: seq<Attempt>, used: nat) {
    && pol.target >= 1 && pol.maxAttempts == pol.target + pol.replacements
    && index == |attempts| + 1 && Running(attempts)
    && CountValid(attempts) < pol.target && CountContaminated(attempts) == used <= pol.replacements
    && CountValid(attempts) + used == |attempts|
  }

  lemma {:induction false} SessionFromExplains(w: World, pre: Preflight, pol: Policy, ceiling: nat, index: nat,
        attempts: seq<Attempt>, used: nat, m: Meter)
    requires InProgress(pol, index, attempts, used)
    ensures Explains(SessionFrom(w, pre, pol, ceiling, index, attempts, used, m), pol.target, pol.replacements)
    decreases pol.maxAttempts + 1 - index
  {
    hide RunOf, CountValid, CountContaminated;
    var run := RunOf(w, pre, ceiling, index, m);
    var made := attempts + [run.attempt];
    AttemptIndex(w, pre, ceiling, index, m);
    CountsGrow(attempts, run.attempt);
    assert made[..|made| - 1] == attempts;
    if run.attempt.Valid? && CountValid(made) != pol.target {
      SessionFromExplains(w, pre, pol, ceiling, index + 1, made, used, run.meter);
    } else if run.attempt.Contaminated? && used + 1 <= pol.replacements {
      SessionFromExplains(w, pre, pol, ceiling, index + 1, made, used + 1, run.meter);
    }
  }

  // For every target and every number of replacements, with one attempt slot for each: a
  // session completes exactly when the target is met, is exhausted exactly when one
  // replacement too many was needed, and otherwise ends with its last attempt. The loop
  // never runs out of attempt slots by itself.
  lemma SessionOutcome(w: World, pre: Preflight, pol: Policy, ceiling: nat, m: Meter)
    requires pol.target >= 1 && pol.maxAttempts == pol.target + pol.replacements
    ensures Explains(SessionOf(w, pre, pol, ceiling, m), pol.target, pol.replacements)
  {
    SessionFromExplains(w, pre, pol, ceiling, 1, [], 0, m);
  }

  // ----- the rows of a session -----

  function AllRows(attempts: seq<Attempt>): seq<CaseRow> {
    if attempts == [] then [] else AllRows(attempts[..|attempts| - 1]) + attempts[|attempts| - 1].cases
  }

  lemma {:induction false} SumsJoin(a: seq<CaseRow>, b: seq<CaseRow>)
    ensures ProviderCalls(a + b) == ProviderCalls(a) + ProviderCalls(b)
    ensures TriageRetries(a + b) == TriageRetries(a) + TriageRetries(b)
    ensures SynthesisRetries(a + b) == SynthesisRetries(a) + SynthesisRetries(b)
  {
    if b == [] {
      assert a + b == a;
    } else {
      assert (a + b)[..|a + b| - 1] == a + b[..|b| - 1];
      SumsJoin(a, b[..|b| - 1]);
    }
  }

  lemma MatchesJoin(after: Meter, m: Meter, start: Meter, before: seq<CaseRow>, rows: seq<CaseRow>)
    requires MatchesRows(m, start, before) && MatchesRows(after, m, rows)
    ensures MatchesRows(after, start, before + rows)
  {
    SumsJoin(before, rows);
  }

  // The cost of a session so far, bounded by six requests per case and attempt.
  ghost predicate CostOf(m: Meter, start: Meter, ceiling: nat, cases: nat, attempts: nat) {
    && Consistent(m, start) && (start.total <= ceiling ==> m.total <= ceiling)
    && m.total <= start.total + Worst(cases, attempts)
  }

  // The most requests so many attempts over so many cases can make.
  function Worst(cases: nat, attempts: nat): nat {
    MAX_CALLS_PER_CASE * cases * attempts
  }

  lemma WorstGrows(cases: nat, attempts: nat)
    ensures Worst(cases, 0) == 0
    ensures Worst(cases, attempts + 1) == Worst(cases, attempts) + MAX_CALLS_PER_CASE * cases
  {}

  lemma CostGrows(after: Meter, m: Meter, start: Meter, ceiling: nat, cases: nat, attempts: nat)
    requires CostOf(m, start, ceiling, cases, attempts) && WithinBudget(after, m, ceiling, cases)
    ensures CostOf(after, start, ceiling, cases, attempts + 1)
  {
    hide Worst;
    WorstGrows(cases, attempts);
  }

  lemma OneAttemptUsage(w: World, pre: Preflight, ceiling: nat, index: nat, m: Meter)
    ensures var r := RunOf(w, pre, ceiling, index, m);
      && WithinBudget(r.meter, m, ceiling, |pre.ids|)
      && (!r.attempt.IntegrityFailure? ==> MatchesRows(r.meter, m, r.attempt.cases))
      && (r.attempt.BudgetExhausted? ==> OutOfBudget(r, m, ceiling, |pre.ids|))
  {
    AttemptUsage(w, pre, ceiling, index, 0, [], m, m);
  }

  // What a running or ended session owes to its rows.
  ghost predicate Accounted(attempts: seq<Attempt>, m: Meter, start: Meter, ceiling: nat, cases: nat, whole: bool) {
    CostOf(m, start, ceiling, cases, |attempts|) && (whole ==> MatchesRows(m, start, AllRows(attempts)))
  }

  lemma AccountedGrows(w: World, pre: Preflight, ceiling: nat, index: nat, attempts: seq<Attempt>, m: Meter,
        start: Meter)
    requires Accounted(attempts, m, start, ceiling, |pre.ids|, true)
    ensures var run := RunOf(w, pre, ceiling, index, m);
      Accounted(attempts + [run.attempt], run.meter, start, ceiling, |pre.ids|, !run.attempt.IntegrityFailure?)
  {
    hide RunOf, MatchesRows, CostOf, WithinBudget, OutOfBudget;
    var run := RunOf(w, pre, ceiling, index, m);
    OneAttemptUsage(w, pre, ceiling, index, m);
    CostGrows(run.meter, m, start, ceiling, |pre.ids|, |attempts|);
    assert (attempts + [run.attempt])[..|attempts|] == attempts;
    if !run.attempt.IntegrityFailure? {
      MatchesJoin(run.meter, m, start, AllRows(attempts), run.attempt.cases);
    }
  }

  lemma {:induction false} SessionFromAccounted(w: World, pre: Preflight, pol: Policy, ceiling: nat, index: nat,
        attempts: seq<Attempt>, used: nat, m: Meter, start: Meter)
    requires Accounted(attempts, m, start, ceiling, |pre.ids|, true)
    ensures var run := SessionFrom(w, pre, pol, ceiling, index, attempts, used, m);
      Accounted(run.attempts, run.meter, start, ceiling, |pre.ids|, !run.terminal.InputIntegrityFailure?)
    decreases pol.maxAttempts + 1 - index
  {
    hide RunOf, Accounted, CountValid;
    if index <= pol.maxAttempts {
      var run := RunOf(w, pre, ceiling, index, m);
      var made := attempts + [run.attempt];
      AccountedGrows(w, pre, ceiling, index, attempts, m, start);
      if run.attempt.Valid? && CountValid(made) != pol.target {
        SessionFromAccounted(w, pre, pol, ceiling, index + 1, made, used, run.meter, start);
      } else if run.attempt.Contaminated? && used + 1 <= pol.replacements && index != pol.maxAttempts {
        SessionFromAccounted(w, pre, pol, ceiling, index + 1, made, used + 1, run.meter, start);
      }
    }
  }

  lemma StartIsAccounted(start: Meter, ceiling: nat, cases: nat)
    ensures Accounted([], start, start, ceiling, cases, true)
  {
    hide Worst;
    WorstGrows(cases, 0);
  }

  // What a session that began with a fresh counter may say of its cost: the ceiling held, the
  // total is the sum over the stages and the number of requests served meanwhile, and unless an
  // exception escaped the meter moved from zero by exactly what the rows record.
  ghost predicate Balanced(run: SessionRun, start: Meter, ceiling: nat) {
    && run.meter.total <= ceiling
    && run.meter.total == run.meter.served - start.served == run.meter.byStage.Sum()
    && (!run.terminal.InputIntegrityFailure? ==> MatchesRows(run.meter, start, AllRows(run.attempts)))
  }

  lemma ConsistentFromZero(m: Meter, start: Meter)
    requires Consistent(m, start) && start.total == 0 && start.byStage.Sum() == 0
    ensures m.total == m.served - start.served == m.byStage.Sum()
  {}

  lemma FreshSum(start: Meter)
    requires IsFresh(start)
    ensures start.total == 0 && start.byStage.Sum() == 0
  {}

  lemma WithinCeiling(m: Meter, start: Meter, ceiling: nat, cases: nat, attempts: nat)
    requires CostOf(m, start, ceiling, cases, attempts) && start.total == 0
    ensures m.total <= ceiling && Consistent(m, start)
  {
    hide Worst, Consistent;
  }

  lemma CostFromZero(m: Meter, start: Meter, ceiling: nat, cases: nat, attempts: nat)
    requires CostOf(m, start, ceiling, cases, attempts) && IsFresh(start)
    ensures m.total <= ceiling && m.total == m.served - start.served == m.byStage.Sum()
  {
    hide CostOf, Consistent, IsFresh;
    FreshSum(start);
    WithinCeiling(m, start, ceiling, cases, attempts);
    ConsistentFromZero(m, start);
  }

  lemma SessionAccounted(w: World, pre: Preflight, pol: Policy, ceiling: nat, start: Meter)
    ensures var run := SessionOf(w, pre, pol, ceiling, start);
      Accounted(run.attempts, run.meter, start, ceiling, |pre.ids|, !run.terminal.InputIntegrityFailure?)
  {
    hide Accounted;
    StartIsAccounted(start, ceiling, |pre.ids|);
    SessionFromAccounted(w, pre, pol, ceiling, 1, [], 0, start, start);
  }

  // Every session that begins with a fresh counter is balanced.
  lemma SessionCost(w: World, pre: Preflight, pol: Policy, ceiling: nat, start: Meter)
    requires IsFresh(start)
    ensures Balanced(SessionOf(w, pre, pol, ceiling, start), start, ceiling)
  {
    hide SessionOf, CostOf, MatchesRows, IsFresh;
    var run := SessionOf(w, pre, pol, ceiling, start);
    SessionAccounted(w, pre, pol, ceiling, start);
    CostFromZero(run.meter, start, ceiling, |pre.ids|, |run.attempts|);
  }

  // ----- on the way -----

  lemma {:induction false} AttemptTotalGrows(w: World, pre: Preflight, ceiling: nat, index: nat, pos: nat,
        rows: seq<CaseRow>, m: Meter)
    requires pos <= |pre.ids|
    ensures AttemptFrom(w, pre, ceiling, index, pos, rows, m).meter.total >= m.total
    decreases |pre.ids| - pos
  {
    hide RunCase, Classify, SystemStages, SystemKinds, ViolationReasonOf, Interventions, CanStart, RowOf;
    if pos < |pre.ids| && CanStart(ceiling, m) && w.load(index, pos).Some? {
      var loaded, escape := w.load(index, pos).value, w.escape(index, pos);
      var run := RunCase(w, pre.config, loaded.dossier, escape, m);
      CaseUsage(w, pre.config, loaded.dossier, escape, m);
      if run.result.Some? {
        AttemptTotalGrows(w, pre, ceiling, index, pos + 1,
          rows + [RowOf(pre.ids[pos], loaded.appropriateAction, run.result.value, m, run.meter)], run.meter);
      }
    }
  }

  lemma {:induction false} SessionTotalGrows(w: World, pre: Preflight, pol: Policy, ceiling: nat, index: nat,
        attempts: seq<Attempt>, used: nat, m: Meter)
    ensures SessionFrom(w, pre, pol, ceiling, index, attempts, used, m).meter.total >= m.total
    ensures index <= pol.maxAttempts
      ==> SessionFrom(w, pre, pol, ceiling, index, attempts, used, m).meter.total
          >= RunOf(w, pre, ceiling, index, m).meter.total
    decreases pol.maxAttempts + 1 - index
  {
    hide RunOf, CountValid, WithinBudget;
    if index <= pol.maxAttempts {
      var run := RunOf(w, pre, ceiling, index, m);
      var made := attempts + [run.attempt];
      RunTotalGrows(w, pre, ceiling, index, m);
      if run.attempt.Valid? && CountValid(made) != pol.target {
        SessionTotalGrows(w, pre, pol, ceiling, index + 1, made, used, run.meter);
      } else if run.attempt.Contaminated? && used + 1 <= pol.replacements && index != pol.maxAttempts {
        SessionTotalGrows(w, pre, pol, ceiling, index + 1, made, used + 1, run.meter);
      }
    }
  }

  lemma RunTotalGrows(w: World, pre: Preflight, ceiling: nat, index: nat, m: Meter)
    ensures RunOf(w, pre, ceiling, index, m).meter.total >= m.total
  {
    AttemptTotalGrows(w, pre, ceiling, index, 0, [], m);
  }

  // The total never decreases, so the ceiling holds whenever an attempt or a case begins: m is the
  // counter when attempt `index` begins, n when its case `pos` does.
  lemma CeilingAllAlong(w: World, pre: Preflight, pol: Policy, ceiling: nat, start: Meter,
        index: nat, attempts: seq<Attempt>, used: nat, m: Meter, pos: nat, rows: seq<CaseRow>, n: Meter)
    requires IsFresh(start) && index <= pol.maxAttempts && pos <= |pre.ids|
    requires SessionOf(w, pre, pol, ceiling, start) == SessionFrom(w, pre, pol, ceiling, index, attempts, used, m)
    requires RunOf(w, pre, ceiling, index, m) == AttemptFrom(w, pre, ceiling, index, pos, rows, n)
    ensures m.total <= ceiling && n.total <= ceiling
  {
    hide SessionOf, SessionFrom, RunOf, AttemptFrom, IsFresh, Balanced;
    SessionCost(w, pre, pol, ceiling, start);
    BalancedWithinCeiling(SessionOf(w, pre, pol, ceiling, start), start, ceiling);
    SessionTotalGrows(w, pre, pol, ceiling, index, attempts, used, m);
    AttemptTotalGrows(w, pre, ceiling, index, pos, rows, n);
  }

  lemma BalancedWithinCeiling(run: SessionRun, start: Meter, ceiling: nat)
    requires Balanced(run, start, ceiling)
    ensures run.meter.total <= ceiling
  {}

  // A counter as it stands after some request of a case that began at n: in the middle of the triage
  // call or at its end, or after that in the synthesis call.
  ghost predicate AfterSomeRequest(w: World, n: Meter, x: Meter) {
    || (exists i :: 1 <= i <= TriageExchange(w, n).requests && x == AfterCall(n, TriageCall, i))
    || (exists i :: 1 <= i <= SynthesisExchange(w, AfterTriage(w, n)).requests
          && x == AfterCall(AfterTriage(w, n), SynthesisCall, i))
  }

  lemma RequestsFit(w: World, n: Meter, x: Meter)
    requires AfterSomeRequest(w, n, x)
    ensures n.total < x.total <= n.total + MAX_CALLS_PER_CASE
  {
    hide Call;
    CallShape(w.triage, n.served, WRAPPER_MAX_ATTEMPTS_PER_CALL_SITE);
    CallShape(w.synthesis, AfterTriage(w, n).served, WRAPPER_MAX_ATTEMPTS_PER_CALL_SITE);
  }

  // Hence it holds after every single request of the session: a case is begun at a counter n only with
  // room for its worst case, and no request of it, in the middle of a call or between the two calls,
  // takes the total beyond the ceiling.
  lemma CeilingAfterEveryRequest(w: World, pre: Preflight, pol: Policy, ceiling: nat, start: Meter,
        index: nat, attempts: seq<Attempt>, used: nat, m: Meter, pos: nat, rows: seq<CaseRow>, n: Meter, x: Meter)
    requires IsFresh(start) && index <= pol.maxAttempts && pos < |pre.ids|
    requires SessionOf(w, pre, pol, ceiling, start) == SessionFrom(w, pre, pol, ceiling, index, attempts, used, m)
    requires RunOf(w, pre, ceiling, index, m) == AttemptFrom(w, pre, ceiling, index, pos, rows, n)
    requires CanStart(ceiling, n) && AfterSomeRequest(w, n, x)
    ensures m.total <= ceiling && n.total < x.total <= ceiling
  {
    hide SessionOf, SessionFrom, RunOf, AttemptFrom, IsFresh, AfterSomeRequest;
    CeilingAllAlong(w, pre, pol, ceiling, start, index, attempts, used, m, pos, rows, n);
    RequestsFit(w, n, x);
  }

  // ----- when the budget can run out -----

  lemma {:induction false} WorstIsMonotone(cases: nat, a: nat, b: nat)
    requires a <= b
    ensures Worst(cases, a) <= Worst(cases, b)
    decreases b
  {
    hide Worst;
    if a < b {
      WorstIsMonotone(cases, a, b - 1);
      WorstGrows(cases, b - 1);
    }
  }

  // Without a contaminated attempt, a ceiling that covers the target covers every attempt.
  lemma {:induction false} EnoughBudget(r: AttemptRun, m: Meter, start: Meter, ceiling: nat, cases: nat, valid: nat,
        target: nat)
    requires IsFresh(start) && CostOf(m, start, ceiling, cases, valid) && OutOfBudget(r, m, ceiling, cases)
    requires valid < target
    ensures ceiling < Worst(cases, target)
  {
    hide Worst, Consistent;
    WorstIsMonotone(cases, valid, target - 1);
    WorstGrows(cases, target - 1);
  }

  lemma {:induction false} BudgetNeedsContamination(w: World, pre: Preflight, pol: Policy, ceiling: nat, index: nat,
        attempts: seq<Attempt>, used: nat, m: Meter, start: Meter)
    requires InProgress(pol, index, attempts, used) && Accounted(attempts, m, start, ceiling, |pre.ids|, true)
    requires IsFresh(start) && Worst(|pre.ids|, pol.target) <= ceiling
    ensures var run := SessionFrom(w, pre, pol, ceiling, index, attempts, used, m);
      run.terminal.LiveCallBudgetExhausted? ==> CountContaminated(run.attempts) >= 1
    decreases pol.maxAttempts + 1 - index
  {
    hide RunOf, CountValid, CountContaminated, AllRows, MatchesRows, CostOf, OutOfBudget, Worst;
    var run := RunOf(w, pre, ceiling, index, m);
    var made := attempts + [run.attempt];
    AttemptIndex(w, pre, ceiling, index, m);
    CountsGrow(attempts, run.attempt);
    OneAttemptUsage(w, pre, ceiling, index, m);
    AccountedGrows(w, pre, ceiling, index, attempts, m, start);
    if run.attempt.BudgetExhausted? {
      if used == 0 {
        EnoughBudget(run, m, start, ceiling, |pre.ids|, |attempts|, pol.target);
      }
    } else if run.attempt.Valid? && CountValid(made) != pol.target {
      BudgetNeedsContamination(w, pre, pol, ceiling, index + 1, made, used, run.meter, start);
    } else if run.attempt.Contaminated? && used + 1 <= pol.replacements {
      BudgetNeedsContamination(w, pre, pol, ceiling, index + 1, made, used + 1, run.meter, start);
    }
  }

  // If the ceiling pays for the target at the worst case, only a contaminated attempt can make
  // a session run out of budget.
  lemma BudgetExhaustionIsNotClean(w: World, pre: Preflight, pol: Policy, ceiling: nat, start: Meter)
    requires IsFresh(start) && pol.target >= 1 && pol.maxAttempts == pol.target + pol.replacements
    requires Worst(|pre.ids|, pol.target) <= ceiling
    ensures var run := SessionOf(w, pre, pol, ceiling, start);
      run.terminal.LiveCallBudgetExhausted? ==> CountContaminated(run.attempts) >= 1
  {
    hide Accounted, Worst;
    StartIsAccounted(start, ceiling, |pre.ids|);
    BudgetNeedsContamination(w, pre, pol, ceiling, 1, [], 0, start, start);
  }

  // The shipped policy over thirty cases: the ceiling pays for three worst-case attempts and leaves sixty.
  lemma ShippedBudgetCoversTheTarget(w: World, pre: Preflight, start: Meter)
    requires IsFresh(start) && |pre.ids| == 30
    ensures var run := SessionOf(w, pre, SESSION_POLICY, SESSION_CALL_CEILING, start);
      run.meter.total <= 600 && Worst(30, SESSION_POLICY.target) + 60 == 600
      && (run.terminal.LiveCallBudgetExhausted? ==> CountContaminated(run.attempts) >= 1)
  {
    hide SessionOf;
    SessionCost(w, pre, SESSION_POLICY, SESSION_CALL_CEILING, start);
    BudgetExhaustionIsNotClean(w, pre, SESSION_POLICY, SESSION_CALL_CEILING, start);
  }

  // ----- every attempt of a session -----

  // What holds of each recorded attempt: no case is lost, only its last row can be unclean,
  // rows report real screenings, and a valid attempt's rate is over all frozen cases.
  ghost predicate SoundAttempt(a: Attempt, ids: seq<string>) {
    && Conserved(a, ids) && OnlyLastUnclean(a) && AllFaithful(a.cases)
    && (a.Valid? ==> a.n == |ids| == |a.cases| && a.k == Interventions(a.cases) == NonApproved(a.cases) <= a.n)
  }

  lemma AttemptIsSound(w: World, pre: Preflight, ceiling: nat, index: nat, m: Meter)
    requires FailClosed.Vetted(pre.config.registry)
    ensures SoundAttempt(RunOf(w, pre, ceiling, index, m).attempt, pre.ids)
  {
    hide AttemptFrom, Faithful, Conserved, FailClosed.Vetted;
    AttemptConserves(w, pre, ceiling, index, 0, [], m);
    OnlyTheLastRowIsUnclean(w, pre, ceiling, index, 0, [], m);
    AttemptIsFaithful(w, pre, ceiling, index, 0, [], m);
    ValidRate(w, pre, ceiling, index, 0, [], m);
    var a := RunOf(w, pre, ceiling, index, m).attempt;
    if a.Valid? {
      ValidAttemptCounts(w, pre, ceiling, index, m);
      ValidCasesAreClean(a);
      InterventionsAreNonApprovals(a.cases);
      SameLength(a, pre.ids);
    }
  }

  lemma ValidCasesAreClean(a: Attempt)
    requires a.Valid? && OnlyLastUnclean(a)
    ensures AllClean(a.cases)
  {}

  lemma SameLength(a: Attempt, ids: seq<string>)
    requires a.Valid? && Conserved(a, ids)
    ensures |a.cases| == |ids|
  {
    assert |a.cases| == |Ids(a.cases)|;
  }

  ghost predicate SoundAttempts(attempts: seq<Attempt>, ids: seq<string>) {
    forall i :: 0 <= i < |attempts| ==> SoundAttempt(attempts[i], ids)
  }

  lemma {:induction false} SessionFromSound(w: World, pre: Preflight, pol: Policy, ceiling: nat, index: nat,
        attempts: seq<Attempt>, used: nat, m: Meter)
    requires FailClosed.Vetted(pre.config.registry) && SoundAttempts(attempts, pre.ids)
    ensures SoundAttempts(SessionFrom(w, pre, pol, ceiling, index, attempts, used, m).attempts, pre.ids)
    decreases pol.maxAttempts + 1 - index
  {
    hide RunOf, SoundAttempt, CountValid, FailClosed.Vetted;
    if index <= pol.maxAttempts {
      var run := RunOf(w, pre, ceiling, index, m);
      var made := attempts + [run.attempt];
      AttemptIsSound(w, pre, ceiling, index, m);
      if run.attempt.Valid? && CountValid(made) != pol.target {
        SessionFromSound(w, pre, pol, ceiling, index + 1, made, used, run.meter);
      } else if run.attempt.Contaminated? && used + 1 <= pol.replacements && index != pol.maxAttempts {
        SessionFromSound(w, pre, pol, ceiling, index + 1, made, used + 1, run.meter);
      }
    }
  }

  // Every attempt of every session is sound, whatever the provider answers.
  lemma SessionAttemptsAreSound(w: World, pre: Preflight, pol: Policy, ceiling: nat, m: Meter)
    requires FailClosed.Vetted(pre.config.registry)
    ensures SoundAttempts(SessionOf(w, pre, pol, ceiling, m).attempts, pre.ids)
  {
    SessionFromSound(w, pre, pol, ceiling, 1, [], 0, m);
  }

  // ----- the record -----

  // The record has a distribution exactly when the session completed.
  lemma DistributionIffCompleted(w: World, pre: Preflight, pol: Policy, ceiling: nat, m: Meter)
    requires pol.target >= 1 && pol.maxAttempts == pol.target + pol.replacements
    ensures var s := Record(SessionOf(w, pre, pol, ceiling, m), pol, |pre.ids|);
      && (s.distribution.Some? <==> s.terminal.Completed?)
      && (s.terminal.Completed? ==> |s.distribution.value.orderedK| == s.validAttempts == pol.target)
  {
    hide SessionOf;
    SessionOutcome(w, pre, pol, ceiling, m);
    CountsValid(SessionOf(w, pre, pol, ceiling, m).attempts);
  }

  lemma {:induction false} CountsPartition(attempts: seq<Attempt>)
    ensures CountValid(attempts) + CountInvalid(attempts) <= |attempts|
    ensures Running(attempts)
      ==> CountValid(attempts) + CountInvalid(attempts) == |attempts|
          && CountInvalid(attempts) == CountContaminated(attempts)
  {
    if attempts != [] {
      CountsPartition(attempts[..|attempts| - 1]);
    }
  }

  // The record's counts add up: every attempt is valid, operationally invalid, or the one that
  // ended the session by a violation or an escaped exception.
  lemma RecordCountsAddUp(w: World, pre: Preflight, pol: Policy, ceiling: nat, m: Meter)
    requires pol.target >= 1 && pol.maxAttempts == pol.target + pol.replacements
    ensures var s := Record(SessionOf(w, pre, pol, ceiling, m), pol, |pre.ids|);
      && s.attemptsMade == s.validAttempts + s.invalidAttempts
         + (if s.terminal.CoverageViolationFound? || s.terminal.InputIntegrityFailure? then 1 else 0)
      && s.invalidAttempts == s.replacementsUsed + (if s.terminal.LiveCallBudgetExhausted? then 1 else 0)
      && s.cost == SessionOf(w, pre, pol, ceiling, m).meter && s.casesVerified == |pre.ids|
  {
    hide SessionOf;
    var run := SessionOf(w, pre, pol, ceiling, m);
    var n := |run.attempts|;
    SessionOutcome(w, pre, pol, ceiling, m);
    CountsValid(run.attempts);
    CountsPartition(run.attempts[..n - 1]);
    assert run.attempts == run.attempts[..n - 1] + [run.attempts[n - 1]];
    CountsGrow(run.attempts[..n - 1], run.attempts[n - 1]);
  }

  lemma {:induction false} NoneContaminated(attempts: seq<Attempt>)
    requires CountContaminated(attempts) == 0
    ensures forall i :: 0 <= i < |attempts| ==> !attempts[i].Contaminated?
  {
    if attempts != [] {
      NoneContaminated(attempts[..|attempts| - 1]);
    }
  }

  lemma {:induction false} AllValidOnes(attempts: seq<Attempt>)
    requires forall i :: 0 <= i < |attempts| ==> attempts[i].Valid?
    ensures ValidOnes(attempts) == attempts && CountInvalid(attempts) == 0
  {
    if attempts != [] {
      AllValidOnes(attempts[..|attempts| - 1]);
    }
  }

  // A session completed without replacements consists of valid attempts only.
  lemma CompletedWithoutReplacement(run: SessionRun, target: nat, replacements: nat)
    requires Explains(run, target, replacements) && run.terminal.Completed? && run.replacements == 0
    ensures forall i :: 0 <= i < |run.attempts| ==> run.attempts[i].Valid?
    ensures ValidOnes(run.attempts) == run.attempts && |run.attempts| == target
  {
    hide CountValid, CountContaminated;
    NoneContaminated(run.attempts);
    AllValid(run);
    AllValidOnes(run.attempts);
    CountsValid(run.attempts);
  }

  lemma AllValid(run: SessionRun)
    requires run.attempts != [] && Running(run.attempts[..|run.attempts| - 1])
    requires run.attempts[|run.attempts| - 1].Valid?
    requires forall i :: 0 <= i < |run.attempts| ==> !run.attempts[i].Contaminated?
    ensures forall i :: 0 <= i < |run.attempts| ==> run.attempts[i].Valid?
  {
    forall i | 0 <= i < |run.attempts| ensures run.attempts[i].Valid? {
      if i < |run.attempts| - 1 {
        assert run.attempts[..|run.attempts| - 1][i] == run.attempts[i];
      }
    }
  }
}
