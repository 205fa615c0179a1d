/** The session loop: attempts until enough are valid, too many are contaminated, or one of
    them ends the session by itself. */
module LiveSession {
  import opened Contracts
  import opened CallBudget
  import opened LiveAttempt
  import Statistics

  datatype Policy = Policy(target: nat, replacements: nat, maxAttempts: nat)

  const SESSION_POLICY := Policy(3, 2, 5)
  const SESSION_CALL_CEILING: nat := 600

  datatype Terminal =
    | Completed | OperationalFailureExhausted | CoverageViolationFound | LiveCallBudgetExhausted | InputIntegrityFailure

  datatype SessionRun = SessionRun(attempts: seq<Attempt>, terminal: Terminal, replacements: nat, meter: Meter)

  function CountValid(attempts: seq<Attempt>): nat {
    if attempts == [] then 0
    else CountValid(attempts[..|attempts| - 1]) + if attempts[|attempts| - 1].Valid? then 1 else 0
  }

  // The rest of a session from an attempt index on.
  function SessionFrom(w: World, pre: Preflight, pol: Policy, ceiling: nat, index: nat, attempts: seq<Attempt>,
        used: nat, m: Meter): SessionRun
    decreases pol.maxAttempts + 1 - index
  {
    if index > pol.maxAttempts then SessionRun(attempts, OperationalFailureExhausted, used, m)
    else
      var run := RunOf(w, pre, ceiling, index, m);
      var made := attempts + [run.attempt];
      match run.attempt
      case CoverageViolation(_, _, _, _) => SessionRun(made, CoverageViolationFound, used, run.meter)
      case IntegrityFailure(_, _, _, _) => SessionRun(made, InputIntegrityFailure, used, run.meter)
      case BudgetExhausted(_, _, _) => SessionRun(made, LiveCallBudgetExhausted, used, run.meter)
      case Valid(_, _, _, _) =>
        if CountValid(made) == pol.target then SessionRun(made, Completed, used, run.meter)
        else SessionFrom(w, pre, pol, ceiling, index + 1, made, used, run.meter)
      case Contaminated(_, _, _, _, _, _) =>
        if used + 1 > pol.replacements || index == pol.maxAttempts then
          SessionRun(made, OperationalFailureExhausted, used + 1, run.meter)
        else SessionFrom(w, pre, pol, ceiling, index + 1, made, used + 1, run.meter)
  }

  function SessionOf(w: World, pre: Preflight, pol: Policy, ceiling: nat, m: Meter): SessionRun {
    SessionFrom(w, pre, pol, ceiling, 1, [], 0, m)
  }

  // ----- the record -----

  datatype Distribution = Distribution(orderedK: seq<nat>, n: nat, minK: nat, maxK: nat, medianK: real)

  datatype Session = Session(
    terminal: Terminal, attempts: seq<Attempt>, validAttempts: nat, invalidAttempts: nat, replacementsUsed: nat,
    attemptsMade: nat, policy: Policy, casesVerified: nat, cost: Meter, distribution: Option<Distribution>)

  function ValidOnes(attempts: seq<Attempt>): (r: seq<Attempt>)
    ensures forall i :: 0 <= i < |r| ==> r[i].Valid?
  {
    if attempts == [] then []
    else
      ValidOnes(attempts[..|attempts| - 1])
      + if attempts[|attempts| - 1].Valid? then [attempts[|attempts| - 1]] else []
  }

  predicate OperationallyInvalid(a: Attempt) {
    a.Contaminated? || a.BudgetExhausted?
  }

  function CountInvalid(attempts: seq<Attempt>): nat {
    if attempts == [] then 0
    else CountInvalid(attempts[..|attempts| - 1]) + if OperationallyInvalid(attempts[|attempts| - 1]) then 1 else 0
  }

  function Ks(valid: seq<Attempt>): seq<nat>
    requires forall i :: 0 <= i < |valid| ==> valid[i].Valid?
  {
    seq(|valid|, i requires 0 <= i < |valid| => valid[i].k)
  }

  function DistributionOf(valid: seq<Attempt>): Distribution
    requires valid != [] && forall i :: 0 <= i < |valid| ==> valid[i].Valid?
  {
    var ks := Ks(valid);
    Distribution(ks, valid[0].n, Statistics.Min(ks), Statistics.Max(ks), Statistics.Median(ks))
  }

  function Record(run: SessionRun, pol: Policy, cases: nat): Session {
    var valid := ValidOnes(run.attempts);
    Session(run.terminal, run.attempts, |valid|, CountInvalid(run.attempts), run.replacements, |run.attempts|, pol,
      cases, run.meter, if run.terminal.Completed? && valid != [] then Some(DistributionOf(valid)) else None)
  }

  lemma {:induction false} CountsValid(attempts: seq<Attempt>)
    ensures |ValidOnes(attempts)| == CountValid(attempts)
  {
    if attempts != [] {
      CountsValid(attempts[..|attempts| - 1]);
    }
  }

  // run_session
  method RunSession(w: World, pre: Preflight, pol: Policy, client: RetryingLLMClient) returns (s: Session)
    modifies client.inner, client.counter
    ensures s == Record(SessionOf(w, pre, pol, client.counter.ceiling, old(client.Reading())), pol, |pre.ids|)
    ensures s.cost == client.Reading()
  {
    hide RunOf;
    var ceiling := client.counter.ceiling;
    ghost var whole := SessionOf(w, pre, pol, ceiling, client.Reading());
    var attempts: seq<Attempt> := [];
    var valid: seq<Attempt> := [];
    var used := 0;
    var terminal := OperationalFailureExhausted;
    var index := 1;
    while index <= pol.maxAttempts
      invariant terminal == OperationalFailureExhausted && valid == ValidOnes(attempts)
      invariant whole == SessionFrom(w, pre, pol, ceiling, index, attempts, used, client.Reading())
    {
      var attempt := RunOneAttempt(index, w, pre, client);
      assert (attempts + [attempt])[..|attempts|] == attempts;
      attempts := attempts + [attempt];
      if attempt.CoverageViolation? {
        terminal := CoverageViolationFound;
        break;
      }
      if attempt.IntegrityFailure? {
        terminal := InputIntegrityFailure;
        break;
      }
      if attempt.Valid? {
        valid := valid + [attempt];
        CountsValid(attempts);
        if |valid| == pol.target {
          terminal := Completed;
          break;
        }
        index := index + 1;
        continue;
      }
      if attempt.BudgetExhausted? {
        terminal := LiveCallBudgetExhausted;
        break;
      }
      used := used + 1;
      if used > pol.replacements || index == pol.maxAttempts {
        break;
      }
      index := index + 1;
    }
    assert whole == SessionRun(attempts, terminal, used, client.Reading());
    s := Session(terminal, attempts, |valid|, CountInvalid(attempts), used, |attempts|, pol, |pre.ids|,
      client.Reading(), if terminal.Completed? && valid != [] then Some(DistributionOf(valid)) else None);
  }
}
