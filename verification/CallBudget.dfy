/** Request accounting and the one retry layer around the provider.

    The provider is a script: its reply to request number i, for each schema it may be asked
    for. Nothing is assumed about the replies. */
module CallBudget {
  import opened Contracts

  const WRAPPER_MAX_ATTEMPTS_PER_CALL_SITE: nat := 3
  const CALL_SITES_PER_CASE: nat := 2
  const MAX_CALLS_PER_CASE: nat := CALL_SITES_PER_CASE * WRAPPER_MAX_ATTEMPTS_PER_CALL_SITE

  datatype Stage = TriageCall | SynthesisCall

  // The system prompt a structured call carries: one of the two pinned ones, or any other.
  datatype SystemPrompt = TriageSystem | SynthesisSystem | Unpinned(text: string)

  function StageFor(system: SystemPrompt): Option<Stage> {
    match system
    case TriageSystem => Some(TriageCall)
    case SynthesisSystem => Some(SynthesisCall)
    case Unpinned(_) => None
  }

  // One number per stage.
  datatype Tally = Tally(triage: nat, synthesis: nat) {
    function Of(s: Stage): nat {
      if s.TriageCall? then triage else synthesis
    }

    function Plus(s: Stage, n: nat): Tally {
      if s.TriageCall? then this.(triage := triage + n) else this.(synthesis := synthesis + n)
    }

    function Sum(): nat {
      triage + synthesis
    }
  }

  // The value of a counter, with the number of requests the provider has served.
  datatype Meter = Meter(total: nat, byStage: Tally, retries: Tally, served: nat)

  // The value of a new counter; its provider may have served requests before.
  ghost predicate IsFresh(m: Meter) {
    && m.total == 0 && m.byStage.triage == 0 && m.byStage.synthesis == 0
    && m.retries.triage == 0 && m.retries.synthesis == 0
  }

  // ----- one logical call -----

  datatype Exchange<T> = Exchange(outcome: Outcome<T>, requests: nat)

  predicate Retryable<T>(o: Outcome<T>) {
    o.RaisedLLMError? && (o.kind == Timeout || o.kind == ProviderError)
  }

  // What a call answers and how many requests it takes, with this many attempts left.
  function Call<T>(replies: nat -> Outcome<T>, at: nat, left: nat): Exchange<T>
    requires left >= 1
    decreases left
  {
    if Retryable(replies(at)) && left > 1 then
      var rest := Call(replies, at + 1, left - 1);
      rest.(requests := rest.requests + 1)
    else Exchange(replies(at), 1)
  }

  // A call takes between one and the allowed number of requests; it answers what the last
  // one brought; every earlier one failed retryably, and so does the last only if there was
  // no attempt left.
  lemma {:induction false} CallShape<T>(replies: nat -> Outcome<T>, at: nat, left: nat)
    requires left >= 1
    ensures var x := Call(replies, at, left);
      && 1 <= x.requests <= left
      && x.outcome == replies(at + x.requests - 1)
      && (forall i :: at <= i < at + x.requests - 1 ==> Retryable(replies(i)))
      && (Retryable(x.outcome) ==> x.requests == left)
    decreases left
  {
    if Retryable(replies(at)) && left > 1 {
      CallShape(replies, at + 1, left - 1);
    }
  }

  // Timeouts and provider errors pass by themselves.
  ghost predicate Transient<T>(o: Outcome<T>) {
    o == RaisedLLMError(Timeout) || o == RaisedLLMError(ProviderError)
  }

  // A call of the wrapper takes a second request exactly after a transient failure and a third exactly
  // after two of them, and answers what its last request brought.
  lemma CallRetries<T>(replies: nat -> Outcome<T>, at: nat)
    ensures var x := Call(replies, at, WRAPPER_MAX_ATTEMPTS_PER_CALL_SITE);
      && x.requests == (if !Transient(replies(at)) then 1 else if !Transient(replies(at + 1)) then 2 else 3)
      && x.outcome == replies(at + x.requests - 1)
  {
    CallShape(replies, at, 3);
    assert Call(replies, at + 1, 2).requests == if Transient(replies(at + 1)) then 2 else 1;
  }

  // The meter after a call at a stage that took this many requests.
  function AfterCall(m: Meter, s: Stage, requests: nat): Meter
    requires requests >= 1
  {
    Meter(m.total + requests, m.byStage.Plus(s, requests), m.retries.Plus(s, requests - 1), m.served + requests)
  }

  // The meter after so many failed requests, each of them followed by a retry.
  function AfterRetries(m: Meter, s: Stage, n: nat): Meter {
    Meter(m.total + n, m.byStage.Plus(s, n), m.retries.Plus(s, n), m.served + n)
  }

  lemma RetriesAddUp(m: Meter, s: Stage, n: nat)
    ensures AfterRetries(m, s, 0) == m && AfterRetries(m, s, n).served == m.served + n
    ensures AfterCall(AfterRetries(m, s, n), s, 1) == AfterCall(m, s, n + 1)
    ensures BackedOff(AfterCall(m, s, n + 1), s) == AfterRetries(m, s, n + 1)
  {}

  function BackedOff(m: Meter, s: Stage): Meter {
    m.(retries := m.retries.Plus(s, 1))
  }

  // ----- the mutable objects -----

  function Get(counts: map<Stage, nat>, s: Stage): nat {
    if s in counts then counts[s] else 0
  }

  function TallyOf(counts: map<Stage, nat>): Tally {
    Tally(Get(counts, TriageCall), Get(counts, SynthesisCall))
  }

  class CallCounter {
    const ceiling: nat
    var total: nat
    var byStage: map<Stage, nat>
    var retriesByStage: map<Stage, nat>

    constructor (ceiling: nat)
      ensures this.ceiling == ceiling && total == 0
      ensures TallyOf(byStage) == Tally(0, 0) && TallyOf(retriesByStage) == Tally(0, 0)
    {
      this.ceiling := ceiling;
      total, byStage := 0, map[TriageCall := 0, SynthesisCall := 0];
      retriesByStage := map[TriageCall := 0, SynthesisCall := 0];
    }

    // Remaining calls may be negative in principle: nothing here stops a caller.
    function Remaining(): int
      reads this
    {
      ceiling - total
    }

    predicate CanReserve(calls: nat)
      reads this
    {
      Remaining() >= calls
    }

    method RecordCall(s: Stage)
      modifies this
      ensures total == old(total) + 1 && retriesByStage == old(retriesByStage)
      ensures TallyOf(byStage) == old(TallyOf(byStage)).Plus(s, 1)
    {
      total := total + 1;
      byStage := byStage[s := Get(byStage, s) + 1];
    }

    method RecordRetry(s: Stage)
      modifies this
      ensures total == old(total) && byStage == old(byStage)
      ensures TallyOf(retriesByStage) == old(TallyOf(retriesByStage)).Plus(s, 1)
    {
      retriesByStage := retriesByStage[s := Get(retriesByStage, s) + 1];
    }
  }

  // The provider side: it hands out replies in order and knows how many requests it saw.
  class Provider {
    var served: nat

    constructor ()
      ensures served == 0
    {
      served := 0;
    }

    method Answer<T>(replies: nat -> Outcome<T>) returns (o: Outcome<T>)
      modifies this
      ensures o == replies(old(served)) && served == old(served) + 1
    {
      o := replies(served);
      served := served + 1;
    }
  }

  class RetryingLLMClient {
    const inner: Provider
    const counter: CallCounter

    constructor (inner: Provider, counter: CallCounter)
      ensures this.inner == inner && this.counter == counter
      ensures counter.total == 0 && TallyOf(counter.byStage) == TallyOf(counter.retriesByStage) == Tally(0, 0)
        <==> IsFresh(Reading())
    {
      this.inner, this.counter := inner, counter;
    }

    function Reading(): Meter
      reads inner, counter
    {
      Meter(counter.total, TallyOf(counter.byStage), TallyOf(counter.retriesByStage), inner.served)
    }

    // One outbound request, counted before it is issued.
    method Request<T>(s: Stage, replies: nat -> Outcome<T>) returns (o: Outcome<T>)
      modifies inner, counter
      ensures o == replies(old(Reading()).served)
      ensures Reading() == AfterCall(old(Reading()), s, 1)
    {
      counter.RecordCall(s);
      o := inner.Answer(replies);
    }

    method BackOff(s: Stage)
      modifies counter
      ensures Reading() == BackedOff(old(Reading()), s)
    {
      counter.RecordRetry(s);
    }

    // complete_structured. None: a prompt of neither stage, refused before any request.
    method CompleteStructured<T>(system: SystemPrompt, replies: nat -> Outcome<T>) returns (o: Option<Outcome<T>>)
      modifies inner, counter
      ensures StageFor(system).None? ==> o.None? && Reading() == old(Reading())
      ensures StageFor(system).Some? ==>
        var x := Call(replies, old(Reading()).served, WRAPPER_MAX_ATTEMPTS_PER_CALL_SITE);
        o == Some(x.outcome) && x.requests >= 1
          && Reading() == AfterCall(old(Reading()), StageFor(system).value, x.requests)
    {
      hide TallyOf, Get, Call, AfterCall, AfterRetries, BackedOff;
      var stage := StageFor(system);
      if stage.None? {
        return None;
      }
      ghost var start := Reading();
      ghost var whole := Call(replies, start.served, WRAPPER_MAX_ATTEMPTS_PER_CALL_SITE);
      CallShape(replies, start.served, WRAPPER_MAX_ATTEMPTS_PER_CALL_SITE);
      RetriesAddUp(start, stage.value, 0);
      for attempt := 0 to WRAPPER_MAX_ATTEMPTS_PER_CALL_SITE
        invariant attempt < whole.requests
        invariant Reading() == AfterRetries(start, stage.value, attempt)
      {
        RetriesAddUp(start, stage.value, attempt);
        var reply := Request(stage.value, replies);
        if !Retryable(reply) || attempt == WRAPPER_MAX_ATTEMPTS_PER_CALL_SITE - 1 {
          return Some(reply);
        }
        BackOff(stage.value);
      }
      assert false;
    }
  }
}
