/**
 The agent loop: condensation before a request, one slice of model steps, stop and budget.

 The model, the tools, the user's stop and the other writers of the log are arbitrary
 (`:= *`); tool-call responses carry fresh call ids.
 */
module Runner {
  import opened Options
  import opened SessionLog
  import opened TurnBudget
  import opened Projector
  import opened SummaryChain
  import opened ContextBuilder
  import opened RunnerLog

  const MAX_CONSECUTIVE_OUTPUT_TRUNCATIONS := 3
  const MAX_PROTOCOL_FAILURES := 3
  const MAX_CONDENSER_CALLS_PER_MODEL_STEP := 4
  const MAX_SOFT_CONDENSER_CALLS_PER_MODEL_STEP := 1

  datatype Status = Completed | Stopped | BudgetWait | SliceEnd | Truncated | ContextExceeded | ModelFailed

  datatype CondenserStatus = RequestFailure | InvalidSummary(stale: bool) | ValidSummary

  datatype ModelReply =
    | Fails
    | Malformed(byLength: bool, fingerprint: (string, string), text: string, reasoning: Option<string>)
    | Answer(text: string, reasoning: Option<string>, calls: seq<Call>, truncated: bool)

  datatype CondenserReply = NoReply | Reply(finishedNormally: bool, hasToolCalls: bool, text: string)

  /**
   One build of `_prepare_context` that wants a plan: its estimate, the plan that is sent, and how
   the condenser call ended; `None` when the plan is not sent.
   */
  datatype Round = Round(estimate: nat, planId: PlanId, atoms: nat, hard: bool, outcome: Option<CondenserStatus>)

  predicate Invalid(r: Round) { r.outcome.Some? && r.outcome.value.InvalidSummary? }

  /** The condenser calls. */
  function Sent(rounds: seq<Round>): nat {
    if rounds == [] then 0 else Sent(Front(rounds)) + if Last(rounds).outcome.Some? then 1 else 0
  }

  /** The failed requests for one plan. */
  function Failures(rounds: seq<Round>, id: PlanId): nat {
    if rounds == [] then 0
    else Failures(Front(rounds), id) + if Last(rounds).planId == id && Last(rounds).outcome == Some(RequestFailure) then 1 else 0
  }

  /** The invalid completions since the last valid one. */
  function Invalids(rounds: seq<Round>): nat {
    if rounds == [] || Last(rounds).outcome == Some(ValidSummary) then 0
    else Invalids(Front(rounds)) + if Invalid(Last(rounds)) then 1 else 0
  }

  /**
   What one round makes of the next: after a valid completion the estimate falls, a failed hard
   request is tried again, after an invalid one fewer atoms are planned unless it was stale, and a soft
   plan that was not sent or did not succeed is not followed by another soft one.
   */
  predicate Leads(a: Round, b: Round) {
    && (a.outcome == Some(ValidSummary) ==> b.estimate < a.estimate)
    && (a.hard && a.outcome == Some(RequestFailure) && b.outcome.Some? ==> b.planId == a.planId)
    && (a.hard && a.outcome == Some(InvalidSummary(false)) ==> b.atoms < a.atoms)
    && (!a.hard && a.outcome != Some(ValidSummary) ==> b.hard)
  }

  ghost predicate Progresses(rounds: seq<Round>) {
    forall i | 0 <= i < |rounds| - 1 :: Leads(rounds[i], rounds[i + 1])
  }

  /** The counters of the loop agree with the rounds. */
  ghost predicate Counted(rounds: seq<Round>, calls: nat, invalids: nat, failures: map<PlanId, nat>) {
    && Progresses(rounds) && Sent(rounds) == calls && Invalids(rounds) == invalids
    && forall id :: Failures(rounds, id) == FailuresOf(failures, id)
  }

  function FailuresOf(failures: map<PlanId, nat>, id: PlanId): nat { if id in failures then failures[id] else 0 }

  /** The variables that one round of `_prepare_context` leaves to the next. */
  datatype Course = Course(
    suppressSoft: bool, planMaxAtoms: Option<int>, consecutiveInvalid: nat, requestFailures: map<PlanId, nat>,
    validBeforeEstimate: Option<nat>)

  const AT_START := Course(false, None, 0, map[], None)

  /** What these variables and the plan to retry say about the rounds so far. */
  ghost predicate Tracks(rounds: seq<Round>, calls: nat, c: Course, retry: Option<CondensationPlan>) {
    && Counted(rounds, calls, c.consecutiveInvalid, c.requestFailures)
    && (if rounds == [] then c.validBeforeEstimate == None
        else
          var last := Last(rounds);
          && c.validBeforeEstimate == (if last.outcome == Some(ValidSummary) then Some(last.estimate) else None)
          && (last.hard && last.outcome == Some(RequestFailure) ==> retry.Some? && retry.value.planId == last.planId)
          && (last.hard && last.outcome == Some(InvalidSummary(false)) ==>
                retry.None? && last.atoms > 1 && c.planMaxAtoms == Some(last.atoms - 1))
          && (!last.hard && last.outcome != Some(ValidSummary) ==> c.suppressSoft))
  }

  lemma {:induction false} NoRounds()
    ensures Tracks([], 0, AT_START, None)
  {
  }

  /** The next round of a plan that wants it follows from what the variables say. */
  lemma {:induction false} NextLeads(rounds: seq<Round>, calls: nat, c: Course, retry: Option<CondensationPlan>, b: Round)
    requires Tracks(rounds, calls, c, retry)
    requires c.validBeforeEstimate.Some? ==> b.estimate < c.validBeforeEstimate.value
    requires retry.Some? && b.outcome.Some? ==> b.planId == retry.value.planId
    requires c.suppressSoft ==> b.hard
    requires retry.None? && c.planMaxAtoms.Some? && c.planMaxAtoms.value >= 0 ==> b.atoms <= c.planMaxAtoms.value
    ensures Counted(rounds, calls, c.consecutiveInvalid, c.requestFailures)
    ensures rounds != [] ==> Leads(Last(rounds), b)
  {
    hide Counted;
  }

  lemma {:induction false} TracksCounts(rounds: seq<Round>, calls: nat, c: Course, retry: Option<CondensationPlan>)
    requires Tracks(rounds, calls, c, retry)
    ensures Counted(rounds, calls, c.consecutiveInvalid, c.requestFailures)
  {
  }

  /** A soft plan that is not sent. */
  lemma {:induction false} SkipTracks(rounds: seq<Round>, calls: nat, c: Course, retry: Option<CondensationPlan>, b: Round)
    requires Counted(rounds, calls, c.consecutiveInvalid, c.requestFailures) && (rounds != [] ==> Leads(Last(rounds), b))
    requires !b.hard && b.outcome.None?
    ensures Tracks(rounds + [b], calls, c.(suppressSoft := true, validBeforeEstimate := None), retry)
  {
    hide Counted;
    CountRound(rounds, calls, c.consecutiveInvalid, c.requestFailures, b);
  }

  lemma {:induction false} CountsStep(rounds: seq<Round>, r: Round)
    ensures Sent(rounds + [r]) == Sent(rounds) + if r.outcome.Some? then 1 else 0
    ensures Invalids(rounds + [r]) ==
            if r.outcome == Some(ValidSummary) then 0 else Invalids(rounds) + if Invalid(r) then 1 else 0
  {
    FrontLast(rounds, r);
  }

  lemma {:induction false} FailuresStep(rounds: seq<Round>, r: Round, id: PlanId)
    ensures Failures(rounds + [r], id) ==
            Failures(rounds, id) + if r.planId == id && r.outcome == Some(RequestFailure) then 1 else 0
  {
    FrontLast(rounds, r);
  }

  lemma {:induction false} ProgressStep(rounds: seq<Round>, r: Round)
    requires Progresses(rounds) && (rounds != [] ==> Leads(Last(rounds), r))
    ensures Progresses(rounds + [r])
  {
    var all := rounds + [r];
    forall i | 0 <= i < |all| - 1 ensures Leads(all[i], all[i + 1]) {
      if i < |rounds| - 1 { assert Leads(rounds[i], rounds[i + 1]); }
    }
  }

  lemma {:induction false} CountRound(rounds: seq<Round>, calls: nat, invalids: nat, failures: map<PlanId, nat>, r: Round)
    requires Counted(rounds, calls, invalids, failures) && (rounds != [] ==> Leads(Last(rounds), r))
    ensures rounds + [r] != [] && Last(rounds + [r]) == r
    ensures Counted(rounds + [r],
                    calls + (if r.outcome.Some? then 1 else 0),
                    if r.outcome == Some(ValidSummary) then 0
                    else invalids + (if r.outcome.Some? && r.outcome.value.InvalidSummary? then 1 else 0),
                    if r.outcome == Some(RequestFailure) then failures[r.planId := FailuresOf(failures, r.planId) + 1] else failures)
  {
    hide Sent, Failures, Invalids, Progresses;
    FrontLast(rounds, r);
    CountsStep(rounds, r);
    ProgressStep(rounds, r);
    forall id { FailuresStep(rounds, r, id); }
  }

  /** Condenser calls recorded in a log, all and soft ones. */
  function Attempts(es: seq<Event>): nat {
    if es == [] then 0 else Attempts(Front(es)) + if Last(es).body.CondensationAttempt? then 1 else 0
  }

  function SoftAttempts(es: seq<Event>): nat {
    if es == [] then 0
    else SoftAttempts(Front(es)) + if Last(es).body.CondensationAttempt? && !Last(es).body.hard then 1 else 0
  }

  /** What other threads append while the runner works: stops, approvals, notes. */
  predicate Foreign(b: Body) {
    b.StopRequested? || b.ApprovalRequested? || b.ApprovalDecided? || b.Note?
  }

  /** A run of side events keeps everything the runner relies on. */
  ghost predicate Aside(before: seq<Event>, after: seq<Event>, rule: SummaryRule, default: nat) {
    && GrewAside(before, after)
    && Good(after) && Planned(after, rule) && BudgetRun(after, default)
    && ScanAll(after) == ScanAll(before) && AtomsOf(after) == AtomsOf(before)
    && (NoEmptyCalls(before) ==> NoEmptyCalls(after))
    && TurnAfter(after) == TurnAfter(before) && Used(after) == Used(before) && Responses(after) == Responses(before)
    && Limit(after, default) == Limit(before, default) && Closed(after) == Closed(before)
    && ExhaustedLimits(after) == ExhaustedLimits(before)
  }

  ghost predicate Base(es: seq<Event>, rule: SummaryRule, default: nat) {
    Good(es) && Planned(es, rule) && BudgetRun(es, default)
  }

  lemma {:induction false} AsideRefl(es: seq<Event>, rule: SummaryRule, default: nat)
    requires Base(es, rule, default)
    ensures Aside(es, es, rule, default)
  {
  }

  lemma {:induction false} AsideStep(before: seq<Event>, es: seq<Event>, e: Event, rule: SummaryRule, default: nat)
    requires Aside(before, es, rule, default)
    requires Stamped(es, e) && SideEvent(e.body) && PlannedBody(es, e.body, rule)
    ensures Aside(before, es + [e], rule, default)
  {
    SideAppend(es, e, rule, default);
  }

  lemma {:induction false} AsideTwo(es: seq<Event>, e0: Event, e1: Event, rule: SummaryRule, default: nat)
    requires Base(es, rule, default)
    requires Stamped(es, e0) && SideEvent(e0.body) && !e0.body.Condensed?
    requires Stamped(es + [e0], e1) && SideEvent(e1.body) && !e1.body.Condensed?
    ensures Aside(es, es + [e0] + [e1], rule, default)
    ensures Good(es + [e0] + [e1]) && Planned(es + [e0] + [e1], rule)
  {
    AsideRefl(es, rule, default);
    AsideStep(es, es, e0, rule, default);
    AsideStep(es, es + [e0], e1, rule, default);
  }

  lemma {:induction false} AsideTrans(a: seq<Event>, b: seq<Event>, c: seq<Event>, rule: SummaryRule, default: nat)
    requires Aside(a, b, rule, default) && Aside(b, c, rule, default)
    ensures Aside(a, c, rule, default)
  {
  }

  /** Between `es[n..]` no summary was written. */
  ghost predicate NoSummarySince(es: seq<Event>, n: nat) {
    n <= |es| && forall i | n <= i < |es| :: !es[i].body.Condensed?
  }

  /** A plan, possibly re-stamped, with the log and view it was built on. */
  ghost predicate PlanStands(
    m: Measure, es: seq<Event>, n: nat, v: View, input: BuildInput, p: CondensationPlan, r: BudgetReport)
  {
    && n <= |es| && NoOpenStep(es[..n]) && NoSummarySince(es, n)
    && IsView(v, es[..n], Rule(m, input.caps)) && Indexed(v)
    && PlanMatches(m, v, input, n, p.(expectedSeq := n), r)
  }

  lemma {:induction false} PlanHasIds(
    m: Measure, es: seq<Event>, n: nat, v: View, input: BuildInput, p: CondensationPlan, r: BudgetReport)
    requires PlanStands(m, es, n, v, input, p, r)
    ensures p.sourceIds != []
  {
  }

  lemma {:induction false} PlanStillStands(
    m: Measure, es: seq<Event>, es': seq<Event>, n: nat, v: View, input: BuildInput, p: CondensationPlan, r: BudgetReport)
    requires PlanStands(m, es, n, v, input, p, r) && es <= es'
    requires forall i | |es| <= i < |es'| :: !es'[i].body.Condensed?
    ensures PlanStands(m, es', n, v, input, p, r)
  {
    assert es'[..n] == es[..n];
  }

  /**
   A written summary: the last event, accepted as the new tip, covering strictly more than the
   tip its plan was built on.
   */
  ghost predicate SummaryWritten(es: seq<Event>, v: View, p: CondensationPlan, rule: SummaryRule) {
    && es != [] && Last(es).body.Condensed?
    && var chain := ChainOf(es, AtomsOf(es), rule);
    && |es| in chain && IsTip(chain, Some(chain[|es|]))
    && |chain[|es|].covered| == Coverage(v.tip) + |p.sourceIds| > Coverage(v.tip)
  }

  lemma {:induction false} CountsAppend(es: seq<Event>, e: Event)
    ensures Attempts(es + [e]) == Attempts(es) + if e.body.CondensationAttempt? then 1 else 0
    ensures SoftAttempts(es + [e]) == SoftAttempts(es) + if e.body.CondensationAttempt? && !e.body.hard then 1 else 0
  {
    FrontLast(es, e);
  }

  lemma {:induction false} ThreeCounts(es: seq<Event>, e0: Event, e1: Event, e2: Event)
    requires e0.body.CondenserUsage? && e1.body.CondensationAttempt? && e2.body.Condensed?
    ensures Attempts(es + [e0] + [e1] + [e2]) == Attempts(es) + 1
    ensures SoftAttempts(es + [e0] + [e1] + [e2]) == SoftAttempts(es) + if e1.body.hard then 0 else 1
  {
    CountsAppend(es, e0);
    CountsAppend(es + [e0], e1);
    CountsAppend(es + [e0] + [e1], e2);
  }

  class AgentRunner {
    const store: SessionStore
    const contextManager: ContextManager
    const caps: Caps
    const maxStepsPerTurn: nat
    const maxModelStepsPerUserTurn: nat
    /** How often a cancellation was seen. */
    ghost var stops: nat

    constructor (store: SessionStore, manager: ContextManager, caps: Caps, maxSteps: nat, maxModelSteps: nat)
      ensures this.store == store && contextManager == manager && this.caps == caps
      ensures maxStepsPerTurn == maxSteps && maxModelStepsPerUserTurn == maxModelSteps
    {
      this.store := store;
      this.contextManager := manager;
      this.caps := caps;
      this.maxStepsPerTurn := maxSteps;
      this.maxModelStepsPerUserTurn := maxModelSteps;
      stops := 0;
    }

    /** `cancellation_callback` */
    method Cancelled() returns (stop: bool)
      modifies this`stops
      ensures stops == old(stops) + if stop then 1 else 0
    {
      stop :| true;
      if stop { stops := stops + 1; }
    }

    ghost function TheRule(): SummaryRule { Rule(contextManager.measure, caps) }

    /** Any number of events by other writers. */
    method OtherWriters()
      requires store.Valid() && Base(store.events, TheRule(), maxModelStepsPerUserTurn)
      modifies store
      ensures store.Valid()
      ensures Aside(old(store.events), store.events, TheRule(), maxModelStepsPerUserTurn)
      ensures Attempts(store.events) == Attempts(old(store.events))
      ensures SoftAttempts(store.events) == SoftAttempts(old(store.events))
      ensures forall i | |old(store.events)| <= i < |store.events| :: !store.events[i].body.Condensed?
    {
      hide Aside, Base, Good, Planned, BudgetRun, Written;
      ghost var before := store.events;
      AsideRefl(before, TheRule(), maxModelStepsPerUserTurn);
      var n: nat :| true;
      for i := 0 to n
        invariant store.Valid()
        invariant Aside(before, store.events, TheRule(), maxModelStepsPerUserTurn)
        invariant Attempts(store.events) == Attempts(before) && SoftAttempts(store.events) == SoftAttempts(before)
        invariant forall k | |before| <= k < |store.events| :: !store.events[k].body.Condensed?
      {
        var b: Body :| true;
        if !Foreign(b) { b := Note(""); }
        ghost var es := store.events;
        var e := store.AppendEvent(b);
        AsideStep(before, es, e, TheRule(), maxModelStepsPerUserTurn);
        CountsAppend(es, e);
      }
    }

    /** The two records of a failed attempt. */
    lemma {:induction false} FailureRecords(es: seq<Event>, hard: bool, turn: Option<nat>)
      requires Base(es, TheRule(), maxModelStepsPerUserTurn)
      ensures var bodies := [CondenserUsage, CondensationAttempt(false, hard)];
              var log := es + DerivedEvents(|es|, bodies, turn);
              && IsDerived(bodies[0]) && IsDerived(bodies[1])
              && Aside(es, log, TheRule(), maxModelStepsPerUserTurn)
              && Attempts(log) == Attempts(es) + 1
              && SoftAttempts(log) == SoftAttempts(es) + (if hard then 0 else 1)
              && forall i | |es| <= i < |log| :: !log[i].body.Condensed?
    {
      hide Aside, Base, Attempts, SoftAttempts;
      var d := DerivedEvents(|es|, [CondenserUsage, CondensationAttempt(false, hard)], turn);
      assert es + d == es + [d[0]] + [d[1]];
      AsideTwo(es, d[0], d[1], TheRule(), maxModelStepsPerUserTurn);
      CountsAppend(es, d[0]);
      CountsAppend(es + [d[0]], d[1]);
    }

    /** `_append_condensation_failure`: the records are written even when the frontier moved. */
    method AppendCondensationFailure(plan: CondensationPlan)
      requires store.Valid() && Base(store.events, TheRule(), maxModelStepsPerUserTurn)
      modifies store
      ensures store.Valid()
      ensures Aside(old(store.events), store.events, TheRule(), maxModelStepsPerUserTurn)
      ensures Attempts(store.events) == Attempts(old(store.events)) + 1
      ensures SoftAttempts(store.events) == SoftAttempts(old(store.events)) + if plan.hard then 0 else 1
      ensures forall i | |old(store.events)| <= i < |store.events| :: !store.events[i].body.Condensed?
    {
      hide *;
      ghost var es := store.events;
      var bodies := [CondenserUsage, CondensationAttempt(false, plan.hard)];
      FailureRecords(es, plan.hard, plan.turn);
      var ok := store.AppendDerivedEvents(bodies, plan.turn, Some(plan.expectedSeq));
      if !ok {
        ok := store.AppendDerivedEvents(bodies, plan.turn, None);
      }
    }

    /** A finished answer without calls whose text is not blank and not too long. */
    ghost predicate Usable(reply: CondenserReply)
      requires reply.Reply?
    {
      && reply.finishedNormally && !reply.hasToolCalls
      && Strip(reply.text) != "" && contextManager.measure.summaryTokens(Strip(reply.text)) <= caps.summaryMaxTokens
    }

    /**
     `_call_condenser`: one request to the condenser and the records of its outcome.  `frontier` is
     the size of the log when the reply is there.
     */
    method CallCondenser(plan: CondensationPlan, ghost n: nat, ghost v: View, ghost input: BuildInput, ghost r: BudgetReport)
      returns (status: CondenserStatus, ghost reply: CondenserReply, ghost frontier: nat)
      requires store.Valid() && Base(store.events, TheRule(), maxModelStepsPerUserTurn) && NoOpenStep(store.events)
      requires input.caps == caps && PlanStands(contextManager.measure, store.events, n, v, input, plan, r)
      modifies store
      ensures store.Valid()
      ensures |old(store.events)| <= frontier <= |store.events|
      ensures status == if reply.NoReply? then RequestFailure
                        else if !Usable(reply) then InvalidSummary(false)
                        else if plan.expectedSeq != frontier then InvalidSummary(true)
                        else ValidSummary
      ensures Aside(old(store.events), store.events, TheRule(), maxModelStepsPerUserTurn)
      ensures Attempts(store.events) == Attempts(old(store.events)) + 1
      ensures SoftAttempts(store.events) == SoftAttempts(old(store.events)) + if plan.hard then 0 else 1
      ensures status.ValidSummary? ==> SummaryWritten(store.events, v, plan, TheRule())
      ensures !status.ValidSummary? ==>
                forall i | |old(store.events)| <= i < |store.events| :: !store.events[i].body.Condensed?
    {
      hide PlanStands, SummaryWritten, Attempts, SoftAttempts, Strip, Good, Planned, BudgetRun, AtomsOf, ScanAll,
        Responses, Used, Limit, Closed, ExhaustedLimits, TurnAfter;
      ghost var es0 := store.events;
      ghost var d := maxModelStepsPerUserTurn;
      OtherWriters();
      ghost var es1 := store.events;
      PlanStillStands(contextManager.measure, es0, es1, n, v, input, plan, r);
      var answer: CondenserReply :| true;
      reply, frontier := answer, |es1|;
      if answer.NoReply? {
        AppendCondensationFailure(plan);
        AsideTrans(es0, es1, store.events, TheRule(), d);
        return RequestFailure, reply, frontier;
      }
      var summary := Strip(answer.text);
      StripIsStripped(answer.text);
      if !answer.finishedNormally || answer.hasToolCalls || summary == ""
         || contextManager.measure.summaryTokens(summary) > caps.summaryMaxTokens
      {
        AppendCondensationFailure(plan);
        AsideTrans(es0, es1, store.events, TheRule(), d);
        return InvalidSummary(false), reply, frontier;
      }
      var ok := RecordSummary(plan, summary, n, v, input, r);
      if !ok {
        AppendCondensationFailure(plan.(expectedSeq := store.eventSeq));
        AsideTrans(es0, es1, store.events, TheRule(), d);
        return InvalidSummary(true), reply, frontier;
      }
      AsideTrans(es0, es1, store.events, TheRule(), d);
      return ValidSummary, reply, frontier;
    }

    /** The three records of a valid summary, at the end of the log. */
    lemma {:induction false} SummaryRecords(
      es: seq<Event>, n: nat, v: View, input: BuildInput, plan: CondensationPlan, r: BudgetReport, summary: string)
      requires Base(es, TheRule(), maxModelStepsPerUserTurn) && NoOpenStep(es)
      requires input.caps == caps && PlanStands(contextManager.measure, es, n, v, input, plan, r)
      requires Strip(summary) != "" && contextManager.measure.summaryTokens(summary) <= caps.summaryMaxTokens
      ensures plan.sourceIds != []
      ensures var bodies := [CondenserUsage, CondensationAttempt(true, plan.hard),
                             Condensed(RecordFor(plan.previous, plan.sourceIds, summary))];
              var log := es + DerivedEvents(|es|, bodies, plan.turn);
              && IsDerived(bodies[0]) && IsDerived(bodies[1]) && IsDerived(bodies[2])
              && Aside(es, log, TheRule(), maxModelStepsPerUserTurn)
              && SummaryWritten(log, v, plan, TheRule())
              && Attempts(log) == Attempts(es) + 1
              && SoftAttempts(log) == SoftAttempts(es) + if plan.hard then 0 else 1
    {
      hide PlanStands, SummaryWritten, Aside, Good, Planned, BudgetRun, NoOpenStep, Attempts, SoftAttempts;
      PlanHasIds(contextManager.measure, es, n, v, input, plan, r);
      var bodies := [CondenserUsage, CondensationAttempt(true, plan.hard),
                     Condensed(RecordFor(plan.previous, plan.sourceIds, summary))];
      var w := DerivedEvents(|es|, bodies, plan.turn);
      assert es + w == es + [w[0]] + [w[1]] + [w[2]];
      UsageRecords(es, n, v, input, plan, r, w[0], w[1]);
      SummaryRecord(es, es + [w[0]] + [w[1]], n, v, input, plan, r, summary, w[2]);
      ThreeCounts(es, w[0], w[1], w[2]);
    }

    /** The success records, refused as a whole when the frontier moved since the plan was stamped. */
    method RecordSummary(
      plan: CondensationPlan, summary: string, ghost n: nat, ghost v: View, ghost input: BuildInput, ghost r: BudgetReport)
      returns (ok: bool)
      requires store.Valid() && Base(store.events, TheRule(), maxModelStepsPerUserTurn) && NoOpenStep(store.events)
      requires input.caps == caps && PlanStands(contextManager.measure, store.events, n, v, input, plan, r)
      requires Strip(summary) != "" && contextManager.measure.summaryTokens(summary) <= caps.summaryMaxTokens
      modifies store
      ensures store.Valid()
      ensures ok <==> plan.expectedSeq == |old(store.events)|
      ensures !ok ==> store.events == old(store.events)
      ensures ok ==>
                && Aside(old(store.events), store.events, TheRule(), maxModelStepsPerUserTurn)
                && SummaryWritten(store.events, v, plan, TheRule())
                && Attempts(store.events) == Attempts(old(store.events)) + 1
                && SoftAttempts(store.events) == SoftAttempts(old(store.events)) + if plan.hard then 0 else 1
    {
      hide *;
      ghost var es := store.events;
      SummaryRecords(es, n, v, input, plan, r, summary);
      var record := RecordFor(plan.previous, plan.sourceIds, summary);
      var bodies := [CondenserUsage, CondensationAttempt(true, plan.hard), Condensed(record)];
      ok := store.AppendDerivedEvents(bodies, plan.turn, Some(plan.expectedSeq));
    }

    lemma {:induction false} UsageRecords(
      es: seq<Event>, n: nat, v: View, input: BuildInput, plan: CondensationPlan, r: BudgetReport, e0: Event, e1: Event)
      requires Base(es, TheRule(), maxModelStepsPerUserTurn)
      requires PlanStands(contextManager.measure, es, n, v, input, plan, r)
      requires Stamped(es, e0) && Stamped(es + [e0], e1)
      requires SideEvent(e0.body) && SideEvent(e1.body) && !e0.body.Condensed? && !e1.body.Condensed?
      ensures Aside(es, es + [e0] + [e1], TheRule(), maxModelStepsPerUserTurn)
      ensures Good(es + [e0] + [e1]) && Planned(es + [e0] + [e1], TheRule())
      ensures PlanStands(contextManager.measure, es + [e0] + [e1], n, v, input, plan, r)
    {
      hide PlanStands;
      AsideTwo(es, e0, e1, TheRule(), maxModelStepsPerUserTurn);
      PlanStillStands(contextManager.measure, es, es + [e0] + [e1], n, v, input, plan, r);
    }

    lemma {:induction false} SummaryRecord(
      es: seq<Event>, log: seq<Event>, n: nat, v: View, input: BuildInput, plan: CondensationPlan, r: BudgetReport,
      summary: string, e: Event)
      requires Aside(es, log, TheRule(), maxModelStepsPerUserTurn) && Good(log) && Planned(log, TheRule())
      requires input.caps == caps && PlanStands(contextManager.measure, log, n, v, input, plan, r)
      requires Strip(summary) != "" && contextManager.measure.summaryTokens(summary) <= caps.summaryMaxTokens
      requires Stamped(log, e) && e.body == Condensed(RecordFor(plan.previous, plan.sourceIds, summary))
      ensures Aside(es, log + [e], TheRule(), maxModelStepsPerUserTurn)
      ensures SummaryWritten(log + [e], v, plan, TheRule())
    {
      hide PlanStands, SummaryWritten, Aside, Good, Planned, PlannedBody, Strip, RecordFor;
      SummaryAdvances(log, n, v, input, plan, r, summary, e);
      AsideStep(es, log, e, TheRule(), maxModelStepsPerUserTurn);
    }

    lemma {:induction false} SummaryAdvances(
      log: seq<Event>, n: nat, v: View, input: BuildInput, plan: CondensationPlan, r: BudgetReport, summary: string, e: Event)
      requires Good(log) && Planned(log, TheRule())
      requires input.caps == caps && PlanStands(contextManager.measure, log, n, v, input, plan, r)
      requires Strip(summary) != "" && contextManager.measure.summaryTokens(summary) <= caps.summaryMaxTokens
      requires Stamped(log, e) && e.body == Condensed(RecordFor(plan.previous, plan.sourceIds, summary))
      ensures PlannedBody(log, e.body, TheRule())
      ensures SummaryWritten(log + [e], v, plan, TheRule())
    {
      hide Good, Planned, NoOpenStep, IsView, Indexed, PlanMatches, ChainOf, AtomsOf, IsTip, Strip, RecordFor, PlannedBody;
      CondensationAdvances(contextManager.measure, log, n, v, input, plan.(expectedSeq := n), r, summary, e);
      SummaryIsPlanned(log, n, v, input, plan, r, summary, e);
      FrontLast(log, e);
    }

    lemma {:induction false} SummaryIsPlanned(
      log: seq<Event>, n: nat, v: View, input: BuildInput, plan: CondensationPlan, r: BudgetReport, summary: string, e: Event)
      requires Good(log) && Planned(log, TheRule())
      requires input.caps == caps && PlanStands(contextManager.measure, log, n, v, input, plan, r)
      requires Strip(summary) != "" && contextManager.measure.summaryTokens(summary) <= caps.summaryMaxTokens
      requires e.body == Condensed(RecordFor(plan.previous, plan.sourceIds, summary))
      ensures PlannedBody(log, e.body, TheRule())
    {
      hide Good, Planned, IsView, Indexed, PlanMatches, Strip, RecordFor, PlannedOn, NoOpenStep;
      GoodPrefix(log, n);
      PlannedPrefix(log, n, TheRule());
      TipIsUsed(v, log[..n], TheRule());
      PlanIsPlanned(contextManager.measure, log[..n], v, input, plan.(expectedSeq := n), r, summary);
    }

    /** Facts of a log that only side events were added to. */
    lemma {:induction false} AsideSettled(before: seq<Event>, after: seq<Event>)
      requires Aside(before, after, TheRule(), maxModelStepsPerUserTurn)
      requires Settled(before, TheRule(), maxModelStepsPerUserTurn)
      ensures Settled(after, TheRule(), maxModelStepsPerUserTurn)
      ensures Running(before, TheRule(), maxModelStepsPerUserTurn) ==> Running(after, TheRule(), maxModelStepsPerUserTurn)
      ensures Base(after, TheRule(), maxModelStepsPerUserTurn) && NoOpenStep(after)
    {
    }

    lemma {:induction false} BuildIsPossible(es: seq<Event>)
      requires Settled(es, TheRule(), maxModelStepsPerUserTurn)
      ensures Written(es) && Started(es) && Accepted(es) && AllClosed(AtomsOf(es))
    {
      AllClosedMeaning(es);
    }

    lemma {:induction false} FreshPlanStands(es: seq<Event>, v: View, input: BuildInput, partial: seq<Message>, r: BuildResult)
      requires NoOpenStep(es) && input.caps == caps && r.Required?
      requires IsView(v, es, TheRule()) && Indexed(v)
      requires BuildMatches(contextManager.measure, v, input, partial, |es|, r)
      ensures PlanStands(contextManager.measure, es, |es|, v, input, r.plan, r.report)
      ensures input.suppressSoft ==> r.plan.hard
      ensures |r.plan.sourceAtoms| >= 1
      ensures input.planMaxAtoms.Some? ==> |r.plan.sourceAtoms| <= Max(0, input.planMaxAtoms.value)
    {
      hide IsView, Indexed, NoOpenStep, ReportMatches, TriggersOf, IsDesiredCut, GoalsOf, LongestFit, NextRun, ContextBuilder.Request;
      assert es[..|es|] == es;
      assert r.plan.(expectedSeq := |es|) == r.plan;
    }

    /** One `build` on the current log. */
    method BuildNow(suppressSoft: bool, planMaxAtoms: Option<int>) returns (r: BuildResult, ghost v: View, ghost input: BuildInput)
      requires store.Valid() && Settled(store.events, TheRule(), maxModelStepsPerUserTurn)
      modifies contextManager
      ensures !r.Raised? && input.caps == caps && input.suppressSoft == suppressSoft
      ensures IsView(v, store.events, TheRule()) && Indexed(v)
      ensures BuildMatches(contextManager.measure, v, input, TruncationPartial(store.events, v.anchor), |store.events|, r)
      ensures r.Required? ==>
                && PlanStands(contextManager.measure, store.events, |store.events|, v, input, r.plan, r.report)
                && (suppressSoft ==> r.plan.hard) && |r.plan.sourceAtoms| >= 1
                && (planMaxAtoms.Some? && planMaxAtoms.value >= 0 ==> |r.plan.sourceAtoms| <= planMaxAtoms.value)
    {
      hide Settled, IsView, Indexed, BuildMatches, PlanStands, Planned, Good;
      var instructions: seq<Message>, transient: seq<Message> :| true;
      var actual := BuildInput(caps, instructions, transient, suppressSoft, planMaxAtoms);
      BuildIsPossible(store.events);
      r, v := contextManager.Build(store.events, actual);
      input := actual;
      if r.Required? {
        FreshPlanStands(store.events, v, input, TruncationPartial(store.events, v.anchor), r);
      }
    }

    /** Why a request is given up: it cannot fit, or the condenser calls so far did not help. */
    ghost predicate GaveUp(reason: Reason, report: BudgetReport, rounds: seq<Round>) {
      match reason
      case FixedSet => report.fixedRequestTokens >= report.usableTokens
      case CyclesExhausted => Sent(rounds) == MAX_CONDENSER_CALLS_PER_MODEL_STEP
      case NoProgress =>
        rounds != [] && Last(rounds).outcome == Some(ValidSummary) && report.estimatedTokens >= Last(rounds).estimate
      case RequestFailed =>
        && rounds != [] && Last(rounds).hard && Last(rounds).outcome == Some(RequestFailure)
        && (Failures(rounds, Last(rounds).planId) >= 2 || Sent(rounds) == MAX_CONDENSER_CALLS_PER_MODEL_STEP)
      case InvalidCompletion => rounds != [] && Last(rounds).hard && Invalid(Last(rounds)) && Invalids(rounds) >= 2
      case NoSmallerAtom => rounds != [] && Last(rounds).hard && Invalid(Last(rounds)) && Last(rounds).atoms == 1
      case _ => report.estimatedTokens > report.usableTokens
    }

    /** The log after some condenser calls of one preparation. */
    ghost predicate Along(es0: seq<Event>, es: seq<Event>, calls: nat, softCalls: int) {
      && Aside(es0, es, TheRule(), maxModelStepsPerUserTurn)
      && Attempts(es) == Attempts(es0) + calls && calls <= MAX_CONDENSER_CALLS_PER_MODEL_STEP
      && SoftAttempts(es) == SoftAttempts(es0) + softCalls && softCalls <= MAX_SOFT_CONDENSER_CALLS_PER_MODEL_STEP
    }

    lemma {:induction false} AlongStarts(es: seq<Event>)
      requires Settled(es, TheRule(), maxModelStepsPerUserTurn)
      ensures Along(es, es, 0, 0)
    {
      AsideSettledRefl(es);
    }

    lemma {:induction false} AlongKeeps(es0: seq<Event>, es1: seq<Event>, es2: seq<Event>, calls: nat, softCalls: int, hard: bool)
      requires Settled(es1, TheRule(), maxModelStepsPerUserTurn) && Along(es0, es1, calls, softCalls)
      requires Aside(es1, es2, TheRule(), maxModelStepsPerUserTurn)
      requires calls < MAX_CONDENSER_CALLS_PER_MODEL_STEP && (hard || softCalls < MAX_SOFT_CONDENSER_CALLS_PER_MODEL_STEP)
      requires Attempts(es2) == Attempts(es1) + 1 && SoftAttempts(es2) == SoftAttempts(es1) + if hard then 0 else 1
      ensures Along(es0, es2, calls + 1, if hard then softCalls else softCalls + 1)
      ensures Settled(es2, TheRule(), maxModelStepsPerUserTurn)
    {
      hide Aside, Settled, Attempts, SoftAttempts;
      AsideKeeps(es0, es1, es2);
    }

    /**
     How a preparation ends: within the bounds on condenser calls, with a request that the builder
     accepts on the log as it is, or with a reason that the rounds justify.
     */
    ghost predicate Prepared(
      es0: seq<Event>, es: seq<Event>, r: BuildResult, v: View, input: BuildInput, rounds: seq<Round>)
    {
      && Progresses(rounds) && Along(es0, es, Sent(rounds), SoftAttempts(es) - SoftAttempts(es0))
      && match r
         case Ready(_, _) =>
           && input.caps == caps && IsView(v, es, TheRule()) && Indexed(v)
           && BuildMatches(contextManager.measure, v, input, TruncationPartial(es, v.anchor), |es|, r)
         case Exceeded(report, reason) => GaveUp(reason, report, rounds)
         case _ => false
    }

    lemma {:induction false} BuildEnds(
      es0: seq<Event>, es: seq<Event>, r: BuildResult, v: View, input: BuildInput, rounds: seq<Round>,
      calls: nat, softCalls: nat, invalids: nat, failures: map<PlanId, nat>)
      requires Along(es0, es, calls, softCalls) && Counted(rounds, calls, invalids, failures)
      requires input.caps == caps && IsView(v, es, TheRule()) && Indexed(v) && (r.Ready? || r.Exceeded?)
      requires BuildMatches(contextManager.measure, v, input, TruncationPartial(es, v.anchor), |es|, r)
      ensures Prepared(es0, es, r, v, input, rounds)
    {
      hide Sent, Failures, Invalids, Desired, ReportMatches, Aside, IsView, Indexed, Attempts, SoftAttempts, Progresses,
        ContextBuilder.Request, TruncationPartial;
    }

    /** What the variables of the loop say when the next plan is not sent any more. */
    lemma {:induction false} LoopGaveUp(
      reason: Reason, report: BudgetReport, rounds: seq<Round>, calls: nat, c: Course, retry: Option<CondensationPlan>)
      requires Tracks(rounds, calls, c, retry)
      requires reason.NoProgress? || reason.CyclesExhausted?
      requires reason.NoProgress? ==> c.validBeforeEstimate.Some? && report.estimatedTokens >= c.validBeforeEstimate.value
      requires reason.CyclesExhausted? ==> calls == 4
      ensures GaveUp(reason, report, rounds) && Counted(rounds, calls, c.consecutiveInvalid, c.requestFailures)
    {
      hide Progresses, Failures, Invalids;
    }

    lemma {:induction false} Ends(
      es0: seq<Event>, es: seq<Event>, r: BuildResult, v: View, input: BuildInput, rounds: seq<Round>,
      calls: nat, softCalls: nat, invalids: nat, failures: map<PlanId, nat>)
      requires Along(es0, es, calls, softCalls) && Counted(rounds, calls, invalids, failures)
      requires r.Exceeded? && GaveUp(r.reason, r.report, rounds)
      ensures Prepared(es0, es, r, v, input, rounds)
    {
      hide Sent, Failures, Invalids, Aside, Attempts, SoftAttempts, Progresses, BuildMatches, IsView, Indexed, GaveUp;
    }

    /** What `_prepare_context` makes of the outcome of a condenser call: another round, or a reason to give up. */
    method React(c: Course, plan: CondensationPlan, status: CondenserStatus, calls: nat, report: BudgetReport, ghost rounds: seq<Round>)
      returns (next: Course, retry: bool, reason: Option<Reason>)
      requires 1 <= calls <= MAX_CONDENSER_CALLS_PER_MODEL_STEP && |plan.sourceAtoms| >= 1
      requires Counted(rounds, calls - 1, c.consecutiveInvalid, c.requestFailures)
      requires rounds != [] ==> Leads(Last(rounds), SentRound(report, plan, status))
      ensures var all := rounds + [SentRound(report, plan, status)];
              if reason.None? then Tracks(all, calls, next, if retry then Some(plan) else None)
              else GaveUp(reason.value, report, all) && Counted(all, calls, next.consecutiveInvalid, next.requestFailures)
      ensures retry ==> plan.hard && !status.ValidSummary? && reason.None?
      ensures c.suppressSoft ==> next.suppressSoft
      ensures status.ValidSummary? || (plan.hard && status == InvalidSummary(true)) ==> reason.Some? || next.planMaxAtoms.None?
    {
      hide Progresses;
      ghost var all := rounds + [SentRound(report, plan, status)];
      CountRound(rounds, calls - 1, c.consecutiveInvalid, c.requestFailures, SentRound(report, plan, status));
      next, retry, reason := c.(validBeforeEstimate := None), false, None;
      if status.ValidSummary? {
        next := next.(consecutiveInvalid := 0, planMaxAtoms := None, validBeforeEstimate := Some(report.estimatedTokens));
        return;
      }
      if status.RequestFailure? {
        var count := FailuresOf(c.requestFailures, plan.planId) + 1;
        next := next.(requestFailures := c.requestFailures[plan.planId := count]);
        if !plan.hard {
          next := next.(suppressSoft := true);
        } else if count < 2 && calls < MAX_CONDENSER_CALLS_PER_MODEL_STEP {
          retry := true;
        } else {
          reason := Some(RequestFailed);
        }
        return;
      }
      next := next.(consecutiveInvalid := c.consecutiveInvalid + 1);
      if !plan.hard {
        next := next.(suppressSoft := true);
      } else if next.consecutiveInvalid >= 2 {
        reason := Some(InvalidCompletion);
      } else if status.stale {
        next := next.(planMaxAtoms := None);
      } else if |plan.sourceAtoms| - 1 <= 0 {
        reason := Some(NoSmallerAtom);
      } else {
        next := next.(planMaxAtoms := Some(|plan.sourceAtoms| - 1));
      }
    }

    function SentRound(report: BudgetReport, plan: CondensationPlan, status: CondenserStatus): Round {
      Round(report.estimatedTokens, plan.planId, |plan.sourceAtoms|, plan.hard, Some(status))
    }

    lemma {:induction false} CondenserLimits()
      ensures MAX_CONDENSER_CALLS_PER_MODEL_STEP == 4 && MAX_SOFT_CONDENSER_CALLS_PER_MODEL_STEP == 1
    {
    }

    /**
     `_prepare_context`: condense until a request is ready, within four condenser calls of
     which at most one is soft.  `rounds` tells what happened on the way.
     */
    method PrepareContext() returns (r: BuildResult, ghost v: View, ghost input: BuildInput, ghost rounds: seq<Round>)
      requires store.Valid() && Settled(store.events, TheRule(), maxModelStepsPerUserTurn)
      modifies store, contextManager
      ensures store.Valid() && Prepared(old(store.events), store.events, r, v, input, rounds)
    {
      hide *;
      CondenserLimits();
      rounds := [];
      NoRounds();
      ghost var es0 := store.events;
      AlongStarts(es0);
      var calls, softCalls, course := 0, 0, AT_START;
      // The plan to retry, and the log it was built on.
      var retryPlan: Option<CondensationPlan> := None;
      ghost var rn: nat, rv, rinput, rr := 0, View([], None, 0, None, None, None, 0),
                                      BuildInput(caps, [], [], false, None), BudgetReport(0, 0, 0, 0, 0, 0, 0, 0, None, None, None);
      while true
        invariant store.Valid() && Settled(store.events, TheRule(), maxModelStepsPerUserTurn)
        invariant 0 <= softCalls && 0 <= calls <= MAX_CONDENSER_CALLS_PER_MODEL_STEP
        invariant Along(es0, store.events, calls, softCalls) && Tracks(rounds, calls, course, retryPlan)
        invariant retryPlan.Some? ==>
                    && retryPlan.value.hard && |retryPlan.value.sourceAtoms| >= 1 && rinput.caps == caps
                    && PlanStands(contextManager.measure, store.events, rn, rv, rinput, retryPlan.value, rr)
        decreases MAX_CONDENSER_CALLS_PER_MODEL_STEP - calls, if course.suppressSoft then 0 else 1
      {
        r, v, input := BuildNow(course.suppressSoft, course.planMaxAtoms);
        if !r.Required? {
          TracksCounts(rounds, calls, course, retryPlan);
          BuildEnds(es0, store.events, r, v, input, rounds, calls, softCalls, course.consecutiveInvalid, course.requestFailures);
          return;
        }
        if course.validBeforeEstimate.Some? && r.report.estimatedTokens >= course.validBeforeEstimate.value {
          r := Exceeded(r.report, NoProgress);
          LoopGaveUp(NoProgress, r.report, rounds, calls, course, retryPlan);
          Ends(es0, store.events, r, v, input, rounds, calls, softCalls, course.consecutiveInvalid, course.requestFailures);
          return;
        }
        if calls >= MAX_CONDENSER_CALLS_PER_MODEL_STEP {
          r := Exceeded(r.report, CyclesExhausted);
          LoopGaveUp(CyclesExhausted, r.report, rounds, calls, course, retryPlan);
          Ends(es0, store.events, r, v, input, rounds, calls, softCalls, course.consecutiveInvalid, course.requestFailures);
          return;
        }
        if !r.plan.hard && softCalls >= MAX_SOFT_CONDENSER_CALLS_PER_MODEL_STEP {
          ghost var skipped := Round(r.report.estimatedTokens, r.plan.planId, |r.plan.sourceAtoms|, false, None);
          NextLeads(rounds, calls, course, retryPlan, skipped);
          SkipTracks(rounds, calls, course, retryPlan, skipped);
          rounds := rounds + [skipped];
          course := course.(suppressSoft := true, validBeforeEstimate := None);
          continue;
        }
        ghost var n: nat, pv, pinput, pr := |store.events|, v, input, r.report;
        var plan := r.plan;
        if retryPlan.Some? {
          plan := retryPlan.value;
          n, pv, pinput, pr := rn, rv, rinput, rr;
        }
        ghost var es1 := store.events;
        calls := calls + 1;
        if !plan.hard { softCalls := softCalls + 1; }
        ghost var before, after;
        var status: CondenserStatus;
        status, before, after := CondenseOnce(plan, n, pv, pinput, pr);
        AlongKeeps(es0, es1, store.events, calls - 1, if plan.hard then softCalls else softCalls - 1, plan.hard);
        ghost var sent := Round(r.report.estimatedTokens, plan.planId, |plan.sourceAtoms|, plan.hard, Some(status));
        NextLeads(rounds, calls - 1, course, retryPlan, sent);
        SentIs(r.report, plan, status);
        var retry: bool, reason: Option<Reason>;
        course, retry, reason := React(course, plan, status, calls, r.report, rounds);
        rounds := rounds + [sent];
        if reason.Some? {
          r := Exceeded(r.report, reason.value);
          Ends(es0, store.events, r, v, input, rounds, calls, softCalls, course.consecutiveInvalid, course.requestFailures);
          return;
        }
        retryPlan := if retry then Some(plan) else None;
        rn, rv, rinput, rr := n, pv, pinput, pr;
      }
    }

    lemma {:induction false} SentIs(report: BudgetReport, plan: CondensationPlan, status: CondenserStatus)
      ensures SentRound(report, plan, status)
              == Round(report.estimatedTokens, plan.planId, |plan.sourceAtoms|, plan.hard, Some(status))
    {
    }

    /**
     One attempt: the plan is re-stamped with the current frontier, then sent.  `sent` is the size of the
     log then, and `frontier` its size when the reply is there.
     */
    method CondenseOnce(plan: CondensationPlan, ghost n: nat, ghost v: View, ghost input: BuildInput, ghost r: BudgetReport)
      returns (status: CondenserStatus, ghost sent: nat, ghost frontier: nat)
      requires store.Valid() && Settled(store.events, TheRule(), maxModelStepsPerUserTurn)
      requires input.caps == caps && PlanStands(contextManager.measure, store.events, n, v, input, plan, r)
      modifies store
      ensures store.Valid()
      ensures |old(store.events)| <= sent <= frontier
      ensures status == InvalidSummary(true) ==> sent < frontier
      ensures status.ValidSummary? ==> sent == frontier
      ensures Aside(old(store.events), store.events, TheRule(), maxModelStepsPerUserTurn)
      ensures Attempts(store.events) == Attempts(old(store.events)) + 1
      ensures SoftAttempts(store.events) == SoftAttempts(old(store.events)) + if plan.hard then 0 else 1
      ensures status.ValidSummary? ==> SummaryWritten(store.events, v, plan, TheRule())
      ensures !status.ValidSummary? ==> PlanStands(contextManager.measure, store.events, n, v, input, plan, r)
    {
      hide Aside, Settled, PlanStands, SummaryWritten, Attempts, SoftAttempts, Base, NoOpenStep;
      ghost var es1 := store.events;
      SettledIsBase(es1);
      OtherWriters();
      AsideSettledRefl(es1);
      AsideKeeps(es1, es1, store.events);
      PlanStillStandsHere(es1, n, v, input, plan, r);
      var stamped := plan;
      if plan.expectedSeq != store.eventSeq {
        stamped := Restamp(plan, n, v, input, r);
      }
      ghost var es2 := store.events;
      SettledIsBase(es2);
      sent := |es2|;
      ghost var reply;
      status, reply, frontier := CallCondenser(stamped, n, v, input, r);
      AsideKeeps(es1, es2, store.events);
      SameSummary(store.events, v, plan, stamped);
      if !status.ValidSummary? {
        PlanStillStandsHere(es2, n, v, input, plan, r);
      }
    }

    lemma {:induction false} SameSummary(es: seq<Event>, v: View, p: CondensationPlan, q: CondensationPlan)
      requires p.sourceIds == q.sourceIds
      ensures SummaryWritten(es, v, p, TheRule()) <==> SummaryWritten(es, v, q, TheRule())
    {
    }

    /** `replace(plan, expected_event_seq=...)` */
    method Restamp(plan: CondensationPlan, ghost n: nat, ghost v: View, ghost input: BuildInput, ghost r: BudgetReport)
      returns (again: CondensationPlan)
      requires store.Valid() && PlanStands(contextManager.measure, store.events, n, v, input, plan, r)
      ensures again == plan.(expectedSeq := |store.events|)
      ensures PlanStands(contextManager.measure, store.events, n, v, input, again, r)
    {
      again := plan.(expectedSeq := store.eventSeq);
      assert again.(expectedSeq := n) == plan.(expectedSeq := n);
    }

    lemma {:induction false} AsideSettledRefl(es: seq<Event>)
      requires Settled(es, TheRule(), maxModelStepsPerUserTurn)
      ensures Aside(es, es, TheRule(), maxModelStepsPerUserTurn)
    {
    }

    lemma {:induction false} SettledIsBase(es: seq<Event>)
      requires Settled(es, TheRule(), maxModelStepsPerUserTurn)
      ensures Base(es, TheRule(), maxModelStepsPerUserTurn) && NoOpenStep(es)
    {
    }

    lemma {:induction false} AsideKeeps(es0: seq<Event>, es1: seq<Event>, es2: seq<Event>)
      requires Settled(es1, TheRule(), maxModelStepsPerUserTurn)
      requires Aside(es0, es1, TheRule(), maxModelStepsPerUserTurn) && Aside(es1, es2, TheRule(), maxModelStepsPerUserTurn)
      ensures Aside(es0, es2, TheRule(), maxModelStepsPerUserTurn) && Settled(es2, TheRule(), maxModelStepsPerUserTurn)
      ensures es1 <= es2 && NoEmptyCalls(es2)
    {
      AsideTrans(es0, es1, es2, TheRule(), maxModelStepsPerUserTurn);
      AsideSettled(es1, es2);
    }

    lemma {:induction false} PlanStillStandsHere(
      es: seq<Event>, n: nat, v: View, input: BuildInput, plan: CondensationPlan, r: BudgetReport)
      requires PlanStands(contextManager.measure, es, n, v, input, plan, r) && es <= store.events
      requires forall i | |es| <= i < |store.events| :: !store.events[i].body.Condensed?
      ensures PlanStands(contextManager.measure, store.events, n, v, input, plan, r)
    {
      PlanStillStands(contextManager.measure, es, store.events, n, v, input, plan, r);
    }

    // -------------------------------------------------------------- one slice

    ghost function Default(): nat { maxModelStepsPerUserTurn }

    /** `after` continues `before` within the same turn and limit. */
    ghost predicate Continues(before: seq<Event>, after: seq<Event>) {
      && before <= after
      && TurnAfter(after) == TurnAfter(before)
      && Limit(after, Default()) == Limit(before, Default())
    }

    /** The last event tells how a slice ended. */
    ghost predicate LastTells(after: seq<Event>, status: Status) {
      after != [] &&
      match status
      case Completed => Last(after).body.AssistantMessage?
      case Stopped => Last(after).body == TurnTerminated("user_stop")
      case Truncated => Last(after).body == TurnTerminated("output_truncated")
      case ContextExceeded => Last(after).body == TurnTerminated("context_budget_exceeded")
      case SliceEnd => Last(after).body == SliceExhausted
      case _ => true
    }

    /** What a slice leaves behind, for each way it can end. */
    ghost predicate SliceResult(before: seq<Event>, after: seq<Event>, status: Status) {
      && Continues(before, after)
      && Settled(after, TheRule(), Default())
      && Responses(after) <= Responses(before) + maxStepsPerTurn
      && LastTells(after, status)
      && match status
         case SliceEnd =>
           && Running(after, TheRule(), Default())
           && Used(after) == Used(before) + maxStepsPerTurn < Limit(after, Default())
         case BudgetWait =>
           && Running(after, TheRule(), Default())
           && Used(after) == Limit(after, Default()) && Limit(after, Default()) in ExhaustedLimits(after)
         case ModelFailed => Running(after, TheRule(), Default())
         case _ => Closed(after)
    }

    lemma {:induction false} AsideOpen(before: seq<Event>, after: seq<Event>)
      requires Aside(before, after, TheRule(), Default()) && Open(before, TheRule(), Default())
      ensures Open(after, TheRule(), Default()) && Unanswered(after) == Unanswered(before) && Continues(before, after)
      ensures Used(after) == Used(before) && Responses(after) == Responses(before)
      ensures ExhaustedLimits(after) == ExhaustedLimits(before)
    {
    }

    /** Appends one event that is neither derived nor a user message. */
    method Append(b: Body)
      requires store.Valid() && !IsDerived(b)
      modifies store
      ensures store.Valid()
      ensures store.events == old(store.events) + [Stamp(old(store.events), b)]
      ensures Stamped(old(store.events), Stamp(old(store.events), b))
    {
      var e := store.AppendEvent(b);
    }

    /** `_handle_tool_call`: whatever the tool does, its call gets exactly one outcome. */
    method HandleToolCall(call: Call)
      requires store.Valid() && Open(store.events, TheRule(), Default()) && call.id in Unanswered(store.events)
      modifies store
      ensures store.Valid() && Open(store.events, TheRule(), Default()) && Continues(old(store.events), store.events)
      ensures Unanswered(store.events) == Unanswered(old(store.events)) - {call.id}
      ensures Used(store.events) == Used(old(store.events)) && Responses(store.events) == Responses(old(store.events))
      ensures IsTerminal(Last(store.events).body) && Last(store.events).body.callId == call.id
    {
      hide Aside, Open, Unanswered, Good, Planned, BudgetRun;
      ghost var es0 := store.events;
      OpenIsBase(es0);
      // The request, its approvals and the events of the tool itself.
      OtherWriters();
      ghost var es1 := store.events;
      AsideOpen(es0, es1);
      var refused: bool, content: string :| true;
      if refused {
        Append(ToolDenied(call.id, content));
      } else {
        Append(ToolResult(call.id, content));
      }
      OutcomeAppend(es1, Last(store.events), TheRule(), Default());
      FrontLast(es1, Last(store.events));
    }

    lemma {:induction false} OpenIsBase(es: seq<Event>)
      requires Open(es, TheRule(), Default())
      ensures Base(es, TheRule(), Default()) && TurnAfter(es).Some? && !Closed(es)
    {
    }

    /** `_terminate_stopped`: every call without an outcome is denied, then the turn is closed. */
    method TerminateStopped()
      requires store.Valid() && Open(store.events, TheRule(), Default())
      modifies store
      ensures store.Valid() && Settled(store.events, TheRule(), Default()) && Closed(store.events)
      ensures Continues(old(store.events), store.events)
      ensures Used(store.events) == Used(old(store.events)) && Responses(store.events) == Responses(old(store.events))
      ensures LastTells(store.events, Stopped) && OnlyDenials(old(store.events), Front(store.events))
    {
      hide Open, Settled, Good, Planned, BudgetRun, Distinct, Unanswered;
      ghost var es0 := store.events;
      OpenIsBase(es0);
      var calls, outcomes := CallsOfTurn(store.events);
      UnansweredCalls(es0);
      var i := 0;
      while i < |calls|
        invariant 0 <= i <= |calls|
        invariant store.Valid() && Open(store.events, TheRule(), Default()) && Continues(es0, store.events)
        invariant Used(store.events) == Used(es0) && Responses(store.events) == Responses(es0)
        invariant OnlyDenials(es0, store.events)
        invariant forall c :: c in Unanswered(store.events) <==> c !in outcomes && c in CallIds(calls[i..])
      {
        DropCall(calls, i);
        if calls[i].id !in outcomes {
          ghost var es := store.events;
          Append(ToolDenied(calls[i].id, "user_stop"));
          OutcomeAppend(es, Last(store.events), TheRule(), Default());
          FrontLast(es, Last(store.events));
        }
        i := i + 1;
      }
      assert Unanswered(store.events) == {};
      OpenIsBase(store.events);
      OpenIsRunning(store.events, TheRule(), Default());
      CloseTurn("user_stop");
    }

    /** All that was added are refusals by the user's stop. */
    ghost predicate OnlyDenials(before: seq<Event>, after: seq<Event>) {
      && before <= after
      && forall k | |before| <= k < |after| :: after[k].body.ToolDenied? && after[k].body.content == "user_stop"
    }

    /** The unanswered calls are those of the turn without an outcome. */
    lemma {:induction false} UnansweredCalls(es: seq<Event>)
      requires Open(es, TheRule(), Default())
      ensures Distinct(CallIds(TurnCalls(es)))
      ensures var calls := TurnCalls(es);
              forall c :: c in Unanswered(es) <==> c !in TurnOutcomes(es) && c in CallIds(calls[0..])
    {
      TurnFacts(es);
      assert TurnCalls(es)[0..] == TurnCalls(es);
    }

    lemma {:induction false} DropCall(calls: seq<Call>, i: nat)
      requires i < |calls| && Distinct(CallIds(calls))
      ensures calls[i].id !in CallIds(calls[i + 1..])
      ensures forall c :: c in CallIds(calls[i..]) <==> c == calls[i].id || c in CallIds(calls[i + 1..])
    {
      var ids := CallIds(calls);
      assert CallIds(calls[i..]) == ids[i..] && CallIds(calls[i + 1..]) == ids[i + 1..];
      assert ids[i..] == [ids[i]] + ids[i + 1..];
    }

    method CloseTurn(reason: string)
      requires store.Valid() && Settled(store.events, TheRule(), Default()) && !Closed(store.events)
      modifies store
      ensures store.Valid() && Settled(store.events, TheRule(), Default()) && Closed(store.events)
      ensures Continues(old(store.events), store.events)
      ensures Used(store.events) == Used(old(store.events)) && Responses(store.events) == Responses(old(store.events))
      ensures store.events == old(store.events) + [Stamp(old(store.events), TurnTerminated(reason))]
    {
      hide Settled, Good, Planned, BudgetRun;
      ghost var es := store.events;
      Append(TurnTerminated(reason));
      BoundaryAppend(es, Last(store.events), TheRule(), Default());
      FrontLast(es, Last(store.events));
    }

    /** `_wait_for_budget`: the limit is reported once, and the turn stays open. */
    method WaitForBudget()
      requires store.Valid() && Running(store.events, TheRule(), Default())
      requires Used(store.events) == Limit(store.events, Default())
      modifies store
      ensures store.Valid() && Continues(old(store.events), store.events)
      ensures Running(store.events, TheRule(), Default()) && Responses(store.events) == Responses(old(store.events))
      ensures Used(store.events) == Limit(store.events, Default())
      ensures Limit(store.events, Default()) in ExhaustedLimits(store.events)
      ensures var es, limit := old(store.events), Limit(old(store.events), Default());
              store.events == if limit in ExhaustedLimits(es) then es else es + [Stamp(es, BudgetExhausted(limit))]
    {
      ghost var es := store.events;
      var budget := CurrentTurnBudget(store.events, maxModelStepsPerUserTurn);
      var reported := AlreadyReported(store.events, budget.limit);
      if !reported {
        Append(BudgetExhausted(budget.limit));
        ExhaustedAppend(es, Last(store.events), TheRule(), Default());
        FrontLast(es, Last(store.events));
      }
    }

    /**
     `_record_output_truncation`: counts the response, and ends the slice at the limit or after
     three truncated responses in a row.
     */
    method RecordOutputTruncation(text: string, reasoning: Option<string>) returns (ended: Option<Status>)
      requires store.Valid() && Settled(store.events, TheRule(), Default()) && !Closed(store.events)
      requires Responses(store.events) == Used(store.events) + 1
      modifies store
      ensures store.Valid() && Continues(old(store.events), store.events)
      ensures Responses(store.events) == Responses(old(store.events))
      ensures Used(store.events) == Used(old(store.events)) + 1
      ensures ended.None? ==> Running(store.events, TheRule(), Default()) && Used(store.events) < Limit(store.events, Default())
      ensures ended == Some(BudgetWait) ==>
                && Running(store.events, TheRule(), Default())
                && Used(store.events) == Limit(store.events, Default())
                && Limit(store.events, Default()) in ExhaustedLimits(store.events)
      ensures ended == Some(Truncated) ==>
                Settled(store.events, TheRule(), Default()) && Closed(store.events) && LastTells(store.events, Truncated)
      ensures var es := old(store.events);
              && es + [Stamp(es, OutputTruncated(text, reasoning))] <= store.events
              && ended == (if Used(es) + 1 == Limit(es, Default()) then Some(BudgetWait)
                           else if ConsecutiveTruncations(es) + 1 < MAX_CONSECUTIVE_OUTPUT_TRUNCATIONS then None
                           else Some(Truncated))
    {
      hide Settled, Good, Planned, BudgetRun, WithinBudget;
      ghost var es := store.events;
      SettledMeans(es);
      var prior := CountTruncations(store.events);
      Append(OutputTruncated(text, reasoning));
      BoundaryAppend(es, Last(store.events), TheRule(), Default());
      FrontLast(es, Last(store.events));
      SettledMeans(store.events);
      var used := StepsUsed(store.events);
      var budget := CurrentTurnBudget(store.events, maxModelStepsPerUserTurn);
      if used >= budget.limit {
        WaitForBudget();
        return Some(BudgetWait);
      }
      if prior + 1 < MAX_CONSECUTIVE_OUTPUT_TRUNCATIONS { return None; }
      CloseTurn("output_truncated");
      return Some(Truncated);
    }

    lemma {:induction false} SettledMeans(es: seq<Event>)
      requires Settled(es, TheRule(), Default())
      ensures Written(es) && TurnAfter(es).Some? && Base(es, TheRule(), Default()) && NoOpenStep(es)
      ensures !Closed(es) ==> Used(es) <= Limit(es, Default())
      ensures !Closed(es) ==> Open(es, TheRule(), Default()) && Unanswered(es) == {}
    {
      UnansweredEmpty(es);
      assert WithinBudget(es, Default()) by { assert es != []; }
    }

    /** The calls of one response, one after another, with the stop checked around each. */
    method RunCalls(calls: seq<Call>) returns (stopped: bool)
      requires store.Valid() && Open(store.events, TheRule(), Default())
      requires Distinct(CallIds(calls)) && forall c :: c in Unanswered(store.events) <==> c in CallIds(calls)
      modifies store, this`stops
      ensures stops == old(stops) + if stopped then 1 else 0
      ensures store.Valid() && Continues(old(store.events), store.events)
      ensures Used(store.events) == Used(old(store.events)) && Responses(store.events) == Responses(old(store.events))
      ensures stopped ==> Settled(store.events, TheRule(), Default()) && Closed(store.events) && LastTells(store.events, Stopped)
      ensures !stopped ==> Open(store.events, TheRule(), Default()) && Unanswered(store.events) == {}
    {
      hide Open, Settled, Good, Planned, BudgetRun, Distinct, Unanswered;
      ghost var es0 := store.events;
      assert calls[0..] == calls;
      var i := 0;
      while i < |calls|
        invariant 0 <= i <= |calls|
        invariant store.Valid() && Open(store.events, TheRule(), Default()) && Continues(es0, store.events)
        invariant Used(store.events) == Used(es0) && Responses(store.events) == Responses(es0)
        invariant forall c :: c in Unanswered(store.events) <==> c in CallIds(calls[i..])
        invariant stops == old(stops)
      {
        var stop := Cancelled();
        if stop {
          TerminateStopped();
          return true;
        }
        DropCall(calls, i);
        HandleToolCall(calls[i]);
        i := i + 1;
        stop := Cancelled();
        if stop {
          TerminateStopped();
          return true;
        }
      }
      assert Unanswered(store.events) == {};
      return false;
    }

    /** How one model step can end the slice. */
    ghost predicate Ended(before: seq<Event>, after: seq<Event>, status: Status) {
      && Continues(before, after)
      && Settled(after, TheRule(), Default())
      && Responses(after) <= Responses(before) + 1
      && LastTells(after, status)
      && match status
         case SliceEnd => false
         case BudgetWait =>
           && Running(after, TheRule(), Default())
           && Used(after) == Limit(after, Default()) && Limit(after, Default()) in ExhaustedLimits(after)
         case ModelFailed => Running(after, TheRule(), Default())
         case _ => Closed(after)
    }

    /** One more response, counted, and the turn goes on. */
    ghost predicate Stepped(before: seq<Event>, after: seq<Event>) {
      && Continues(before, after)
      && Running(after, TheRule(), Default())
      && Used(after) == Used(before) + 1 && Responses(after) == Responses(before) + 1
    }

    /** The tool calls of a response: recorded, run, and all answered. */
    method CallStep(text: string, reasoning: Option<string>, calls: seq<Call>) returns (ended: Option<Status>)
      requires store.Valid() && Settled(store.events, TheRule(), Default()) && !Closed(store.events)
      requires Responses(store.events) == Used(store.events) + 1 && FreshCalls(store.events, calls)
      modifies store, this`stops
      ensures stops == old(stops) + if ended == Some(Stopped) then 1 else 0
      ensures store.Valid() && Continues(old(store.events), store.events)
      ensures Responses(store.events) == Responses(old(store.events))
      ensures Used(store.events) == Used(old(store.events)) + 1
      ensures ended.None? ==> Running(store.events, TheRule(), Default())
      ensures ended.Some? ==>
                && ended.value == Stopped && LastTells(store.events, Stopped)
                && Settled(store.events, TheRule(), Default()) && Closed(store.events)
      ensures old(store.events) + [Stamp(old(store.events), ToolCalls(text, reasoning, calls))] <= store.events
    {
      hide Open, Settled, Running, Good, Planned, BudgetRun, Unanswered;
      ghost var es := store.events;
      SettledMeans(es);
      Append(ToolCalls(text, reasoning, calls));
      CallsAppend(es, Last(store.events), TheRule(), Default());
      FrontLast(es, Last(store.events));
      var stopped := RunCalls(calls);
      if stopped { return Some(Stopped); }
      OpenIsRunning(store.events, TheRule(), Default());
      return None;
    }

    /** The messages fit the context limit, less the reserves. */
    ghost predicate FitsCaps(messages: seq<Message>) {
      Estimate(contextManager.measure, messages) + contextManager.measure.schemaTokens
      <= caps.contextLimit - caps.generationReserve - caps.continuationReserve - caps.safetyMargin
    }

    lemma {:induction false} ReadyFits(es0: seq<Event>, es: seq<Event>, r: BuildResult, v: View, input: BuildInput, rounds: seq<Round>)
      requires Prepared(es0, es, r, v, input, rounds)
      ensures r.Ready? ==> FitsCaps(r.messages)
    {
      hide Progresses, Along, IsView, Indexed, GaveUp, ContextBuilder.Request, NoPlan, Estimate;
      if r.Ready? {
        BuildDecides(contextManager.measure, v, input, TruncationPartial(es, v.anchor), |es|, r);
      }
    }

    /**
     One iteration of the slice loop.  `context` is what was prepared: only a request that fits is
     sent, and the turn ends for its context exactly when none could be prepared.
     */
    method ModelStep(protocolFailures: nat, previousFailure: Option<(string, string)>)
      returns (ended: Option<Status>, failures: nat, latest: Option<(string, string)>, ghost context: Option<BuildResult>)
      requires store.Valid() && Running(store.events, TheRule(), Default()) && Used(store.events) < Limit(store.events, Default())
      modifies store, contextManager, this`stops
      ensures stops == old(stops) + if ended == Some(Stopped) then 1 else 0
      ensures store.Valid()
      ensures ended.None? ==> Stepped(old(store.events), store.events)
      ensures ended.Some? ==> Ended(old(store.events), store.events, ended.value)
      ensures context.Some? ==> context.value.Exceeded? || (context.value.Ready? && FitsCaps(context.value.messages))
      ensures ended == Some(ContextExceeded) <==> context.Some? && context.value.Exceeded?
      ensures Responses(store.events) > Responses(old(store.events)) || ended == Some(ModelFailed) ==>
                context.Some? && context.value.Ready?
      ensures context.None? ==> ended == Some(Stopped)
    {
      hide Open, Good, Planned, BudgetRun, WithinBudget, Unanswered, Aside, BuildMatches, IsView, Indexed, FreshCalls, FitsCaps;
      ghost var es0 := store.events;
      SettledMeans(es0);
      ended, failures, latest := None, protocolFailures, previousFailure;
      var stop := Cancelled();
      if stop {
        TerminateStopped();
        return Some(Stopped), failures, latest, None;
      }
      ghost var v, input, rounds;
      var prepared: BuildResult;
      prepared, v, input, rounds := PrepareContext();
      AsideSettled(es0, store.events);
      AsideOpen(es0, store.events);
      context := Some(prepared);
      ReadyFits(es0, store.events, prepared, v, input, rounds);
      if prepared.Exceeded? {
        CloseTurn("context_budget_exceeded");
        return Some(ContextExceeded), failures, latest, context;
      }
      ended, failures, latest := Request(protocolFailures, previousFailure);
    }

    /** The request to the model on a prepared context, and the recording of its reply. */
    method Request(protocolFailures: nat, previousFailure: Option<(string, string)>)
      returns (ended: Option<Status>, failures: nat, latest: Option<(string, string)>)
      requires store.Valid() && Running(store.events, TheRule(), Default()) && Used(store.events) < Limit(store.events, Default())
      modifies store, this`stops
      ensures stops == old(stops) + if ended == Some(Stopped) then 1 else 0
      ensures store.Valid()
      ensures ended.None? ==> Stepped(old(store.events), store.events)
      ensures ended.Some? ==> Ended(old(store.events), store.events, ended.value) && ended.value != ContextExceeded
    {
      hide Open, Good, Planned, BudgetRun, WithinBudget, Unanswered, FreshCalls;
      ghost var es0 := store.events;
      SettledMeans(es0);
      ended, failures, latest := None, protocolFailures, previousFailure;
      var stop := Cancelled();
      if stop {
        TerminateStopped();
        return Some(Stopped), failures, latest;
      }
      assert AdmissibleReply(store.events, Fails);
      var reply: ModelReply :| AdmissibleReply(store.events, reply);
      assert AdmissibleReply(es0, reply);
      if reply.Fails? { return Some(ModelFailed), failures, latest; }
      Append(MainUsage);
      UsageAppend(es0, Last(store.events), TheRule(), Default());
      FrontLast(es0, Last(store.events));
      SameReply(es0, store.events, reply);
      ended, failures, latest := RecordReply(reply, protocolFailures, previousFailure);
    }

    /** What is recorded for each kind of reply, after its usage. */
    method RecordReply(reply: ModelReply, protocolFailures: nat, previousFailure: Option<(string, string)>)
      returns (ended: Option<Status>, failures: nat, latest: Option<(string, string)>)
      requires store.Valid() && Settled(store.events, TheRule(), Default()) && !Closed(store.events)
      requires Responses(store.events) == Used(store.events) + 1
      requires !reply.Fails? && AdmissibleReply(store.events, reply)
      modifies store, this`stops
      ensures stops == old(stops) + if ended == Some(Stopped) then 1 else 0
      ensures store.Valid() && Responses(store.events) == Responses(old(store.events))
      ensures ended.None? ==>
                && Continues(old(store.events), store.events)
                && Running(store.events, TheRule(), Default())
                && Used(store.events) == Used(old(store.events)) + 1
      ensures ended.Some? ==> Ended(old(store.events), store.events, ended.value)
      ensures ended != Some(Stopped) ==>
                match reply
                case Malformed(byLength, _, text, reasoning) =>
                  if byLength then Adds(old(store.events), OutputTruncated(text, reasoning)) else Adds(old(store.events), ProtocolError(text))
                case Answer(text, reasoning, calls, truncated) =>
                  && (calls != [] ==> Adds(old(store.events), ToolCalls(text, reasoning, calls)))
                  && (calls == [] && truncated ==> Adds(old(store.events), OutputTruncated(text, reasoning)))
                  && (calls == [] && !truncated ==> Adds(old(store.events), AssistantMessage(text, reasoning)))
      ensures ended == Some(Completed) <==>
                if reply.Malformed? then !reply.byLength && (failures > MAX_PROTOCOL_FAILURES || previousFailure == Some(reply.fingerprint))
                else reply.calls == [] && !reply.truncated && ended != Some(Stopped)
      ensures ended in {None, Some(Completed), Some(Stopped)} ||
              (ended in {Some(BudgetWait), Some(Truncated)} && if reply.Malformed? then reply.byLength else reply.calls == [] && reply.truncated)
      ensures if reply.Malformed? && !reply.byLength then
                failures == protocolFailures + 1 && (ended.None? ==> latest == Some(reply.fingerprint))
              else if ended != Some(Stopped) && (reply.Malformed? || (reply.calls == [] && reply.truncated)) then
                failures == 0 && latest == None
              else
                failures == protocolFailures && latest == previousFailure
    {
      hide Open, Good, Planned, BudgetRun, WithinBudget, Unanswered, FreshCalls;
      ghost var es1 := store.events;
      SettledMeans(es1);
      ended, failures, latest := None, protocolFailures, previousFailure;
      if reply.Malformed? && !reply.byLength {
        failures := failures + 1;
        var giveUp := failures > MAX_PROTOCOL_FAILURES || latest == Some(reply.fingerprint);
        ended := RecordMalformed(reply.text, giveUp);
        if !giveUp { latest := Some(reply.fingerprint); }
        return;
      }
      if reply.Answer? {
        var stop := Cancelled();
        if stop {
          TerminateStopped();
          return Some(Stopped), failures, latest;
        }
      }
      if reply.Malformed? || (reply.truncated && reply.calls == []) {
        ended := RecordOutputTruncation(reply.text, reply.reasoning);
        failures, latest := 0, None;
        return;
      }
      if reply.calls == [] {
        FinalAnswer(reply.text, reply.reasoning);
        return Some(Completed), failures, latest;
      }
      ended := CallStep(reply.text, reply.reasoning, reply.calls);
    }

    /** A malformed call is answered by an error, and after too many by the closing answer. */
    method RecordMalformed(text: string, giveUp: bool) returns (ended: Option<Status>)
      requires store.Valid() && Settled(store.events, TheRule(), Default()) && !Closed(store.events)
      requires Responses(store.events) == Used(store.events) + 1
      modifies store
      ensures store.Valid() && Responses(store.events) == Responses(old(store.events))
      ensures ended == if giveUp then Some(Completed) else None
      ensures old(store.events) + [Stamp(old(store.events), ProtocolError(text))] <= store.events
      ensures ended.None? ==>
                && Continues(old(store.events), store.events)
                && Running(store.events, TheRule(), Default())
                && Used(store.events) == Used(old(store.events)) + 1
      ensures ended.Some? ==> Ended(old(store.events), store.events, Completed)
    {
      hide Open, Good, Planned, BudgetRun, WithinBudget, Unanswered;
      ghost var es1 := store.events;
      SettledMeans(es1);
      Append(ProtocolError(text));
      BoundaryAppend(es1, Last(store.events), TheRule(), Default());
      FrontLast(es1, Last(store.events));
      if giveUp {
        FinalAnswer("unparsable arguments", None);
        return Some(Completed);
      }
      return None;
    }

    /** The log goes on after `es` with an event of this body. */
    predicate Adds(es: seq<Event>, b: Body)
      reads this, store
    {
      es + [Stamp(es, b)] <= store.events
    }

    /** Replies of the model; tool calls carry ids that are new in the turn. */
    predicate AdmissibleReply(es: seq<Event>, reply: ModelReply) {
      reply.Answer? ==> reply.calls == [] || FreshCalls(es, reply.calls)
    }

    lemma {:induction false} SameReply(es: seq<Event>, es': seq<Event>, reply: ModelReply)
      requires ScanAll(es) == ScanAll(es') && AdmissibleReply(es, reply)
      ensures AdmissibleReply(es', reply)
    {
    }

    method FinalAnswer(text: string, reasoning: Option<string>)
      requires store.Valid() && Settled(store.events, TheRule(), Default()) && !Closed(store.events)
      requires Used(store.events) + 1 == Responses(store.events)
               || (Used(store.events) == Responses(store.events) && AfterError(store.events))
      modifies store
      ensures store.Valid() && Settled(store.events, TheRule(), Default()) && Closed(store.events)
      ensures Continues(old(store.events), store.events) && Responses(store.events) == Responses(old(store.events))
      ensures store.events == old(store.events) + [Stamp(old(store.events), AssistantMessage(text, reasoning))]
    {
      hide Settled, Good, Planned, BudgetRun;
      ghost var es := store.events;
      Append(AssistantMessage(text, reasoning));
      BoundaryAppend(es, Last(store.events), TheRule(), Default());
      FrontLast(es, Last(store.events));
    }

    /** `_run_slice` on an open turn. */
    method RunSlice() returns (status: Status)
      requires store.Valid() && Running(store.events, TheRule(), Default())
      modifies store, contextManager, this`stops
      ensures stops == old(stops) + if status == Stopped then 1 else 0
      ensures store.Valid() && SliceResult(old(store.events), store.events, status)
    {
      hide Good, Planned, BudgetRun, WithinBudget, Open, Settled, Used, Limit, Responses, Closed, ExhaustedLimits,
        SessionStore.Valid;
      ghost var es0 := store.events;
      SettledMeans(es0);
      var stop := Cancelled();
      if stop {
        TerminateStopped();
        return Stopped;
      }
      var budget := CurrentTurnBudget(store.events, maxModelStepsPerUserTurn);
      var remaining := budget.limit - budget.used;
      if remaining <= 0 {
        WaitForBudget();
        return BudgetWait;
      }
      var sliceLimit := if maxStepsPerTurn < remaining then maxStepsPerTurn else remaining;
      var failures := 0;
      var latest: Option<(string, string)> := None;
      var k := 0;
      while k < sliceLimit
        invariant 0 <= k <= sliceLimit
        invariant store.Valid() && Continues(es0, store.events) && Running(store.events, TheRule(), Default())
        invariant Used(store.events) == Used(es0) + k && Responses(store.events) == Responses(es0) + k
        invariant stops == old(stops)
      {
        ghost var es := store.events;
        var ended: Option<Status>;
        ghost var context;
        ended, failures, latest, context := ModelStep(failures, latest);
        if ended.Some? { return ended.value; }
        k := k + 1;
      }
      SettledMeans(store.events);
      var used := StepsUsed(store.events);
      if used >= budget.limit {
        WaitForBudget();
        return BudgetWait;
      }
      ghost var es1 := store.events;
      Append(SliceExhausted);
      SideStillRunning(es1, Last(store.events));
      return SliceEnd;
    }

    lemma {:induction false} SideStillRunning(es: seq<Event>, e: Event)
      requires Running(es, TheRule(), Default()) && Stamped(es, e) && SideEvent(e.body) && !e.body.Condensed?
      ensures Running(es + [e], TheRule(), Default()) && Continues(es, es + [e])
      ensures Used(es + [e]) == Used(es) && Responses(es + [e]) == Responses(es)
    {
      SideAppend(es, e, TheRule(), Default());
    }

    /** `run_turn` */
    method RunTurn(message: string) returns (status: Status)
      requires store.Valid() && NoEmptyCalls(store.events)
      requires Base(store.events, TheRule(), Default()) && NoOpenStep(store.events)
      modifies store, contextManager, this`stops
      ensures stops == old(stops) + if status == Stopped then 1 else 0
      ensures store.Valid()
      ensures var started := old(store.events) + [Stamp(old(store.events), UserMessage(message, Some(maxModelStepsPerUserTurn)))];
              SliceResult(started, store.events, status)
    {
      ghost var es := store.events;
      Append(UserMessage(message, Some(maxModelStepsPerUserTurn)));
      UserAppend(es, Last(store.events), TheRule(), Default());
      status := RunSlice();
    }

    /** `continue_turn`; refused when the turn is closed. */
    method ContinueTurn() returns (status: Option<Status>)
      requires store.Valid() && Settled(store.events, TheRule(), Default())
      requires !Closed(store.events) ==> Used(store.events) == Responses(store.events)
      modifies store, contextManager, this`stops
      ensures stops == old(stops) + if status == Some(Stopped) then 1 else 0
      ensures store.Valid()
      ensures status.None? <==> Closed(old(store.events))
      ensures status.None? ==> store.events == old(store.events)
      ensures status.Some? ==> SliceResult(old(store.events), store.events, status.value)
    {
      var budget := CurrentTurnBudget(store.events, maxModelStepsPerUserTurn);
      if budget.closed { return None; }
      var s := RunSlice();
      return Some(s);
    }

    /**
     The worker's loop over slices.  It ends because every full slice uses budget, and it never
     ends in the middle of a turn's work without saying why.
     */
    method RunToEnd() returns (status: Status)
      requires store.Valid() && Running(store.events, TheRule(), Default()) && maxStepsPerTurn >= 1
      modifies store, contextManager, this`stops
      ensures stops == old(stops) + if status == Stopped then 1 else 0
      ensures store.Valid() && status != SliceEnd
      ensures Continues(old(store.events), store.events) && Settled(store.events, TheRule(), Default())
      ensures status == BudgetWait ==>
                && Running(store.events, TheRule(), Default())
                && Used(store.events) == Limit(store.events, Default())
                && Limit(store.events, Default()) in ExhaustedLimits(store.events)
      ensures LastTells(store.events, status)
      ensures status == ModelFailed ==> Running(store.events, TheRule(), Default())
      ensures status !in {BudgetWait, ModelFailed} ==> Closed(store.events)
    {
      hide Good, Planned, BudgetRun, WithinBudget, NoOpenStep, NoEmptyCalls;
      status := RunSlice();
      while status == SliceEnd
        invariant store.Valid() && Continues(old(store.events), store.events)
        invariant stops == old(stops) + if status == Stopped then 1 else 0
        invariant status == SliceEnd ==> Running(store.events, TheRule(), Default()) && Used(store.events) < Limit(store.events, Default())
        invariant status != SliceEnd ==> exists es :: Continues(es, store.events) && SliceResult(es, store.events, status)
        decreases if status == SliceEnd then 1 + Limit(store.events, Default()) - Used(store.events) else 0
      {
        ghost var es := store.events;
        status := RunSlice();
      }
    }

    // -------------------------------------------------------------- whole sessions

    /** Between two calls of the runner: the projector accepts the log, and the last turn is closed or can go on. */
    ghost predicate AtRest(es: seq<Event>) {
      && Base(es, TheRule(), Default()) && NoOpenStep(es) && NoEmptyCalls(es)
      && (TurnAfter(es).Some? && !Closed(es) ==> Running(es, TheRule(), Default()))
    }

    lemma {:induction false} ResultAtRest(before: seq<Event>, after: seq<Event>, status: Status)
      requires SliceResult(before, after, status)
      ensures AtRest(after) && before <= after
    {
    }

    /** The user's raise, whatever its arguments. */
    method Raise(workspaceReady: bool, turn: Option<nat>, expected: int, newLimit: Option<int>, additional: Option<int>)
      requires store.Valid() && AtRest(store.events)
      modifies store
      ensures store.Valid() && AtRest(store.events) && old(store.events) <= store.events
    {
      hide Good, Planned, BudgetRun, NoOpenStep, NoEmptyCalls, SessionStore.Valid;
      ghost var es := store.events;
      var r := IncreaseTurnBudget(store, workspaceReady, maxModelStepsPerUserTurn, turn, expected, newLimit, additional);
      if r.Some? {
        RaiseAppend(es, Last(store.events), r.value.limit, TheRule(), Default());
        RunningAtRest(store.events);
      }
    }

    lemma {:induction false} RunningAtRest(es: seq<Event>)
      requires Running(es, TheRule(), Default())
      ensures AtRest(es)
    {
    }

    lemma {:induction false} AtRestMeans(es: seq<Event>)
      requires AtRest(es)
      ensures Base(es, TheRule(), Default()) && NoOpenStep(es) && NoEmptyCalls(es)
      ensures TurnAfter(es).Some? ==> Settled(es, TheRule(), Default())
      ensures TurnAfter(es).Some? && !Closed(es) ==> Used(es) == Responses(es)
    {
    }

    /** Side events between turns keep the rest. */
    lemma {:induction false} AsideAtRest(before: seq<Event>, after: seq<Event>)
      requires AtRest(before) && Aside(before, after, TheRule(), Default())
      ensures AtRest(after) && before <= after
    {
      hide Good, Planned, BudgetRun, NoEmptyCalls, SideEvent;
      if TurnAfter(before).Some? { AtRestMeans(before); }
    }

    /** A stop without a running slice closes the waiting turn. */
    method StopAtRest()
      requires store.Valid() && AtRest(store.events) && TurnAfter(store.events).Some? && !Closed(store.events)
      modifies store
      ensures store.Valid() && AtRest(store.events) && Closed(store.events)
      ensures store.events == old(store.events) + [Stamp(old(store.events), TurnTerminated("user_stop"))]
    {
      hide Good, Planned, BudgetRun, NoOpenStep, NoEmptyCalls, SessionStore.Valid;
      AtRestMeans(store.events);
      CloseTurn("user_stop");
    }

    /** Any sequence of user turns, continuations, raises, idle stops and events of other writers. */
    method Session(steps: nat)
      requires store.Valid() && AtRest(store.events)
      modifies store, contextManager, this`stops
      ensures store.Valid() && AtRest(store.events) && old(store.events) <= store.events
    {
      for n := 0 to steps
        invariant store.Valid() && AtRest(store.events) && old(store.events) <= store.events
      {
        hide AtRest, SliceResult, Good, Planned, BudgetRun, Settled, Running, NoOpenStep, NoEmptyCalls, SessionStore.Valid;
        ghost var es := store.events;
        AtRestMeans(es);
        var message: string, ready: bool, turn: Option<nat>, expected: int :| true;
        var newLimit: Option<int>, additional: Option<int> :| true;
        if
        case true =>
          var status := RunTurn(message);
          ghost var started := es + [Stamp(es, UserMessage(message, Some(maxModelStepsPerUserTurn)))];
          ResultAtRest(started, store.events, status);
        case store.currentTurn.Some? =>
          CurrentTurnIsAfter();
          var status := ContinueTurn();
          if status.Some? { ResultAtRest(es, store.events, status.value); }
        case true => Raise(ready, turn, expected, newLimit, additional);
        case TurnAfter(store.events).Some? && !Closed(store.events) => StopAtRest();
        case true =>
          OtherWriters();
          AsideAtRest(es, store.events);
      }
    }

    lemma {:induction false} CurrentTurnIsAfter()
      requires store.Valid()
      ensures store.currentTurn == TurnAfter(store.events)
    {
    }
  }

  /**
   Every log that a new session can reach: the projector accepts it with no response in progress,
   its summaries were planned on it, and at every point of every turn the budget was kept.
   */
  method AnySession(manager: ContextManager, caps: Caps, maxSteps: nat, maxModelSteps: nat, steps: nat) returns (events: seq<Event>)
    modifies manager
    ensures Base(events, Rule(manager.measure, caps), maxModelSteps) && NoOpenStep(events) && NoEmptyCalls(events)
    ensures TurnAfter(events).Some? && !Closed(events) ==> Running(events, Rule(manager.measure, caps), maxModelSteps)
    ensures forall n | 0 <= n <= |events| && TurnAfter(events[..n]).Some? :: WithinLimit(events[..n], maxModelSteps)
  {
    var store := new SessionStore.Create();
    var runner := new AgentRunner(store, manager, caps, maxSteps, maxModelSteps);
    NewLogAtRest(store.events, Rule(manager.measure, caps), maxModelSteps);
    runner.Session(steps);
    events := store.events;
    forall n | 0 <= n <= |events| && TurnAfter(events[..n]).Some? ensures WithinLimit(events[..n], maxModelSteps) {
      ResponsesWithinLimit(events, n, maxModelSteps);
    }
  }

  lemma {:induction false} NewLogAtRest(es: seq<Event>, rule: SummaryRule, default: nat)
    requires es == [Stamp([], Note("session_created"))]
    ensures Base(es, rule, default) && NoOpenStep(es) && NoEmptyCalls(es) && TurnAfter(es).None?
  {
    var e := es[0];
    assert [] + [e] == es;
    FrontLast([], e);
    SideAppend([], e, rule, default);
  }
}
