/**
 What each kind of event the runner appends does to the replay, the chain and the budget.
 */
module RunnerLog {
  import opened Options
  import opened SessionLog
  import opened TurnBudget
  import opened Projector
  import opened SummaryChain
  import opened ContextBuilder

  /** Events beside the conversation and the budget. */
  predicate SideEvent(b: Body) {
    Quiet(b) && !b.MainUsage? && !b.BudgetExhausted? && !b.BudgetIncreased?
  }

  /** `after` is `before` followed by side events only. */
  ghost predicate GrewAside(before: seq<Event>, after: seq<Event>) {
    && before <= after
    && forall i | |before| <= i < |after| :: SideEvent(after[i].body)
  }

  ghost predicate NoEmptyCalls(es: seq<Event>) {
    forall i | 0 <= i < |es| && es[i].body.ToolCalls? :: es[i].body.calls != []
  }

  /** What the runner keeps at every point between two responses. */
  ghost predicate Settled(es: seq<Event>, rule: SummaryRule, default: nat) {
    && Good(es) && NoOpenStep(es) && NoEmptyCalls(es)
    && Planned(es, rule) && BudgetRun(es, default)
    && TurnAfter(es).Some?
  }

  /** Settled, the turn is open, and every recorded response is counted. */
  ghost predicate Running(es: seq<Event>, rule: SummaryRule, default: nat) {
    Settled(es, rule, default) && !Closed(es) && Used(es) == Responses(es)
  }

  // ---------------------------------------------------------------- one event at a time

  lemma {:induction false} SideAppend(es: seq<Event>, e: Event, rule: SummaryRule, default: nat)
    requires Good(es) && Planned(es, rule) && BudgetRun(es, default)
    requires Stamped(es, e) && SideEvent(e.body) && PlannedBody(es, e.body, rule)
    ensures var es' := es + [e];
            && Good(es') && Planned(es', rule) && BudgetRun(es', default)
            && ScanAll(es') == ScanAll(es) && AtomsOf(es') == AtomsOf(es)
            && (NoEmptyCalls(es) ==> NoEmptyCalls(es'))
            && TurnAfter(es') == TurnAfter(es) && Used(es') == Used(es) && Responses(es') == Responses(es)
            && Limit(es', default) == Limit(es, default) && Closed(es') == Closed(es)
            && ExhaustedLimits(es') == ExhaustedLimits(es)
  {
    QuietAppend(es, e);
    FrontLast(es, e);
    PlannedAppend(es, e, rule);
    TurnAfterIsUser(es);
    if es != [] { assert WithinBudget(es, default); }
    BudgetRunAppend(es, e, default);
  }

  /** A usage record: one more response, not yet counted. */
  lemma {:induction false} UsageAppend(es: seq<Event>, e: Event, rule: SummaryRule, default: nat)
    requires Running(es, rule, default) && Used(es) < Limit(es, default)
    requires Stamped(es, e) && e.body.MainUsage?
    ensures var es' := es + [e];
            && Settled(es', rule, default) && ScanAll(es') == ScanAll(es)
            && !Closed(es') && Responses(es') == Used(es') + 1 && Used(es') == Used(es)
            && Limit(es', default) == Limit(es, default) && ExhaustedLimits(es') == ExhaustedLimits(es)
  {
    QuietAppend(es, e);
    FrontLast(es, e);
    PlannedAppend(es, e, rule);
    BudgetRunAppend(es, e, default);
  }

  /** A boundary event: it needs every call answered and leaves none open. */
  predicate Boundary(b: Body) {
    b.AssistantMessage? || b.TurnTerminated? || b.ProtocolError? || b.OutputTruncated? || b.UserMessage?
  }

  lemma {:induction false} BoundaryReplay(es: seq<Event>, e: Event)
    requires Good(es) && NoOpenStep(es) && (TurnAfter(es).Some? || e.body.UserMessage?)
    requires Stamped(es, e) && Boundary(e.body)
    ensures Good(es + [e]) && NoOpenStep(es + [e])
    ensures NoEmptyCalls(es) ==> NoEmptyCalls(es + [e])
  {
    FrontLast(es, e);
    WrittenAppend(es, e);
  }

  /** The response that was recorded is counted, or the turn is closed. */
  lemma {:induction false} BoundaryAppend(es: seq<Event>, e: Event, rule: SummaryRule, default: nat)
    requires Settled(es, rule, default) && Stamped(es, e) && Boundary(e.body) && !e.body.UserMessage?
    requires !Closed(es)
    requires IsStep(e.body) ==>
               Used(es) + 1 == Responses(es) || (e.body.AssistantMessage? && Used(es) == Responses(es) && AfterError(es))
    ensures var es' := es + [e];
            && Settled(es', rule, default)
            && Responses(es') == Responses(es) && Limit(es', default) == Limit(es, default)
            && Used(es') == Used(es) + (if IsStep(e.body) then 1 else 0)
            && Closed(es') == ClosesTurn(e.body)
            && ExhaustedLimits(es') == ExhaustedLimits(es)
  {
    BoundaryReplay(es, e);
    FrontLast(es, e);
    PlannedAppend(es, e, rule);
    assert WithinBudget(es, default) by { assert es != []; }
    BudgetRunAppend(es, e, default);
  }

  /** A new user turn. */
  lemma {:induction false} UserAppend(es: seq<Event>, e: Event, rule: SummaryRule, default: nat)
    requires Good(es) && NoOpenStep(es) && NoEmptyCalls(es) && Planned(es, rule) && BudgetRun(es, default)
    requires Stamped(es, e) && e.body.UserMessage?
    ensures Running(es + [e], rule, default) && Used(es + [e]) == 0
  {
    BoundaryReplay(es, e);
    FrontLast(es, e);
    PlannedAppend(es, e, rule);
    BudgetRunAppend(es, e, default);
  }

  /** The one report that the limit is reached. */
  lemma {:induction false} ExhaustedAppend(es: seq<Event>, e: Event, rule: SummaryRule, default: nat)
    requires Running(es, rule, default) && Used(es) == Limit(es, default) && Limit(es, default) !in ExhaustedLimits(es)
    requires Stamped(es, e) && e.body == BudgetExhausted(Limit(es, default))
    ensures var es' := es + [e];
            && Running(es', rule, default) && Used(es') == Used(es)
            && Limit(es', default) == Limit(es, default) && Limit(es, default) in ExhaustedLimits(es')
  {
    QuietAppend(es, e);
    FrontLast(es, e);
    PlannedAppend(es, e, rule);
    assert WithinBudget(es, default) by { assert es != []; }
    BudgetRunAppend(es, e, default);
  }

  /** The user raises the limit of a waiting turn. */
  lemma {:induction false} RaiseAppend(es: seq<Event>, e: Event, limit: nat, rule: SummaryRule, default: nat)
    requires Running(es, rule, default) && BudgetOf(es, default).waiting
    requires Limit(es, default) < limit <= MAX_USER_TURN_BUDGET
    requires Stamped(es, e) && e.body == BudgetIncreased(Limit(es, default), limit)
    ensures Running(es + [e], rule, default)
  {
    QuietAppend(es, e);
    FrontLast(es, e);
    PlannedAppend(es, e, rule);
    IncreaseKeepsRun(es, limit, default);
  }

  // ---------------------------------------------------------------- calls and outcomes

  /** Calls that the replay accepts now: some, with distinct new names. */
  predicate FreshCalls(es: seq<Event>, calls: seq<Call>) {
    && ScanAll(es).Scanning?
    && calls != [] && Distinct(CallIds(calls))
    && forall i | 0 <= i < |calls| :: calls[i].id != "" && calls[i].id !in ScanAll(es).answered
  }

  /** The calls of the response in progress that have no outcome yet. */
  ghost function Unanswered(es: seq<Event>): set<string> {
    var s := ScanAll(es);
    if s.Scanning? then set c | c in s.answered && !s.answered[c] else {}
  }

  lemma {:induction false} UnansweredEmpty(es: seq<Event>)
    requires Good(es)
    ensures NoOpenStep(es) <==> Unanswered(es) == {}
  {
    ProtocolHolds(es);
    var s := ScanAll(es);
    if NoOpenStep(es) {
      ClosedMeansComplete(es);
    } else {
      var i :| 0 <= i < |s.step.value.calls| && !(s.step.value.calls[i] in s.answered && s.answered[s.step.value.calls[i]]);
      assert Pending(s, Last(Groups(es)));
      assert s.step.value.calls[i] in Unanswered(es);
    }
  }

  /** An open turn, possibly in the middle of a response's calls. */
  ghost predicate Open(es: seq<Event>, rule: SummaryRule, default: nat) {
    && Good(es) && NoEmptyCalls(es) && Planned(es, rule) && BudgetRun(es, default)
    && TurnAfter(es).Some? && !Closed(es)
  }

  lemma {:induction false} CallsAppend(es: seq<Event>, e: Event, rule: SummaryRule, default: nat)
    requires Settled(es, rule, default) && !Closed(es) && Used(es) + 1 == Responses(es)
    requires Stamped(es, e) && e.body.ToolCalls? && FreshCalls(es, e.body.calls)
    ensures var es' := es + [e];
            && Open(es', rule, default)
            && (forall c :: c in Unanswered(es') <==> c in CallIds(e.body.calls))
            && Used(es') == Used(es) + 1 && Responses(es') == Responses(es) && Limit(es', default) == Limit(es, default)
            && ExhaustedLimits(es') == ExhaustedLimits(es)
  {
    FrontLast(es, e);
    WrittenAppend(es, e);
    ProtocolHolds(es);
    DeclareMeaning(ScanAll(es).answered, e.body.calls);
    PlannedAppend(es, e, rule);
    assert WithinBudget(es, default) by { assert es != []; }
    BudgetRunAppend(es, e, default);
    NewCallsUnanswered(es, e);
  }

  lemma {:induction false} NewCallsUnanswered(es: seq<Event>, e: Event)
    requires Good(es) && NoOpenStep(es) && ScanAll(es).inTurn && e.body.ToolCalls? && FreshCalls(es, e.body.calls)
    ensures forall c :: c in Unanswered(es + [e]) <==> c in CallIds(e.body.calls)
  {
    FrontLast(es, e);
    ProtocolHolds(es);
    ClosedMeansComplete(es);
    var s, calls := ScanAll(es), e.body.calls;
    DeclareMeaning(s.answered, calls);
    NewCallsPending(s, e);
    forall c | c in CallIds(calls) ensures c in Unanswered(es + [e]) {
      var k :| 0 <= k < |calls| && CallIds(calls)[k] == c;
      assert calls[k].id == c;
    }
  }

  lemma {:induction false} OutcomeAppend(es: seq<Event>, e: Event, rule: SummaryRule, default: nat)
    requires Open(es, rule, default) && Stamped(es, e) && IsTerminal(e.body) && e.body.callId in Unanswered(es)
    ensures var es' := es + [e];
            && Open(es', rule, default)
            && Used(es') == Used(es) && Responses(es') == Responses(es) && Limit(es', default) == Limit(es, default)
            && ExhaustedLimits(es') == ExhaustedLimits(es)
    ensures Unanswered(es + [e]) == Unanswered(es) - {e.body.callId}
  {
    FrontLast(es, e);
    WrittenAppend(es, e);
    OutcomeAccepted(es, e);
    PlannedAppend(es, e, rule);
    assert WithinBudget(es, default) by { assert es != []; }
    BudgetRunAppend(es, e, default);
  }

  lemma {:induction false} OutcomeAccepted(es: seq<Event>, e: Event)
    requires Good(es) && Stamped(es, e) && IsTerminal(e.body) && e.body.callId in Unanswered(es)
    ensures Accepted(es + [e]) && Unanswered(es + [e]) == Unanswered(es) - {e.body.callId}
  {
    FrontLast(es, e);
    ProtocolHolds(es);
  }

  lemma {:induction false} OpenIsRunning(es: seq<Event>, rule: SummaryRule, default: nat)
    requires Open(es, rule, default) && Unanswered(es) == {}
    ensures Settled(es, rule, default)
    ensures Used(es) == Responses(es) ==> Running(es, rule, default)
  {
    UnansweredEmpty(es);
  }

  // ---------------------------------------------------------------- the turn by its identity

  /** The calls declared since the last user message, in order. */
  function TurnCalls(es: seq<Event>): seq<Call> {
    if es == [] || Last(es).body.UserMessage? then []
    else TurnCalls(Front(es)) + if Last(es).body.ToolCalls? then Last(es).body.calls else []
  }

  function TurnOutcomes(es: seq<Event>): set<string> {
    if es == [] || Last(es).body.UserMessage? then {}
    else TurnOutcomes(Front(es)) + if IsTerminal(Last(es).body) then {Last(es).body.callId} else {}
  }

  /** The replay's table holds exactly the turn's calls, each declared once. */
  ghost predicate TableMatchesTurn(answered: map<string, bool>, calls: seq<Call>, outcomes: set<string>) {
    && Distinct(CallIds(calls))
    && (forall c :: c in answered <==> c in CallIds(calls))
    && (forall c | c in answered :: answered[c] <==> c in outcomes)
  }

  lemma {:induction false} TurnFacts(es: seq<Event>)
    requires Good(es) && TurnAfter(es).Some?
    ensures TableMatchesTurn(ScanAll(es).answered, TurnCalls(es), TurnOutcomes(es))
  {
    if !Last(es).body.UserMessage? {
      var p, e := Front(es), Last(es);
      GoodFront(es);
      TurnFacts(p);
      OutcomesAreCalls(p);
      ProtocolHolds(p);
      var s := ScanAll(p);
      if e.body.ToolCalls? {
        DeclaredJoins(s.answered, TurnCalls(p), TurnOutcomes(p), e.body.calls);
      } else if IsTerminal(e.body) {
        assert TurnCalls(es) == TurnCalls(p);
        assert e.body.callId in s.answered;
        OutcomeJoins(s.answered, TurnCalls(p), TurnOutcomes(p), e.body.callId);
      } else {
        assert TurnCalls(es) == TurnCalls(p);
        assert ScanAll(es).answered == s.answered;
      }
    }
  }

  lemma {:induction false} OutcomeJoins(answered: map<string, bool>, calls: seq<Call>, outcomes: set<string>, c: string)
    requires TableMatchesTurn(answered, calls, outcomes) && c in answered
    ensures TableMatchesTurn(answered[c := true], calls, outcomes + {c})
  {
  }

  lemma {:induction false} DeclaredJoins(answered: map<string, bool>, calls: seq<Call>, outcomes: set<string>, declared: seq<Call>)
    requires TableMatchesTurn(answered, calls, outcomes) && Declare(answered, declared).Some?
    requires forall c | c in outcomes :: c in answered
    ensures TableMatchesTurn(Declare(answered, declared).value, calls + declared, outcomes)
  {
    DeclareMeaning(answered, declared);
    CallIdsAppend(calls, declared);
    DistinctAppend(CallIds(calls), CallIds(declared));
    var d := Declare(answered, declared).value;
    forall c | c in CallIds(declared) ensures c in d && !d[c] {
      var k :| 0 <= k < |declared| && CallIds(declared)[k] == c;
      assert declared[k].id == c;
    }
  }

  lemma {:induction false} OutcomesAreCalls(es: seq<Event>)
    requires Good(es) && TurnAfter(es).Some?
    ensures forall c | c in TurnOutcomes(es) :: c in ScanAll(es).answered
  {
    if !Last(es).body.UserMessage? {
      GoodFront(es);
      OutcomesAreCalls(Front(es));
      ProtocolHolds(Front(es));
      if Last(es).body.ToolCalls? {
        DeclareMeaning(ScanAll(Front(es)).answered, Last(es).body.calls);
      }
    }
  }

  lemma {:induction false} CallIdsAppend(a: seq<Call>, b: seq<Call>)
    ensures CallIds(a + b) == CallIds(a) + CallIds(b)
  {
  }

  lemma {:induction false} DistinctAppend(a: seq<string>, b: seq<string>)
    requires Distinct(a) && Distinct(b) && forall x | x in b :: x !in a
    ensures Distinct(a + b)
  {
    forall i, j | 0 <= i < j < |a + b| ensures (a + b)[i] != (a + b)[j] {
      if i < |a| <= j { assert b[j - |a|] in b; }
    }
  }

  /** A primary event belongs to the current turn exactly if it comes after the turn's user message. */
  lemma {:induction false} TurnByIdentity(es: seq<Event>, i: nat)
    requires Written(es) && i < |es| && !IsDerived(es[i].body) && TurnAfter(es).Some?
    ensures es[i].turn == TurnAfter(es) <==> i + 1 >= TurnAfter(es).value
  {
    WrittenPrefix(es, i);
    TurnAfterIsUser(es);
    TurnAfterIsUser(es[..i]);
    var start := TurnAfter(es).value;
    if i + 1 > start {
      TurnAfterPrefix(es, start, i);
    }
  }

  lemma {:induction false} TurnAfterPrefix(es: seq<Event>, start: nat, n: nat)
    requires 1 <= start <= n <= |es| && es[start - 1].body.UserMessage?
    requires forall i | start <= i < n :: !es[i].body.UserMessage?
    ensures TurnAfter(es[..n]) == Some(start)
    decreases n
  {
    assert Front(es[..n]) == es[..n - 1];
    if n > start { TurnAfterPrefix(es, start, n - 1); }
  }

  /** `turn_id` of the latest user message. */
  method LatestTurn(events: seq<Event>) returns (turn: Option<nat>)
    requires Written(events)
    ensures turn == TurnAfter(events)
  {
    var n := |events|;
    TurnAfterIsUser(events);
    while n > 0 && !events[n - 1].body.UserMessage?
      invariant 0 <= n <= |events|
      invariant forall i | n <= i < |events| :: !events[i].body.UserMessage?
    {
      n := n - 1;
    }
    if n == 0 { return None; }
    WrittenPrefix(events, n - 1);
    return events[n - 1].turn;
  }

  /** The responses of the current turn, counted by turn identity. */
  method StepsUsed(events: seq<Event>) returns (used: nat)
    requires Written(events) && TurnAfter(events).Some?
    ensures used == Used(events)
  {
    var turn := LatestTurn(events);
    used := 0;
    var start := TurnAfter(events).value;
    TurnAfterIsUser(events);
    for i := 0 to |events|
      invariant i < start ==> used == 0
      invariant i >= start ==> used == Used(events[..i])
    {
      assert Front(events[..i + 1]) == events[..i];
      var e := events[i];
      if IsStep(e.body) {
        TurnByIdentity(events, i);
        if e.turn == turn { used := used + 1; }
      }
    }
    assert events[..|events|] == events;
  }

  /** The calls of the current turn and the ids that have outcomes, by turn identity. */
  method CallsOfTurn(events: seq<Event>) returns (calls: seq<Call>, outcomes: set<string>)
    requires Written(events) && TurnAfter(events).Some?
    ensures calls == TurnCalls(events) && outcomes == TurnOutcomes(events)
  {
    var turn := LatestTurn(events);
    calls, outcomes := [], {};
    var start := TurnAfter(events).value;
    TurnAfterIsUser(events);
    for i := 0 to |events|
      invariant i < start ==> calls == [] && outcomes == {}
      invariant i >= start ==> calls == TurnCalls(events[..i]) && outcomes == TurnOutcomes(events[..i])
    {
      assert Front(events[..i + 1]) == events[..i];
      var e := events[i];
      if e.body.ToolCalls? || IsTerminal(e.body) {
        TurnByIdentity(events, i);
        if e.turn == turn {
          if e.body.ToolCalls? { calls := calls + e.body.calls; } else { outcomes := outcomes + {e.body.callId}; }
        }
      }
    }
    assert events[..|events|] == events;
  }

  /** Whether the turn already reports `limit` exhausted, by turn identity. */
  method AlreadyReported(events: seq<Event>, limit: nat) returns (found: bool)
    requires Written(events) && TurnAfter(events).Some?
    ensures found <==> limit in ExhaustedLimits(events)
  {
    var turn := LatestTurn(events);
    found := false;
    var start := TurnAfter(events).value;
    TurnAfterIsUser(events);
    for i := 0 to |events|
      invariant i < start ==> !found
      invariant i >= start ==> (found <==> limit in ExhaustedLimits(events[..i]))
    {
      assert Front(events[..i + 1]) == events[..i];
      var e := events[i];
      if e.body.BudgetExhausted? {
        TurnByIdentity(events, i);
        if e.turn == turn && e.body.limit == limit { found := true; }
      }
    }
    assert events[..|events|] == events;
  }

  /** How many of the turn's latest responses in a row were cut off by the output limit. */
  function ConsecutiveTruncations(es: seq<Event>): nat {
    if es == [] || Last(es).body.UserMessage? then 0
    else if Last(es).body.OutputTruncated? then ConsecutiveTruncations(Front(es)) + 1
    else if IsStep(Last(es).body) then 0
    else ConsecutiveTruncations(Front(es))
  }

  /** `_consecutive_output_truncations` */
  method CountTruncations(events: seq<Event>) returns (count: nat)
    requires Written(events) && TurnAfter(events).Some?
    ensures count == ConsecutiveTruncations(events)
  {
    var turn := LatestTurn(events);
    count := 0;
    var n := |events|;
    var start := TurnAfter(events).value;
    TurnAfterIsUser(events);
    assert events[..n] == events;
    while n > 0
      invariant 0 <= n <= |events|
      invariant n >= start ==> count + ConsecutiveTruncations(events[..n]) == ConsecutiveTruncations(events)
      invariant n < start ==> count == ConsecutiveTruncations(events)
    {
      assert Front(events[..n]) == events[..n - 1];
      var e := events[n - 1];
      if IsStep(e.body) {
        TurnByIdentity(events, n - 1);
        if e.turn == turn {
          if !e.body.OutputTruncated? { return; }
          count := count + 1;
        }
      }
      n := n - 1;
    }
  }
}
