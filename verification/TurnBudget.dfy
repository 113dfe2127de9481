/**
 The budget of a user turn, projected from the turn's own events.

 `BudgetRun` is what every event written by the runner and by the user's raise keeps;
 the lemmas at the end read whole-turn facts off it.
 */
module TurnBudget {
  import opened Options
  import opened SessionLog

  const MAX_USER_TURN_BUDGET := 1000

  datatype Budget = Budget(turn: Option<nat>, used: nat, limit: nat, closed: bool, waiting: bool)

  /** Responses counted since the last user message. */
  function Used(es: seq<Event>): nat {
    if es == [] || Last(es).body.UserMessage? then 0
    else Used(Front(es)) + if IsStep(Last(es).body) then 1 else 0
  }

  /** Main-model requests answered since the last user message, by their usage records. */
  function Responses(es: seq<Event>): nat {
    if es == [] || Last(es).body.UserMessage? then 0
    else Responses(Front(es)) + if Last(es).body.MainUsage? then 1 else 0
  }

  /** The limit in force: set by the user message, then by the latest exhaustion or raise. */
  function Limit(es: seq<Event>, default: nat): nat {
    if es == [] || TurnAfter(es).None? then default
    else match Last(es).body
      case UserMessage(_, budget) => if budget.Some? then budget.value else default
      case BudgetExhausted(limit) => limit
      case BudgetIncreased(_, limit) => limit
      case _ => Limit(Front(es), default)
  }

  function Closed(es: seq<Event>): bool {
    if es == [] then true
    else if Last(es).body.UserMessage? then false
    else Closed(Front(es)) || ClosesTurn(Last(es).body)
  }

  function BudgetOf(es: seq<Event>, default: nat): Budget {
    if TurnAfter(es).None? then Budget(None, 0, default, true, false)
    else Budget(TurnAfter(es), Used(es), Limit(es, default), Closed(es),
                !Closed(es) && Used(es) >= Limit(es, default))
  }

  /** The folds over a log whose turn starts at `start`, in terms of the events of the turn. */
  lemma {:induction false} TurnSlice(es: seq<Event>, start: nat)
    requires start < |es| && es[start].body.UserMessage?
    requires forall i | start < i < |es| :: !es[i].body.UserMessage?
    ensures TurnAfter(es) == Some(start + 1)
    ensures Closed(es) <==> exists i | start <= i < |es| :: ClosesTurn(es[i].body)
  {
    if |es| > start + 1 { TurnSlice(Front(es), start); }
  }

  /** `current_turn_budget` */
  method CurrentTurnBudget(events: seq<Event>, default: nat) returns (b: Budget)
    ensures b == BudgetOf(events, default)
  {
    var start := |events|;
    while start > 0 && !events[start - 1].body.UserMessage?
      invariant 0 <= start <= |events|
      invariant forall i | start <= i < |events| :: !events[i].body.UserMessage?
    {
      start := start - 1;
    }
    TurnAfterIsUser(events);
    if start == 0 {
      return Budget(None, 0, default, true, false);
    }
    start := start - 1;
    var first := events[start].body;
    var limit := if first.budget.Some? then first.budget.value else default;
    var used, closed := 0, false;
    for i := start + 1 to |events|
      invariant TurnAfter(events[..i]).Some?
      invariant used == Used(events[..i])
      invariant limit == Limit(events[..i], default)
      invariant closed == Closed(events[..i])
    {
      var b := events[i].body;
      assert Front(events[..i + 1]) == events[..i];
      if b.BudgetExhausted? || b.BudgetIncreased? { limit := b.limit; }
      if IsStep(b) { used := used + 1; }
      if ClosesTurn(b) { closed := true; }
    }
    assert events[..|events|] == events;
    TurnSlice(events, start);
    return Budget(Some(start + 1), used, limit, closed, !closed && used >= limit);
  }

  /** The limit that a raise asks for. */
  function RaiseTarget(b: Budget, newLimit: Option<int>, additional: Option<int>): int {
    if additional.Some? then b.limit + additional.value else if newLimit.Some? then newLimit.value else 0
  }

  /** A raise is for the waiting turn and the limit that the caller saw, and goes up within the maximum. */
  predicate MayRaise(b: Budget, turn: Option<nat>, expected: int, newLimit: Option<int>, additional: Option<int>) {
    && turn.Some? && turn == b.turn && b.waiting
    && expected == b.limit
    && newLimit.None? != additional.None?
    && (additional.Some? ==> additional.value > 0)
    && b.limit < RaiseTarget(b, newLimit, additional) <= MAX_USER_TURN_BUDGET
  }

  /**
   `increase_turn_budget`: a compare-and-raise by the user.  The caller names the turn and
   the limit it saw, and either a new limit or a number of additional steps.
   */
  method IncreaseTurnBudget(
    store: SessionStore, workspaceReady: bool, default: nat,
    turn: Option<nat>, expected: int, newLimit: Option<int>, additional: Option<int>)
    returns (r: Option<Budget>)
    requires store.Valid()
    modifies store
    ensures store.Valid()
    ensures var b, target := BudgetOf(old(store.events), default), RaiseTarget(BudgetOf(old(store.events), default), newLimit, additional);
            && (r.Some? <==> workspaceReady && MayRaise(b, turn, expected, newLimit, additional))
            && (r.None? ==> store.events == old(store.events))
            && (r.Some? ==>
                  && store.events == old(store.events) + [Stamp(old(store.events), BudgetIncreased(b.limit, target))]
                  && turn == b.turn != None && expected == b.limit && b.waiting && !b.closed
                  && b.limit < target <= MAX_USER_TURN_BUDGET
                  && (newLimit.Some? ==> additional.None? && target == newLimit.value)
                  && (additional.Some? ==> target == b.limit + additional.value)
                  && r.value == BudgetOf(store.events, default)
                  && r.value.limit == target && r.value.used == b.used && !r.value.closed)
  {
    var budget := CurrentTurnBudget(store.events, default);
    if !workspaceReady { return None; }
    if turn.None? || budget.turn != turn || budget.closed || !budget.waiting { return None; }
    if expected != budget.limit { return None; }
    if newLimit.None? == additional.None? { return None; }
    var resolved: int;
    if additional.Some? {
      if additional.value <= 0 { return None; }
      resolved := budget.limit + additional.value;
    } else {
      resolved := newLimit.value;
    }
    if !(budget.limit < resolved <= MAX_USER_TURN_BUDGET) { return None; }
    ghost var before := store.events;
    var e := store.AppendEvent(BudgetIncreased(budget.limit, resolved));
    FrontLast(before, e);
    var after := CurrentTurnBudget(store.events, default);
    return Some(after);
  }

  /** Of two raises that saw the same limit, only the first succeeds. */
  lemma {:induction false} OneRaisePerLimit(
    b: Budget, after: Budget, turn: Option<nat>, expected: int, newLimit: Option<int>, additional: Option<int>,
    turn': Option<nat>, newLimit': Option<int>, additional': Option<int>)
    requires MayRaise(b, turn, expected, newLimit, additional) && after.limit == RaiseTarget(b, newLimit, additional)
    ensures !MayRaise(after, turn', expected, newLimit', additional')
  {
  }

  /** A waiting turn's raise by `n` steps is accepted exactly when it goes up and stays within the maximum. */
  lemma {:induction false} WaitingMayRaise(b: Budget, n: int)
    requires b.waiting && b.turn.Some?
    ensures MayRaise(b, b.turn, b.limit, None, Some(n)) <==> 0 < n <= MAX_USER_TURN_BUDGET - b.limit
    ensures MayRaise(b, b.turn, b.limit, Some(n), None) <==> b.limit < n <= MAX_USER_TURN_BUDGET
    ensures !MayRaise(b, b.turn, b.limit, None, None) && forall k :: !MayRaise(b, b.turn, b.limit, Some(n), Some(k))
  {
  }

  // ---------------------------------------------------------------- whole runs

  /** The limits for which the current turn has an exhaustion event. */
  function ExhaustedLimits(es: seq<Event>): set<nat> {
    if es == [] || Last(es).body.UserMessage? then {}
    else ExhaustedLimits(Front(es)) +
         if Last(es).body.BudgetExhausted? then {Last(es).body.limit} else {}
  }

  /** The turn's latest request or response is a malformed one: no request was answered since. */
  predicate AfterError(es: seq<Event>) {
    es != [] && !Last(es).body.UserMessage? &&
    (Last(es).body.ProtocolError? || (!IsStep(Last(es).body) && !Last(es).body.MainUsage? && AfterError(Front(es))))
  }

  /** The turn has the message that gives up on malformed calls: an answer for which no request was made. */
  predicate GivenUp(es: seq<Event>) {
    es != [] && !Last(es).body.UserMessage? &&
    (GivenUp(Front(es)) || (Last(es).body.AssistantMessage? && AfterError(Front(es))))
  }

  /**
   What a request, a response or a budget event may be after the log `es`.  A response answers one
   request, but for the message that gives up.
   */
  ghost predicate LegalBudgetEvent(es: seq<Event>, b: Body, default: nat) {
    match b
    case MainUsage => !Closed(es) && Used(es) == Responses(es)
    case AssistantMessage(_, _) =>
      !Closed(es) && (Used(es) + 1 == Responses(es) || (Used(es) == Responses(es) && AfterError(es)))
    case BudgetExhausted(limit) => limit == Limit(es, default) && limit !in ExhaustedLimits(es)
    case BudgetIncreased(previous, limit) =>
      && previous == Limit(es, default) < limit <= MAX_USER_TURN_BUDGET
      && !Closed(es) && Used(es) == Limit(es, default)
    case _ => IsStep(b) ==> !Closed(es) && Used(es) + 1 == Responses(es)
  }

  /**
   Never more main-model responses than the limit; the projected count passes the limit by
   at most one, and then the turn is closed.  While the turn is open every recorded response
   has been counted, except one that is being recorded.
   */
  ghost predicate WithinBudget(es: seq<Event>, default: nat) {
    TurnAfter(es).Some? ==>
      var limit := Limit(es, default);
      && Responses(es) <= limit
      && Used(es) <= limit + 1
      && (Used(es) > limit ==> Closed(es))
      && (!Closed(es) ==> Used(es) <= Responses(es) <= Used(es) + 1)
  }

  ghost predicate BudgetRun(es: seq<Event>, default: nat) {
    es == [] ||
    (&& BudgetRun(Front(es), default)
     && LegalBudgetEvent(Front(es), Last(es).body, default)
     && WithinBudget(es, default))
  }

  lemma {:induction false} BudgetRunAppend(es: seq<Event>, e: Event, default: nat)
    requires BudgetRun(es, default) && LegalBudgetEvent(es, e.body, default) && WithinBudget(es + [e], default)
    ensures BudgetRun(es + [e], default)
  {
    FrontLast(es, e);
  }

  lemma {:induction false} BudgetRunPrefix(es: seq<Event>, n: nat, default: nat)
    requires BudgetRun(es, default) && n <= |es|
    ensures BudgetRun(es[..n], default)
    ensures n < |es| ==> LegalBudgetEvent(es[..n], es[n].body, default)
  {
    if n == |es| {
      assert es[..n] == es;
    } else if n == |es| - 1 {
      assert es[..n] == Front(es);
    } else {
      BudgetRunPrefix(Front(es), n, default);
      assert Front(es)[..n] == es[..n] && Front(es)[n] == es[n];
    }
  }

  /** No user message among `es[n..m]`: both ends lie in one turn. */
  predicate SameTurn(es: seq<Event>, n: nat, m: nat)
    requires n <= m <= |es|
  {
    forall i | n <= i < m :: !es[i].body.UserMessage?
  }

  /** Within a turn the limit only rises. */
  lemma {:induction false} LimitOnlyRises(es: seq<Event>, n: nat, m: nat, default: nat)
    requires BudgetRun(es, default) && n <= m <= |es| && SameTurn(es, n, m)
    ensures Limit(es[..n], default) <= Limit(es[..m], default)
    decreases m - n
  {
    if n < m {
      LimitOnlyRises(es, n, m - 1, default);
      BudgetRunPrefix(es, m - 1, default);
      assert Front(es[..m]) == es[..m - 1];
    }
  }

  /** A raise takes effect at once. */
  lemma {:induction false} RaiseRises(es: seq<Event>, n: nat, default: nat)
    requires BudgetRun(es, default) && n < |es| && es[n].body.BudgetIncreased? && TurnAfter(es[..n]).Some?
    ensures Limit(es[..n], default) == es[n].body.previous < es[n].body.limit == Limit(es[..n + 1], default)
  {
    BudgetRunPrefix(es, n, default);
    assert Front(es[..n + 1]) == es[..n];
  }

  /** Two raises of one turn never name the same expected limit. */
  lemma {:induction false} RaisesNameDistinctLimits(es: seq<Event>, i: nat, j: nat, default: nat)
    requires BudgetRun(es, default) && i < j < |es| && SameTurn(es, i, j)
    requires es[i].body.BudgetIncreased? && es[j].body.BudgetIncreased? && TurnAfter(es[..i]).Some?
    ensures es[i].body.previous < es[i].body.limit <= es[j].body.previous
  {
    RaiseRises(es, i, default);
    LimitOnlyRises(es, i + 1, j, default);
    BudgetRunPrefix(es, j, default);
  }

  lemma {:induction false} ExhaustionIsRemembered(es: seq<Event>, i: nat, m: nat)
    requires i < m <= |es| && SameTurn(es, i, m) && es[i].body.BudgetExhausted?
    ensures es[i].body.limit in ExhaustedLimits(es[..m])
    decreases m
  {
    assert Front(es[..m]) == es[..m - 1];
    if m > i + 1 { ExhaustionIsRemembered(es, i, m - 1); }
  }

  /** Each limit of a turn is reported exhausted at most once. */
  lemma {:induction false} ExhaustedOncePerLimit(es: seq<Event>, i: nat, j: nat, default: nat)
    requires BudgetRun(es, default) && i < j < |es| && SameTurn(es, i, j + 1)
    requires es[i].body.BudgetExhausted? && es[j].body.BudgetExhausted?
    ensures es[i].body.limit != es[j].body.limit
  {
    ExhaustionIsRemembered(es, i, j);
    BudgetRunPrefix(es, j, default);
  }

  /** Every counted step answered a request of its own, but for the message that gives up, which closes the turn. */
  lemma {:induction false} StepsAnswerRequests(es: seq<Event>, default: nat)
    requires BudgetRun(es, default) && TurnAfter(es).Some?
    ensures GivenUp(es) ==> Closed(es) && Used(es) == Responses(es) + 1
    ensures !GivenUp(es) ==> Used(es) <= Responses(es) <= Used(es) + 1
    ensures AfterError(es) && !Closed(es) ==> Used(es) == Responses(es)
  {
    if !Last(es).body.UserMessage? { StepsAnswerRequests(Front(es), default); }
  }

  /**
   The answered requests of the turn are within its limit.  The projected count passes it exactly
   when the turn gave up on malformed calls with its limit answered: by one, and with the turn closed.
   */
  ghost predicate WithinLimit(es: seq<Event>, default: nat) {
    && Responses(es) <= Limit(es, default)
    && Used(es) <= Limit(es, default) + 1
    && (Used(es) > Limit(es, default) <==> GivenUp(es) && Responses(es) == Limit(es, default))
    && (GivenUp(es) ==> Closed(es))
  }

  /** At every point of every turn. */
  lemma {:induction false} ResponsesWithinLimit(es: seq<Event>, n: nat, default: nat)
    requires BudgetRun(es, default) && n <= |es| && TurnAfter(es[..n]).Some?
    ensures WithinLimit(es[..n], default)
  {
    BudgetRunPrefix(es, n, default);
    StepsAnswerRequests(es[..n], default);
  }

  /** The folds over one more event. */
  lemma {:induction false} ThenFolds(es: seq<Event>, b: Body, default: nat)
    requires !IsDerived(b) && (TurnAfter(es).Some? || b.UserMessage?)
    ensures var after := Then(es, b);
            && TurnAfter(after).Some? && (Written(es) ==> Written(after))
            && (BudgetRun(es, default) && LegalBudgetEvent(es, b, default) && WithinBudget(after, default) ==> BudgetRun(after, default))
    ensures b.UserMessage? && b.budget.Some? ==>
              var after := Then(es, b);
              && Used(after) == Responses(after) == 0 && Limit(after, default) == b.budget.value && !Closed(after)
    ensures b.MainUsage? || b.ProtocolError? || b.AssistantMessage? ==>
              var after := Then(es, b);
              && Used(after) == Used(es) + (if IsStep(b) then 1 else 0)
              && Responses(after) == Responses(es) + (if b.MainUsage? then 1 else 0)
              && Limit(after, default) == Limit(es, default)
              && Closed(after) == (Closed(es) || ClosesTurn(b))
              && (b.ProtocolError? ==> AfterError(after))
              && (b.AssistantMessage? && AfterError(es) ==> GivenUp(after))
  {
    FrontLast(es, Stamp(es, b));
  }

  /** Such a turn: with a limit of two, two malformed replies and the message that gives up count as three. */
  lemma {:induction false} LimitPassed(error: string, text: string, default: nat)
    ensures var once := Then(Then(Then([], UserMessage("", Some(2))), MainUsage), ProtocolError(error));
            var es := Then(Then(Then(once, MainUsage), ProtocolError(error)), AssistantMessage(text, None));
            && Written(es) && BudgetRun(es, default) && GivenUp(es)
            && Limit(es, default) == 2 && Responses(es) == 2 && Used(es) == 3
  {
    hide Used, Responses, Limit, Closed, AfterError, GivenUp, BudgetRun, Written, TurnAfter, Stamp, Then;
    var start := Then([], UserMessage("", Some(2)));
    var once := Then(Then(start, MainUsage), ProtocolError(error));
    var twice := Then(Then(once, MainUsage), ProtocolError(error));
    NothingWritten(default);
    ThenFolds([], UserMessage("", Some(2)), default);
    ThenFolds(start, MainUsage, default);
    ThenFolds(Then(start, MainUsage), ProtocolError(error), default);
    ThenFolds(once, MainUsage, default);
    ThenFolds(Then(once, MainUsage), ProtocolError(error), default);
    ThenFolds(twice, AssistantMessage(text, None), default);
  }

  lemma {:induction false} NothingWritten(default: nat)
    ensures Written([]) && BudgetRun([], default)
  {
  }

  /** A successful raise keeps the run within budget and ends the wait. */
  lemma {:induction false} IncreaseKeepsRun(es: seq<Event>, limit: nat, default: nat)
    requires BudgetRun(es, default) && BudgetOf(es, default).waiting
    requires Limit(es, default) < limit <= MAX_USER_TURN_BUDGET
    ensures var e := Stamp(es, BudgetIncreased(Limit(es, default), limit));
            BudgetRun(es + [e], default) && !BudgetOf(es + [e], default).waiting
  {
    var e := Stamp(es, BudgetIncreased(Limit(es, default), limit));
    FrontLast(es, e);
    TurnAfterIsUser(es);
    if es != [] { assert WithinBudget(es, default); }
    BudgetRunAppend(es, e, default);
  }
}
