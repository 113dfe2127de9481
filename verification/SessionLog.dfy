/**
 The append-only session log and the store that writes it.

 Identities are kept as numbers: the program's strings `seq:n`, `turn-n` and
 `step-n` are injective in `n`.  Folds over a log look at its last event first,
 because the log only ever grows at the end.
 */
module SessionLog {
  import opened Options

  datatype Call = Call(id: string, name: string)

  /** SHA-256 as a free constructor: equal digests mean equal inputs. */
  datatype Digest = Sha256(ids: seq<nat>)

  /** The payload of a `context_condensed` event. */
  datatype SummaryRecord = SummaryRecord(
    previous: Option<nat>,
    fromSeq: int,
    toSeq: int,
    newIds: seq<nat>,
    digest: Digest,
    coveredCount: int,
    frontier: nat,
    version: int,
    summary: string)

  datatype Body =
    | UserMessage(text: string, budget: Option<nat>)
    | ToolCalls(text: string, reasoning: Option<string>, calls: seq<Call>)
    | ToolResult(callId: string, content: string)
    | ToolDenied(callId: string, content: string)
    | AssistantMessage(text: string, reasoning: Option<string>)
    | TurnTerminated(text: string)
    | ProtocolError(text: string)
    | OutputTruncated(text: string, reasoning: Option<string>)
    | MainUsage
    | BudgetExhausted(limit: nat)
    | BudgetIncreased(previous: nat, limit: nat)
    | SliceExhausted
    | StopRequested(job: nat)
    | StopAcknowledged(job: nat)
    | ApprovalRequested(approval: nat, job: nat)
    | ApprovalDecided(approval: nat, job: nat, allowed: bool, aborted: bool)
    | Note(kind: string)
    | CondenserUsage
    | CondensationAttempt(valid: bool, hard: bool)
    | Condensed(record: SummaryRecord)

  datatype Event = Event(id: nat, turn: Option<nat>, step: Option<nat>, body: Body)

  /** The events that record one main-model response. */
  predicate IsStep(b: Body) {
    b.ToolCalls? || b.AssistantMessage? || b.ProtocolError? || b.OutputTruncated?
  }

  predicate IsTerminal(b: Body) { b.ToolResult? || b.ToolDenied? }

  predicate ClosesTurn(b: Body) { b.AssistantMessage? || b.TurnTerminated? }

  /** The events written outside the main-model identities. */
  predicate IsDerived(b: Body) {
    b.CondenserUsage? || b.CondensationAttempt? || b.Condensed?
  }

  function Front<T>(s: seq<T>): seq<T>
    requires s != []
  {
    s[..|s| - 1]
  }

  function Last<T>(s: seq<T>): T
    requires s != []
  {
    s[|s| - 1]
  }

  lemma {:induction false} FrontLast<T>(s: seq<T>, x: T)
    ensures Front(s + [x]) == s && Last(s + [x]) == x
  {
  }

  /** The turn identity after a log: the number of its last user message. */
  function TurnAfter(es: seq<Event>): Option<nat> {
    if es == [] then None
    else if Last(es).body.UserMessage? then Some(|es|)
    else TurnAfter(Front(es))
  }

  /** The model step identity after a log: the last response since the last user message. */
  function StepAfter(es: seq<Event>): Option<nat> {
    if es == [] then None
    else if Last(es).body.UserMessage? then None
    else if IsStep(Last(es).body) then Some(|es|)
    else StepAfter(Front(es))
  }

  /** The event that `append_event` writes for `b` after the log `es`. */
  function Stamp(es: seq<Event>, b: Body): Event {
    var n := |es| + 1;
    Event(n,
          if b.UserMessage? then Some(n) else TurnAfter(es),
          if b.UserMessage? then None else if IsStep(b) then Some(n) else StepAfter(es),
          b)
  }

  /** The log after the store appends one event. */
  function Then(es: seq<Event>, b: Body): seq<Event> { es + [Stamp(es, b)] }

  ghost predicate Stamped(es: seq<Event>, e: Event) {
    && e.id == |es| + 1
    && (if IsDerived(e.body) then e.step == None else e == Stamp(es, e.body))
  }

  /** Logs that the store can have written. */
  ghost predicate Written(es: seq<Event>) {
    es == [] || (Written(Front(es)) && Stamped(Front(es), Last(es)))
  }

  lemma {:induction false} WrittenAppend(es: seq<Event>, e: Event)
    requires Written(es) && Stamped(es, e)
    ensures Written(es + [e])
  {
    FrontLast(es, e);
  }

  lemma {:induction false} WrittenPrefix(es: seq<Event>, n: nat)
    requires Written(es) && n <= |es|
    ensures Written(es[..n])
    ensures n < |es| ==> Stamped(es[..n], es[n])
  {
    if n < |es| {
      if n == |es| - 1 {
        assert es[..n] == Front(es);
      } else {
        WrittenPrefix(Front(es), n);
        assert Front(es)[..n] == es[..n];
        assert Front(es)[n] == es[n];
      }
    } else {
      assert es[..n] == es;
    }
  }

  lemma {:induction false} WrittenSeq(es: seq<Event>, i: nat)
    requires Written(es) && i < |es|
    ensures es[i].id == i + 1
  {
    WrittenPrefix(es, i);
  }

  lemma {:induction false} TurnAfterIsUser(es: seq<Event>)
    ensures TurnAfter(es).Some? ==>
              && 1 <= TurnAfter(es).value <= |es|
              && es[TurnAfter(es).value - 1].body.UserMessage?
              && forall i | TurnAfter(es).value <= i < |es| :: !es[i].body.UserMessage?
    ensures TurnAfter(es).None? ==> forall i | 0 <= i < |es| :: !es[i].body.UserMessage?
  {
    if es != [] { TurnAfterIsUser(Front(es)); }
  }

  /**
   The session's event file and the counters of `session.json` that stamp it.
   */
  class SessionStore {
    var events: seq<Event>
    var eventSeq: nat
    var currentTurn: Option<nat>
    var currentStep: Option<nat>

    ghost predicate Valid()
      reads this
    {
      && Written(events)
      && eventSeq == |events|
      && currentTurn == TurnAfter(events)
      && currentStep == StepAfter(events)
    }

    constructor Create()
      ensures Valid()
      ensures events == [Stamp([], Note("session_created"))]
    {
      events := [Event(1, None, None, Note("session_created"))];
      eventSeq := 1;
      currentTurn := None;
      currentStep := None;
      new;
      assert Front(events) == [];
      assert TurnAfter(Front(events)) == None && StepAfter(Front(events)) == None;
      assert events[0] == Stamp([], Note("session_created"));
    }

    method AppendEvent(body: Body) returns (event: Event)
      requires Valid() && !IsDerived(body)
      modifies this
      ensures Valid()
      ensures event == Stamp(old(events), body)
      ensures events == old(events) + [event]
    {
      var number := eventSeq + 1;
      var turn := currentTurn;
      var step := currentStep;
      if body.UserMessage? {
        turn := Some(number);
        step := None;
      } else if IsStep(body) {
        step := Some(number);
      }
      event := Event(number, turn, step, body);
      WrittenAppend(events, event);
      FrontLast(events, event);
      events := events + [event];
      eventSeq := number;
      currentTurn := turn;
      currentStep := step;
    }

    /**
     Appends derived events in one critical section.  Refused as a whole when the
     log is no longer the one the caller planned for.
     */
    method AppendDerivedEvents(bodies: seq<Body>, turn: Option<nat>, expected: Option<nat>) returns (ok: bool)
      requires Valid()
      requires forall i | 0 <= i < |bodies| :: IsDerived(bodies[i])
      modifies this
      ensures Valid()
      ensures ok <==> bodies == [] || expected == None || expected == Some(|old(events)|)
      ensures !ok ==> events == old(events)
      ensures ok ==> events == old(events) + DerivedEvents(|old(events)|, bodies, turn)
    {
      if bodies == [] {
        assert DerivedEvents(|events|, bodies, turn) == [];
        return true;
      }
      if expected.Some? && expected.value != eventSeq {
        return false;
      }
      var i := 0;
      var number := eventSeq;
      var appended: seq<Event> := [];
      assert events + appended == events;
      while i < |bodies|
        invariant 0 <= i <= |bodies|
        invariant number == |events| + i
        invariant appended == DerivedEvents(|events|, bodies[..i], turn)
        invariant SameIdentities(events, appended)
        invariant unchanged(this)
      {
        hide SameIdentities;
        number := number + 1;
        var e := Event(number, turn, None, bodies[i]);
        KeepsIdentities(events, appended, e);
        assert DerivedEvents(|events|, bodies[..i + 1], turn) == appended + [e];
        appended := appended + [e];
        i := i + 1;
      }
      assert bodies[..i] == bodies;
      events := events + appended;
      eventSeq := number;
      ok := true;
    }
  }

  /** Appending `more` is well written and moves neither identity of the log. */
  ghost predicate SameIdentities(es: seq<Event>, more: seq<Event>) {
    && Written(es + more)
    && TurnAfter(es + more) == TurnAfter(es)
    && StepAfter(es + more) == StepAfter(es)
  }

  lemma {:induction false} KeepsIdentities(es: seq<Event>, more: seq<Event>, e: Event)
    requires SameIdentities(es, more) && IsDerived(e.body) && e.step == None && e.id == |es + more| + 1
    ensures SameIdentities(es, more + [e])
  {
    WrittenAppend(es + more, e);
    FrontLast(es + more, e);
    assert es + (more + [e]) == es + more + [e];
  }

  /** The events that `append_derived_events` writes after a log of length `n`. */
  function DerivedEvents(n: nat, bodies: seq<Body>, turn: Option<nat>): (r: seq<Event>)
    ensures |r| == |bodies|
    ensures forall i | 0 <= i < |r| :: r[i] == Event(n + i + 1, turn, None, bodies[i])
  {
    seq(|bodies|, i requires 0 <= i < |bodies| => Event(n + i + 1, turn, None, bodies[i]))
  }
}
