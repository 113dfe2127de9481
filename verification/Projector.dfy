/**
 From the event log to indivisible atoms.

 `ProjectEvents` replays the conversation protocol and rejects logs that break it;
 `ProjectContextEvents` groups the allowlisted events by the dictionary keys the
 program uses.  `Groups` is the plain reading order the program relies on, and
 `DictionaryGroupsAreContiguous` is the theorem that the two agree.
 */
module Projector {
  import opened Options
  import opened SessionLog

  // ---------------------------------------------------------------- protocol replay

  /** `step_id`: the store's identity, or the line number of an event without one. */
  datatype StepKey = Known(n: nat) | Legacy(n: nat) | Orphan(n: nat)

  datatype StepState = StepState(key: StepKey, calls: seq<string>)

  /** What the replay knows: is a turn open, the response in progress, the turn's calls and whether each is answered. */
  datatype Scan =
    | Scanning(inTurn: bool, step: Option<StepState>, answered: map<string, bool>)
    | NotReady
    | Malformed

  function StepKeyOf(e: Event): StepKey {
    if e.step.Some? then Known(e.step.value) else Legacy(e.id)
  }

  predicate StepClosed(s: Scan)
    requires s.Scanning?
  {
    s.step.Some? ==>
      forall i | 0 <= i < |s.step.value.calls| ::
        s.step.value.calls[i] in s.answered && s.answered[s.step.value.calls[i]]
  }

  function CallIds(calls: seq<Call>): (r: seq<string>)
    ensures |r| == |calls| && forall i | 0 <= i < |r| :: r[i] == calls[i].id
  {
    seq(|calls|, i requires 0 <= i < |calls| => calls[i].id)
  }

  /** Adds the declared calls, unanswered; none may be empty or already known in the turn. */
  function Declare(answered: map<string, bool>, calls: seq<Call>): Option<map<string, bool>> {
    if calls == [] then Some(answered)
    else
      var before := Declare(answered, Front(calls));
      if before.None? || Last(calls).id == "" || Last(calls).id in before.value then None
      else Some(before.value[Last(calls).id := false])
  }

  function Advance(s: Scan, e: Event): Scan {
    if !s.Scanning? then s
    else if e.body.UserMessage? then
      if StepClosed(s) then Scanning(true, None, map[]) else NotReady
    else if !s.inTurn then s
    else match e.body
      case ToolCalls(_, _, calls) =>
        if !StepClosed(s) then NotReady
        else
          var declared := Declare(s.answered, calls);
          if declared.None? then Malformed
          else Scanning(true, Some(StepState(StepKeyOf(e), CallIds(calls))), declared.value)
      case ToolResult(callId, _) => Answer(s, e, callId)
      case ToolDenied(callId, _) => Answer(s, e, callId)
      case ProtocolError(_) =>
        if StepClosed(s) then s.(step := Some(StepState(StepKeyOf(e), []))) else NotReady
      case OutputTruncated(_, _) =>
        if StepClosed(s) then s.(step := Some(StepState(StepKeyOf(e), []))) else NotReady
      case AssistantMessage(_, _) =>
        if StepClosed(s) then s.(step := None) else NotReady
      case TurnTerminated(_) =>
        if StepClosed(s) then s.(step := None) else NotReady
      case _ => s
  }

  function Answer(s: Scan, e: Event, callId: string): Scan
    requires s.Scanning?
  {
    if callId !in s.answered || s.answered[callId] then Malformed
    else if e.step.Some? && s.step.Some? && s.step.value.key != Known(e.step.value) then Malformed
    else s.(answered := s.answered[callId := true])
  }

  /** The replay of a whole log. */
  function ScanAll(es: seq<Event>): Scan {
    if es == [] then Scanning(false, None, map[]) else Advance(ScanAll(Front(es)), Last(es))
  }

  ghost predicate Accepted(es: seq<Event>) { ScanAll(es).Scanning? }

  /** Accepted, and every call of the response in progress is answered. */
  ghost predicate NoOpenStep(es: seq<Event>) { Accepted(es) && StepClosed(ScanAll(es)) }

  lemma {:induction false} ScanAppend(es: seq<Event>, e: Event)
    ensures ScanAll(es + [e]) == Advance(ScanAll(es), e)
  {
    FrontLast(es, e);
  }

  lemma {:induction false} RejectionPersists(es: seq<Event>, n: nat)
    requires n <= |es| && !ScanAll(es[..n]).Scanning?
    ensures ScanAll(es) == ScanAll(es[..n])
  {
    if n == |es| {
      assert es[..n] == es;
    } else {
      assert Front(es)[..n] == es[..n];
      RejectionPersists(Front(es), n);
    }
  }

  lemma {:induction false} AcceptedPrefix(es: seq<Event>, n: nat)
    requires Accepted(es) && n <= |es|
    ensures Accepted(es[..n])
  {
    if !Accepted(es[..n]) { RejectionPersists(es, n); }
  }

  /** `project_events`, as far as acceptance and the response in progress are concerned. */
  method ProjectEvents(events: seq<Event>) returns (r: Scan)
    ensures r == ScanAll(events)
  {
    var inTurn := false;
    var step: Option<StepState> := None;
    var answered: map<string, bool> := map[];
    var i := 0;
    while i < |events|
      invariant 0 <= i <= |events|
      invariant ScanAll(events[..i]) == Scanning(inTurn, step, answered)
    {
      var e := events[i];
      assert events[..i + 1] == events[..i] + [e];
      ScanAppend(events[..i], e);
      i := i + 1;
      var closed := StepClosed(Scanning(inTurn, step, answered));
      if e.body.UserMessage? {
        if !closed { RejectionPersists(events, i); return NotReady; }
        inTurn, step, answered := true, None, map[];
      } else if !inTurn {
        continue;
      } else if IsTerminal(e.body) {
        if e.body.callId !in answered || answered[e.body.callId] {
          RejectionPersists(events, i);
          return Malformed;
        }
        if e.step.Some? && step.Some? && step.value.key != Known(e.step.value) {
          RejectionPersists(events, i);
          return Malformed;
        }
        answered := answered[e.body.callId := true];
      } else if IsStep(e.body) || e.body.TurnTerminated? {
        if !closed { RejectionPersists(events, i); return NotReady; }
        if e.body.ToolCalls? {
          var calls := e.body.calls;
          var known := answered;
          var j := 0;
          while j < |calls|
            invariant 0 <= j <= |calls|
            invariant Declare(answered, calls[..j]) == Some(known)
          {
            assert Front(calls[..j + 1]) == calls[..j];
            if calls[j].id == "" || calls[j].id in known {
              DeclareFailurePersists(answered, calls, j + 1);
              RejectionPersists(events, i);
              return Malformed;
            }
            known := known[calls[j].id := false];
            j := j + 1;
          }
          assert calls[..j] == calls;
          step, answered := Some(StepState(StepKeyOf(e), CallIds(calls))), known;
        } else if e.body.ProtocolError? || e.body.OutputTruncated? {
          step := Some(StepState(StepKeyOf(e), []));
        } else {
          step := None;
        }
      }
    }
    assert events[..i] == events;
    return Scanning(inTurn, step, answered);
  }

  lemma {:induction false} DeclareFailurePersists(answered: map<string, bool>, calls: seq<Call>, n: nat)
    requires n <= |calls| && Declare(answered, calls[..n]).None?
    ensures Declare(answered, calls).None?
  {
    if n == |calls| {
      assert calls[..n] == calls;
    } else {
      assert Front(calls)[..n] == calls[..n];
      DeclareFailurePersists(answered, Front(calls), n);
    }
  }

  predicate Distinct<T(==)>(s: seq<T>) {
    forall i, j | 0 <= i < j < |s| :: s[i] != s[j]
  }

  /** What a successful declaration means. */
  lemma {:induction false} DeclareMeaning(answered: map<string, bool>, calls: seq<Call>)
    ensures Declare(answered, calls).Some? <==>
              && Distinct(CallIds(calls))
              && forall i | 0 <= i < |calls| :: calls[i].id != "" && calls[i].id !in answered
    ensures Declare(answered, calls).Some? ==>
              var d := Declare(answered, calls).value;
              && (forall c :: c in d <==> c in answered || c in CallIds(calls))
              && (forall c | c in answered :: d[c] == answered[c])
              && (forall i | 0 <= i < |calls| :: !d[calls[i].id])
  {
    if calls != [] {
      DeclareMeaning(answered, Front(calls));
      var ids, front := CallIds(calls), CallIds(Front(calls));
      assert forall i | 0 <= i < |front| :: front[i] == ids[i];
      assert ids == front + [Last(calls).id];
      if Declare(answered, calls).None? && Declare(answered, Front(calls)).Some? {
        var c := Last(calls).id;
        if c != "" && c !in answered {
          assert c in front;
          var k :| 0 <= k < |front| && front[k] == c;
          assert ids[k] == ids[|ids| - 1];
        }
      }
    }
  }

  // ---------------------------------------------------------------- atoms in reading order

  predicate InContext(b: Body) {
    b.UserMessage? || b.ToolCalls? || IsTerminal(b) || ClosesTurn(b)
  }

  /** No conversation event comes before the first user message. */
  ghost predicate Started(es: seq<Event>) {
    es == [] ||
    (&& Started(Front(es))
     && (InContext(Last(es).body) && !Last(es).body.UserMessage? ==> TurnAfter(Front(es)).Some?))
  }

  /** Logs that the store wrote and the replay accepts. */
  ghost predicate Good(es: seq<Event>) { Written(es) && Started(es) && Accepted(es) }

  lemma {:induction false} GoodPrefix(es: seq<Event>, n: nat)
    requires Good(es) && n <= |es|
    ensures Good(es[..n])
    decreases |es|
  {
    WrittenPrefix(es, n);
    AcceptedPrefix(es, n);
    if n == |es| {
      assert es[..n] == es;
    } else {
      WrittenPrefix(es, |es| - 1);
      AcceptedPrefix(es, |es| - 1);
      GoodPrefix(Front(es), n);
      assert Front(es)[..n] == es[..n];
    }
  }

  lemma {:induction false} GoodFront(es: seq<Event>)
    requires Good(es) && es != []
    ensures Good(Front(es))
  {
    GoodPrefix(es, |es| - 1);
  }

  /** Reading order: an outcome joins the group before it, everything else starts one. */
  function Groups(es: seq<Event>): seq<seq<Event>> {
    if es == [] then []
    else
      var groups, e := Groups(Front(es)), Last(es);
      if !InContext(e.body) then groups
      else if IsTerminal(e.body) && groups != [] then Front(groups) + [Last(groups) + [e]]
      else groups + [[e]]
  }

  function Declared(g: seq<Event>): set<string> {
    if g != [] && g[0].body.ToolCalls? then set c <- g[0].body.calls :: c.id else {}
  }

  function Answered(g: seq<Event>): set<string> {
    set e <- g | IsTerminal(e.body) :: e.body.callId
  }

  /** A call event followed by outcomes of its own calls, or a single other event. */
  ghost predicate Shape(g: seq<Event>) {
    && g != []
    && (if g[0].body.ToolCalls? then
          && Distinct(CallIds(g[0].body.calls))
          && (forall i | 1 <= i < |g| ::
                IsTerminal(g[i].body) && g[i].step == Some(g[0].id) && g[i].body.callId in Declared(g))
          && (forall i, j | 1 <= i < j < |g| :: g[i].body.callId != g[j].body.callId)
        else |g| == 1 && !IsTerminal(g[0].body))
  }

  /** Every declared call has its outcome. */
  ghost predicate Complete(g: seq<Event>) { Answered(g) == Declared(g) }

  lemma {:induction false} AnsweredAppend(g: seq<Event>, e: Event)
    requires g != [] && IsTerminal(e.body)
    ensures Answered(g + [e]) == Answered(g) + {e.body.callId}
    ensures Declared(g + [e]) == Declared(g)
  {
    assert forall x :: x in g + [e] <==> x in g || x == e;
  }

  lemma {:induction false} DeclaredIsCallIds(g: seq<Event>)
    requires g != [] && g[0].body.ToolCalls?
    ensures forall c :: c in Declared(g) <==> c in CallIds(g[0].body.calls)
  {
    var calls := g[0].body.calls;
    forall c | c in CallIds(calls) ensures c in Declared(g) {
      var i :| 0 <= i < |calls| && CallIds(calls)[i] == c;
      assert calls[i] in calls;
    }
    forall c | c in Declared(g) ensures c in CallIds(calls) {
      var x :| x in calls && x.id == c;
      var i :| 0 <= i < |calls| && calls[i] == x;
      assert CallIds(calls)[i] == c;
    }
  }

  /** What the replay's state says about the groups read so far. */
  ghost predicate Protocol(es: seq<Event>) {
    var s, groups := ScanAll(es), Groups(es);
    && s.Scanning?
    && s.inTurn == TurnAfter(es).Some?
    && (!s.inTurn ==> groups == [] && s.step.None? && s.answered == map[])
    && (s.step.Some? ==> StepAfter(es).Some? && s.step.value.key == Known(StepAfter(es).value))
    && (forall c | c in s.answered && !s.answered[c] :: s.step.Some? && c in s.step.value.calls)
    && InOrder(groups, |es|)
    && (groups != [] ==> Complete(Last(groups)) || Pending(s, Last(groups)))
    && (s.step.Some? && s.step.value.calls != [] ==>
          groups != [] && Pending(s, Last(groups)) && Last(groups)[0].id == StepAfter(es).value)
  }

  /** Well-shaped groups in log order, all complete except possibly the last. */
  ghost predicate InOrder(groups: seq<seq<Event>>, n: nat) {
    && (forall i | 0 <= i < |groups| :: Shape(groups[i]) && groups[i][0].id <= n)
    && (forall i, j | 0 <= i < j < |groups| :: groups[i][0].id < groups[j][0].id)
    && (forall i | 0 <= i < |groups| - 1 :: Complete(groups[i]))
  }

  /** The last group is the response in progress. */
  ghost predicate Pending(s: Scan, g: seq<Event>)
    requires s.Scanning?
  {
    && s.step.Some?
    && g != [] && g[0].body.ToolCalls?
    && CallIds(g[0].body.calls) == s.step.value.calls
    && (forall c | c in s.step.value.calls :: c in s.answered && (s.answered[c] <==> c in Answered(g)))
  }

  lemma {:induction false} ClosedMeansComplete(es: seq<Event>)
    requires Protocol(es) && StepClosed(ScanAll(es))
    ensures forall i | 0 <= i < |Groups(es)| :: Complete(Groups(es)[i])
    ensures forall c | c in ScanAll(es).answered :: ScanAll(es).answered[c]
  {
    var s, groups := ScanAll(es), Groups(es);
    if s.step.Some? {
      forall c | c in s.step.value.calls ensures c in s.answered && s.answered[c] {
        var k :| 0 <= k < |s.step.value.calls| && s.step.value.calls[k] == c;
      }
    }
    if groups != [] && Pending(s, Last(groups)) {
      PendingComplete(s, Last(groups));
    }
  }

  lemma {:induction false} PendingComplete(s: Scan, g: seq<Event>)
    requires s.Scanning? && Shape(g) && Pending(s, g)
    requires forall c | c in s.step.value.calls :: s.answered[c]
    ensures Complete(g)
  {
    DeclaredIsCallIds(g);
    forall c | c in Answered(g) ensures c in Declared(g) {
      var e :| e in g && IsTerminal(e.body) && e.body.callId == c;
      var i :| 0 <= i < |g| && g[i] == e;
    }
  }

  lemma {:induction false} ProtocolHolds(es: seq<Event>)
    requires Good(es)
    ensures Protocol(es)
  {
    if es != [] {
      GoodFront(es);
      ProtocolHolds(Front(es));
      var e := Last(es);
      if e.body.ToolCalls? {
        ProtocolCalls(es);
      } else if e.body.UserMessage? || ClosesTurn(e.body)
         || e.body.ProtocolError? || e.body.OutputTruncated? {
        ProtocolBoundary(es);
      } else if IsTerminal(e.body) {
        ProtocolOutcome(es);
      }
    }
  }

  /** Before an event that starts a new atom, every call is answered. */
  lemma {:induction false} AllCompleteBefore(es: seq<Event>)
    requires Good(es) && es != [] && Protocol(Front(es))
    requires Last(es).body.UserMessage? || IsStep(Last(es).body) || Last(es).body.TurnTerminated?
    ensures ScanAll(Front(es)).inTurn || Last(es).body.UserMessage? ==>
              && (forall i | 0 <= i < |Groups(Front(es))| :: Complete(Groups(Front(es))[i]))
              && (forall c | c in ScanAll(Front(es)).answered :: ScanAll(Front(es)).answered[c])
  {
    hide InOrder, Pending, Complete, Declare;
    if ScanAll(Front(es)).inTurn || Last(es).body.UserMessage? { ClosedMeansComplete(Front(es)); }
  }

  lemma {:induction false} LastStep(es: seq<Event>)
    requires Good(es) && es != []
    ensures Last(es).id == |es|
    ensures ScanAll(es).Scanning? && ScanAll(es) == Advance(ScanAll(Front(es)), Last(es))
    ensures Last(es).body.ToolCalls? ==>
              Last(es).step == Some(|es|) && TurnAfter(es) == TurnAfter(Front(es)) != None
  {
  }

  lemma {:induction false} ProtocolCalls(es: seq<Event>)
    requires Good(es) && es != [] && Protocol(Front(es)) && Last(es).body.ToolCalls?
    ensures Protocol(es)
  {
    hide Shape, Answered, Declared, Complete, Pending, InOrder, Distinct, CallIds, Good, ScanAll, TurnAfter, Declare, Stamped;
    AllCompleteBefore(es);
    LastStep(es);
    var p, e := Front(es), Last(es);
    assert Groups(es) == Groups(p) + [[e]];
    DeclareMeaning(ScanAll(p).answered, e.body.calls);
    NewGroup(e);
    InOrderAppends(Groups(p), e, |p|);
    NewCallsPending(ScanAll(p), e);
  }

  lemma {:induction false} ProtocolBoundary(es: seq<Event>)
    requires Good(es) && es != [] && Protocol(Front(es)) && !Last(es).body.ToolCalls?
    requires Last(es).body.UserMessage? || IsStep(Last(es).body) || Last(es).body.TurnTerminated?
    ensures Protocol(es)
  {
    hide Shape, Answered, Declared, Complete, Pending, InOrder, Good, ScanAll, TurnAfter, StepAfter, Groups;
    AllCompleteBefore(es);
    BoundaryStep(es);
    var p, e := Front(es), Last(es);
    if InContext(e.body) {
      NewGroup(e);
      InOrderAppends(Groups(p), e, |p|);
    } else {
      InOrderGrows(Groups(p), |p|);
    }
  }

  /** The replay after an event that declares no call: no call is in progress. */
  lemma {:induction false} BoundaryStep(es: seq<Event>)
    requires Good(es) && es != [] && Protocol(Front(es)) && !Last(es).body.ToolCalls?
    requires Last(es).body.UserMessage? || IsStep(Last(es).body) || Last(es).body.TurnTerminated?
    ensures Last(es).id == |es|
    ensures InContext(Last(es).body) && !Last(es).body.UserMessage? ==> ScanAll(Front(es)).inTurn
    ensures Groups(es) == if InContext(Last(es).body) then Groups(Front(es)) + [[Last(es)]] else Groups(Front(es))
    ensures var s, before := ScanAll(es), ScanAll(Front(es));
            && s.Scanning? && s.inTurn == TurnAfter(es).Some?
            && s.inTurn == (before.inTurn || Last(es).body.UserMessage?)
            && s.answered == (if Last(es).body.UserMessage? then map[] else before.answered)
            && (s.step.Some? ==> StepAfter(es).Some? && s.step.value.key == Known(StepAfter(es).value))
            && (s.step.Some? ==> s.inTurn && s.step.value.calls == [])
  {
    hide Shape, Answered, Declared, Complete, Pending, InOrder;
    assert Started(es) && ScanAll(es) == Advance(ScanAll(Front(es)), Last(es));
  }

  lemma {:induction false} InOrderGrows(groups: seq<seq<Event>>, n: nat)
    requires InOrder(groups, n)
    ensures InOrder(groups, n + 1)
  {
  }

  lemma {:induction false} NewGroup(e: Event)
    requires InContext(e.body) && !IsTerminal(e.body)
    requires e.body.ToolCalls? ==> Distinct(CallIds(e.body.calls))
    ensures Shape([e]) && Answered([e]) == {}
    ensures !e.body.ToolCalls? ==> Complete([e])
  {
  }

  lemma {:induction false} InOrderAppends(groups: seq<seq<Event>>, e: Event, n: nat)
    requires InOrder(groups, n) && (groups != [] ==> Complete(Last(groups)))
    requires Shape([e]) && e.id == n + 1
    ensures InOrder(groups + [[e]], n + 1)
  {
  }

  lemma {:induction false} NewCallsPending(s: Scan, e: Event)
    requires s.Scanning? && s.inTurn && e.body.ToolCalls? && Advance(s, e).Scanning?
    requires forall c | c in s.answered :: s.answered[c]
    ensures Pending(Advance(s, e), [e])
    ensures forall c | c in Advance(s, e).answered && !Advance(s, e).answered[c] :: c in CallIds(e.body.calls)
  {
    DeclareMeaning(s.answered, e.body.calls);
    assert Answered([e]) == {};
    var ids, d := CallIds(e.body.calls), Declare(s.answered, e.body.calls).value;
    forall c | c in ids ensures c in d && !d[c] {
      var k :| 0 <= k < |ids| && ids[k] == c;
      assert e.body.calls[k].id == c;
    }
  }

  /** An accepted outcome answers a call of the response in progress. */
  lemma {:induction false} OutcomeIsPending(p: seq<Event>, e: Event)
    requires Protocol(p) && Stamped(p, e) && IsTerminal(e.body) && TurnAfter(p).Some?
    requires Advance(ScanAll(p), e).Scanning?
    ensures Groups(p) != []
    ensures Pending(ScanAll(p), Last(Groups(p))) && Shape(Last(Groups(p)))
    ensures var g: seq<Event> := Last(Groups(p));
            e.step == Some(g[0].id) && e.body.callId !in Answered(g) && e.body.callId in Declared(g)
  {
    DeclaredIsCallIds(Last(Groups(p)));
  }

  lemma {:induction false} ShapeExtends(g: seq<Event>, e: Event)
    requires Shape(g) && g[0].body.ToolCalls? && IsTerminal(e.body)
    requires e.step == Some(g[0].id) && e.body.callId !in Answered(g) && e.body.callId in Declared(g)
    ensures Shape(g + [e])
  {
    AnsweredAppend(g, e);
    forall i | 1 <= i < |g| ensures g[i].body.callId != e.body.callId {
      assert g[i] in g;
    }
  }

  lemma {:induction false} ProtocolOutcome(es: seq<Event>)
    requires Good(es) && es != [] && Protocol(Front(es))
    requires IsTerminal(Last(es).body)
    ensures Protocol(es)
  {
    var p, e := Front(es), Last(es);
    assert Started(es);
    OutcomeIsPending(p, e);
    var groups := Groups(p);
    var g: seq<Event> := Last(groups);
    ShapeExtends(g, e);
    PendingExtends(ScanAll(p), g, e);
    InOrderExtends(groups, g + [e], |p|);
    assert Groups(es) == Front(groups) + [g + [e]];
  }

  lemma {:induction false} InOrderExtends(groups: seq<seq<Event>>, g: seq<Event>, n: nat)
    requires InOrder(groups, n) && groups != [] && Shape(g) && g[0] == Last(groups)[0]
    ensures InOrder(Front(groups) + [g], n + 1)
  {
  }

  lemma {:induction false} PendingExtends(s: Scan, g: seq<Event>, e: Event)
    requires s.Scanning? && Pending(s, g) && IsTerminal(e.body) && e.body.callId in s.answered
    ensures Pending(s.(answered := s.answered[e.body.callId := true]), g + [e])
  {
    AnsweredAppend(g, e);
  }

  // ---------------------------------------------------------------- atoms by dictionary

  datatype AtomId = OfEvent(n: nat) | OfStep(key: StepKey)

  datatype Atom = Atom(id: AtomId, items: seq<Event>, closed: bool, reasoning: Option<string>)

  /** The four dictionaries of the first pass. */
  datatype Tables = Tables(
    calls: map<StepKey, set<string>>,
    terminals: map<StepKey, set<string>>,
    reasoning: map<StepKey, Option<string>>,
    callStep: map<string, StepKey>)

  function Lookup<K, V>(m: map<K, V>, k: K, default: V): V {
    if k in m then m[k] else default
  }

  /** The step an outcome names itself, or else the step its call was declared in. */
  function OutcomeStep(e: Event, callStep: map<string, StepKey>): Option<StepKey>
    requires IsTerminal(e.body)
  {
    if e.step.Some? then Some(Known(e.step.value))
    else if e.body.callId in callStep then Some(callStep[e.body.callId])
    else None
  }

  function Tabulate(t: Tables, e: Event): Tables {
    if e.body.ToolCalls? then
      var key, ids := StepKeyOf(e), Declared([e]);
      Tables(t.calls[key := ids],
             t.terminals[key := Lookup(t.terminals, key, {})],
             t.reasoning[key := e.body.reasoning],
             t.callStep + map c | c in ids :: key)
    else if IsTerminal(e.body) && OutcomeStep(e, t.callStep).Some? then
      var key := OutcomeStep(e, t.callStep).value;
      t.(terminals := t.terminals[key := Lookup(t.terminals, key, {}) + {e.body.callId}])
    else t
  }

  function TablesOf(es: seq<Event>): Tables {
    if es == [] then Tables(map[], map[], map[], map[]) else Tabulate(TablesOf(Front(es)), Last(es))
  }

  /** An ordered dictionary of groups with their flags. */
  datatype Shelf = Shelf(
    order: seq<AtomId>,
    items: map<AtomId, seq<Event>>,
    closed: map<AtomId, bool>,
    reasoning: map<AtomId, Option<string>>)

  function AtomIdOf(e: Event, t: Tables): AtomId {
    if e.body.ToolCalls? then OfStep(StepKeyOf(e))
    else if IsTerminal(e.body) then
      var key := OutcomeStep(e, t.callStep);
      OfStep(if key.Some? then key.value else Orphan(e.id))
    else OfEvent(e.id)
  }

  predicate StepComplete(key: StepKey, t: Tables) {
    Lookup(t.calls, key, {}) != {} && Lookup(t.calls, key, {}) == Lookup(t.terminals, key, {})
  }

  function Place(s: Shelf, e: Event, t: Tables): Shelf {
    if !InContext(e.body) then s
    else
      var id := AtomIdOf(e, t);
      var closed := if e.body.ToolCalls? then s.closed[id := StepComplete(StepKeyOf(e), t)] else s.closed;
      var reasoning :=
        if e.body.ToolCalls? then s.reasoning[id := Lookup(t.reasoning, StepKeyOf(e), None)] else s.reasoning;
      Shelf(if id in s.items then s.order else s.order + [id],
            s.items[id := Lookup(s.items, id, []) + [e]],
            if id in closed then closed else closed[id := true],
            reasoning)
  }

  function ShelfOf(es: seq<Event>, t: Tables): Shelf {
    if es == [] then Shelf([], map[], map[], map[]) else Place(ShelfOf(Front(es), t), Last(es), t)
  }

  function AtomsOn(s: Shelf): seq<Atom> {
    seq(|s.order|, i requires 0 <= i < |s.order| =>
      var id := s.order[i];
      Atom(id, Lookup(s.items, id, []), Lookup(s.closed, id, true), Lookup(s.reasoning, id, None)))
  }

  function AtomsOf(es: seq<Event>): seq<Atom> { AtomsOn(ShelfOf(es, TablesOf(es))) }

  datatype Projection = Projected(atoms: seq<Atom>) | Rejected(why: Scan)

  /** `project_context_events`: one pass to fill the tables, one to fill the ordered dictionary. */
  method ProjectContextEvents(events: seq<Event>) returns (r: Projection)
    ensures r == (if Accepted(events) then Projected(AtomsOf(events)) else Rejected(ScanAll(events)))
  {
    hide TablesOf, ShelfOf, ScanAll;
    var scan := ProjectEvents(events);
    if !scan.Scanning? { return Rejected(scan); }
    var t := FillTables(events);
    var shelf := FillShelf(events, t);
    return Projected(AtomsOn(shelf));
  }

  /** The first pass: the calls and outcomes of every step. */
  method FillTables(events: seq<Event>) returns (t: Tables)
    ensures t == TablesOf(events)
  {
    var stepCalls: map<StepKey, set<string>> := map[];
    var stepTerminals: map<StepKey, set<string>> := map[];
    var stepReasoning: map<StepKey, Option<string>> := map[];
    var callStep: map<string, StepKey> := map[];
    for i := 0 to |events|
      invariant TablesOf(events[..i]) == Tables(stepCalls, stepTerminals, stepReasoning, callStep)
    {
      var e := events[i];
      FrontLast(events[..i], e);
      assert events[..i + 1] == events[..i] + [e];
      if e.body.ToolCalls? {
        var key, ids := StepKeyOf(e), Declared([e]);
        stepCalls := stepCalls[key := ids];
        if key !in stepTerminals { stepTerminals := stepTerminals[key := {}]; }
        stepReasoning := stepReasoning[key := e.body.reasoning];
        callStep := callStep + map c | c in ids :: key;
      } else if IsTerminal(e.body) {
        var key := OutcomeStep(e, callStep);
        if key.Some? {
          stepTerminals := stepTerminals[key.value := Lookup(stepTerminals, key.value, {}) + {e.body.callId}];
        }
      }
    }
    assert events[..|events|] == events;
    t := Tables(stepCalls, stepTerminals, stepReasoning, callStep);
  }

  /** The second pass: the items of every atom, in the order the atoms begin. */
  method FillShelf(events: seq<Event>, t: Tables) returns (s: Shelf)
    ensures s == ShelfOf(events, t)
  {
    var order: seq<AtomId> := [];
    var groups: map<AtomId, seq<Event>> := map[];
    var closed: map<AtomId, bool> := map[];
    var reasoning: map<AtomId, Option<string>> := map[];
    for i := 0 to |events|
      invariant ShelfOf(events[..i], t) == Shelf(order, groups, closed, reasoning)
    {
      var e := events[i];
      FrontLast(events[..i], e);
      assert events[..i + 1] == events[..i] + [e];
      if !InContext(e.body) { continue; }
      var id := AtomIdOf(e, t);
      if e.body.ToolCalls? {
        closed := closed[id := StepComplete(StepKeyOf(e), t)];
        reasoning := reasoning[id := Lookup(t.reasoning, StepKeyOf(e), None)];
      }
      if id !in groups {
        order := order + [id];
        groups := groups[id := []];
      }
      groups := groups[id := groups[id] + [e]];
      if id !in closed { closed := closed[id := true]; }
    }
    assert events[..|events|] == events;
    s := Shelf(order, groups, closed, reasoning);
  }

  // ---------------------------------------------------------------- the two readings agree

  function GroupId(g: seq<Event>): AtomId
    requires g != []
  {
    if g[0].body.ToolCalls? then OfStep(Known(g[0].id)) else OfEvent(g[0].id)
  }

  /** The atom that a group read in order stands for. */
  function AtomOf(g: seq<Event>): Atom
    requires g != []
  {
    Atom(GroupId(g), g,
         !g[0].body.ToolCalls? || (Declared(g) != {} && Declared(g) == Answered(g)),
         if g[0].body.ToolCalls? then g[0].body.reasoning else None)
  }

  /** The tables hold, for each group, what the group itself says. */
  ghost predicate TablesMatch(t: Tables, g: seq<Event>)
    requires g != []
  {
    g[0].body.ToolCalls? ==>
      var key := Known(g[0].id);
      && key in t.calls && t.calls[key] == Declared(g)
      && key in t.terminals && t.terminals[key] == Answered(g)
      && key in t.reasoning && t.reasoning[key] == g[0].body.reasoning
  }

  lemma {:induction false} GroupsNonEmpty(es: seq<Event>)
    ensures forall i | 0 <= i < |Groups(es)| :: Groups(es)[i] != []
  {
    if es != [] { GroupsNonEmpty(Front(es)); }
  }

  /** Every table entry belongs to a response already in the log. */
  ghost predicate TablesBounded(t: Tables, n: nat) {
    forall k | k in t.terminals :: k.Known? && k.n <= n
  }

  lemma {:induction false} TablesMatchGroups(es: seq<Event>)
    requires Good(es)
    ensures forall i | 0 <= i < |Groups(es)| :: Groups(es)[i] != [] && TablesMatch(TablesOf(es), Groups(es)[i])
    ensures TablesBounded(TablesOf(es), |es|)
  {
    hide StepAfter, Shape;
    if es != [] {
      var p, e := Front(es), Last(es);
      GoodFront(es);
      TablesMatchGroups(p);
      ProtocolHolds(p);
      assert Started(es) && Stamped(p, e);
      var groups, t := Groups(p), TablesOf(p);
      if e.body.ToolCalls? {
        assert Groups(es) == groups + [[e]];
        assert Answered([e]) == {};
        forall i | 0 <= i < |groups| ensures TablesMatch(TablesOf(es), groups[i]) {}
      } else if IsTerminal(e.body) {
        OutcomeIsPending(p, e);
        var g: seq<Event> := Last(groups);
        AnsweredAppend(g, e);
        assert TablesMatch(t, g);
        forall i | 0 <= i < |groups| - 1 ensures TablesMatch(TablesOf(es), groups[i]) {
          assert groups[i][0].id < g[0].id;
        }
      }
    }
  }

  /** The shelf after a prefix: one slot per group read so far, in the same order. */
  ghost predicate ShelfMatches(s: Shelf, groups: seq<seq<Event>>, t: Tables)
    requires forall i | 0 <= i < |groups| :: groups[i] != []
  {
    && |s.order| == |groups|
    && (forall i | 0 <= i < |groups| :: s.order[i] == GroupId(groups[i]))
    && (forall id | id in s.items :: id in s.order)
    && (forall i | 0 <= i < |groups| :: SlotMatches(s, groups[i], t))
    && (forall id | id in s.closed || id in s.reasoning :: id in s.items)
  }

  ghost predicate SlotMatches(s: Shelf, g: seq<Event>, t: Tables)
    requires g != []
  {
    var id := GroupId(g);
    && id in s.items && s.items[id] == g
    && id in s.closed
    && s.closed[id] == (g[0].body.ToolCalls? ==> StepComplete(Known(g[0].id), t))
    && (if g[0].body.ToolCalls?
        then id in s.reasoning && s.reasoning[id] == Lookup(t.reasoning, Known(g[0].id), None)
        else id !in s.reasoning)
  }

  lemma {:induction false} ShelfFollowsGroups(es: seq<Event>, t: Tables)
    requires Good(es)
    ensures forall i | 0 <= i < |Groups(es)| :: Groups(es)[i] != []
    ensures ShelfMatches(ShelfOf(es, t), Groups(es), t)
  {
    if es == [] {
      assert ShelfOf(es, t).order == [];
    } else {
      hide ShelfMatches, Accepted, Place, Good, Written, Pending, Complete, Shape, InOrder, ScanAll, StepAfter;
      var p, e := Front(es), Last(es);
      GoodFront(es);
      LastStep(es);
      ShelfFollowsGroups(p, t);
      GroupsNonEmpty(es);
      ProtocolHolds(p);
      var groups := Groups(p);
      if InContext(e.body) && IsTerminal(e.body) {
        OutcomeIsPending(p, e);
        JoinSlot(ShelfOf(p, t), groups, e, t, |p|);
      } else if InContext(e.body) {
        NewSlot(ShelfOf(p, t), groups, e, t, |p|);
      }
    }
  }

  lemma {:induction false} NewSlot(s: Shelf, groups: seq<seq<Event>>, e: Event, t: Tables, n: nat)
    requires InOrder(groups, n) && ShelfMatches(s, groups, t)
    requires InContext(e.body) && !IsTerminal(e.body) && e.id == n + 1
    requires e.body.ToolCalls? ==> e.step == Some(e.id)
    ensures ShelfMatches(Place(s, e, t), groups + [[e]], t)
  {
    var id := AtomIdOf(e, t);
    assert id == GroupId([e]);
    forall i | 0 <= i < |groups| ensures GroupId(groups[i]) != id { assert Shape(groups[i]); }
    assert id !in s.order;
    var s' := Place(s, e, t);
    forall i | 0 <= i < |groups| ensures SlotMatches(s', groups[i], t) { assert SlotMatches(s, groups[i], t); }
    assert SlotMatches(s', [e], t);
    var after := groups + [[e]];
    forall i | 0 <= i < |after| ensures SlotMatches(s', after[i], t) {
      assert i < |groups| ==> after[i] == groups[i];
    }
  }

  lemma {:induction false} JoinSlot(s: Shelf, groups: seq<seq<Event>>, e: Event, t: Tables, n: nat)
    requires InOrder(groups, n) && ShelfMatches(s, groups, t) && groups != []
    requires IsTerminal(e.body) && Last(groups)[0].body.ToolCalls? && e.step == Some(Last(groups)[0].id)
    ensures ShelfMatches(Place(s, e, t), Front(groups) + [Last(groups) + [e]], t)
  {
    var g: seq<Event> := Last(groups);
    var id := GroupId(g);
    assert SlotMatches(s, g, t);
    var s' := s.(items := s.items[id := g + [e]]);
    assert Place(s, e, t) == s';
    var after := Front(groups) + [g + [e]];
    forall i | 0 <= i < |after|
      ensures after[i] != [] && s.order[i] == GroupId(after[i]) && SlotMatches(s', after[i], t)
    {
      if i < |groups| - 1 {
        OtherSlot(s, groups[i], g, e, t);
      }
    }
  }

  lemma {:induction false} OtherSlot(s: Shelf, h: seq<Event>, g: seq<Event>, e: Event, t: Tables)
    requires h != [] && g != [] && h[0].id < g[0].id && SlotMatches(s, h, t)
    ensures SlotMatches(s.(items := s.items[GroupId(g) := g + [e]]), h, t)
  {
  }

  /** The dictionary grouping of a good log is its reading order. */
  lemma {:induction false} DictionaryGroupsAreContiguous(es: seq<Event>)
    requires Good(es)
    ensures |AtomsOf(es)| == |Groups(es)|
    ensures forall i | 0 <= i < |Groups(es)| :: Groups(es)[i] != [] && AtomsOf(es)[i] == AtomOf(Groups(es)[i])
  {
    var t := TablesOf(es);
    TablesMatchGroups(es);
    ShelfFollowsGroups(es, t);
    var s := ShelfOf(es, t);
    forall i | 0 <= i < |Groups(es)| ensures AtomsOf(es)[i] == AtomOf(Groups(es)[i]) {
      assert SlotMatches(s, Groups(es)[i], t);
    }
  }

  // ---------------------------------------------------------------- what the atoms promise

  /** The events of the atoms, one atom after another. */
  function Flatten(atoms: seq<Atom>): seq<Event> {
    if atoms == [] then [] else Flatten(Front(atoms)) + Last(atoms).items
  }

  /** The allowlisted events, in log order. */
  function ContextEvents(es: seq<Event>): seq<Event> {
    if es == [] then []
    else if InContext(Last(es).body) then ContextEvents(Front(es)) + [Last(es)]
    else ContextEvents(Front(es))
  }

  function AtomsOfGroups(groups: seq<seq<Event>>): seq<Atom>
    requires forall i | 0 <= i < |groups| :: groups[i] != []
  {
    seq(|groups|, i requires 0 <= i < |groups| => AtomOf(groups[i]))
  }

  /** The atoms of a good log, in reading order. */
  lemma {:induction false} AtomsAreGroups(es: seq<Event>)
    requires Good(es)
    ensures forall i | 0 <= i < |Groups(es)| :: Groups(es)[i] != []
    ensures AtomsOf(es) == AtomsOfGroups(Groups(es))
  {
    DictionaryGroupsAreContiguous(es);
  }

  lemma {:induction false} GroupsFlatten(es: seq<Event>)
    requires forall i | 0 <= i < |Groups(es)| :: Groups(es)[i] != []
    ensures Flatten(AtomsOfGroups(Groups(es))) == ContextEvents(es)
  {
    if es != [] {
      var p, e := Front(es), Last(es);
      GroupsNonEmpty(p);
      GroupsFlatten(p);
      var groups := Groups(p);
      hide ScanAll, Shape;
      if InContext(e.body) {
        var before, after := AtomsOfGroups(groups), AtomsOfGroups(Groups(es));
        if IsTerminal(e.body) && groups != [] {
          assert Front(after) == Front(before);
          assert Last(after).items == Last(before).items + [e];
        } else {
          assert Front(after) == before;
          assert Last(after).items == [e];
        }
      }
    }
  }

  /** Flattening the atoms of a good log gives back the allowlisted events in log order. */
  lemma {:induction false} FlattenIsContiguous(es: seq<Event>)
    requires Good(es)
    ensures Flatten(AtomsOf(es)) == ContextEvents(es)
  {
    AtomsAreGroups(es);
    GroupsFlatten(es);
  }

  /** An atom that starts with a call event: one outcome for each declared call, and nothing else. */
  ghost predicate Answers(items: seq<Event>) {
    && items != [] && items[0].body.ToolCalls?
    && |items| == 1 + |items[0].body.calls|
    && (forall i | 1 <= i < |items| :: IsTerminal(items[i].body) && items[i].step == Some(items[0].id))
    && (forall c | c in CallIds(items[0].body.calls) ::
          exists i | 1 <= i < |items| :: items[i].body.callId == c)
    && (forall i, j | 1 <= i < j < |items| :: items[i].body.callId != items[j].body.callId)
  }

  lemma {:induction false} DistinctCount<T>(s: seq<T>, t: set<T>)
    requires Distinct(s) && (forall x :: x in s <==> x in t)
    ensures |s| == |t|
    decreases |s|
  {
    if s == [] {
      assert t == {};
    } else {
      DistinctCount(Front(s), t - {Last(s)});
    }
  }

  function OutcomeId(e: Event): string { if IsTerminal(e.body) then e.body.callId else "" }

  function Outcomes(g: seq<Event>): (r: seq<string>)
    requires g != []
    ensures |r| == |g| - 1 && forall i | 1 <= i < |g| :: r[i - 1] == OutcomeId(g[i])
  {
    seq(|g| - 1, i requires 0 <= i < |g| - 1 => OutcomeId(g[i + 1]))
  }

  lemma {:induction false} OutcomesAreAnswered(g: seq<Event>)
    requires Shape(g) && g[0].body.ToolCalls?
    ensures Distinct(Outcomes(g)) && forall c :: c in Outcomes(g) <==> c in Answered(g)
  {
    forall c | c in Outcomes(g) ensures c in Answered(g) {
      var i :| 0 <= i < |g| - 1 && Outcomes(g)[i] == c;
      assert g[i + 1] in g;
    }
    forall c | c in Answered(g) ensures c in Outcomes(g) {
      var e :| e in g && IsTerminal(e.body) && e.body.callId == c;
      var i :| 0 <= i < |g| && g[i] == e;
      assert Outcomes(g)[i - 1] == c;
    }
  }

  lemma {:induction false} CompleteAnswers(g: seq<Event>)
    requires Shape(g) && g[0].body.ToolCalls? && Complete(g)
    ensures Answers(g)
  {
    DeclaredIsCallIds(g);
    OutcomesAreAnswered(g);
    DistinctCount(CallIds(g[0].body.calls), Declared(g));
    DistinctCount(Outcomes(g), Declared(g));
    forall c | c in CallIds(g[0].body.calls) ensures exists i | 1 <= i < |g| :: g[i].body.callId == c {
      assert c in Outcomes(g);
      var i :| 0 <= i < |g| - 1 && Outcomes(g)[i] == c;
      assert g[i + 1].body.callId == c;
    }
  }

  /** With no response in progress, every call atom is its call event and exactly its outcomes. */
  lemma {:induction false} CallAtomsAnswer(es: seq<Event>)
    requires Good(es) && NoOpenStep(es)
    ensures forall a | a in AtomsOf(es) :: a.items != []
    ensures forall a | a in AtomsOf(es) ::
              if a.items[0].body.ToolCalls? then Answers(a.items) && a.reasoning == a.items[0].body.reasoning
              else |a.items| == 1 && !IsTerminal(a.items[0].body) && a.closed && a.reasoning == None
  {
    AtomsAreGroups(es);
    ProtocolHolds(es);
    ClosedMeansComplete(es);
    var groups := Groups(es);
    forall a | a in AtomsOf(es)
      ensures a.items != []
      ensures if a.items[0].body.ToolCalls? then Answers(a.items) && a.reasoning == a.items[0].body.reasoning
              else |a.items| == 1 && !IsTerminal(a.items[0].body) && a.closed && a.reasoning == None
    {
      var i :| 0 <= i < |groups| && AtomsOf(es)[i] == a;
      assert Shape(groups[i]);
      if a.items[0].body.ToolCalls? { CompleteAnswers(groups[i]); }
    }
  }

  lemma {:induction false} CallsHeadGroups(es: seq<Event>, k: nat)
    requires Good(es) && k < |es| && es[k].body.ToolCalls?
    ensures exists i | 0 <= i < |Groups(es)| :: Groups(es)[i] != [] && Groups(es)[i][0] == es[k]
    decreases |es|
  {
    var p, e := Front(es), Last(es);
    GoodFront(es);
    GroupsNonEmpty(p);
    if k == |es| - 1 {
      assert Groups(es) == Groups(p) + [[e]];
      assert Groups(es)[|Groups(p)|][0] == es[k];
    } else {
      CallsHeadGroups(p, k);
      var i :| 0 <= i < |Groups(p)| && Groups(p)[i][0] == p[k];
      assert Groups(es)[i][0] == Groups(p)[i][0] == es[k];
    }
  }

  ghost predicate AllClosed(atoms: seq<Atom>) { forall a | a in atoms :: a.closed }

  /**
   When a request can be built: no response is in progress, and no response declared an
   empty list of calls.  Such a response passes the replay but its atom never closes.
   */
  lemma {:induction false} AllClosedMeaning(es: seq<Event>)
    requires Good(es)
    ensures AllClosed(AtomsOf(es)) <==>
              NoOpenStep(es) && forall k | 0 <= k < |es| && es[k].body.ToolCalls? :: es[k].body.calls != []
  {
    AtomsAreGroups(es);
    ProtocolHolds(es);
    var groups, s := Groups(es), ScanAll(es);
    if AllClosed(AtomsOf(es)) {
      if groups != [] && Pending(s, Last(groups)) {
        assert AtomsOf(es)[|groups| - 1] in AtomsOf(es);
        DeclaredIsCallIds(Last(groups));
      }
      forall k | 0 <= k < |es| && es[k].body.ToolCalls? ensures es[k].body.calls != [] {
        CallsHeadGroups(es, k);
        var i :| 0 <= i < |groups| && groups[i][0] == es[k];
        assert AtomsOf(es)[i] in AtomsOf(es);
      }
    }
    if NoOpenStep(es) && forall k | 0 <= k < |es| && es[k].body.ToolCalls? :: es[k].body.calls != [] {
      ClosedMeansComplete(es);
      forall a | a in AtomsOf(es) ensures a.closed {
        var i :| 0 <= i < |groups| && AtomsOf(es)[i] == a;
        GroupHeads(es, i);
        var k :| 0 <= k < |es| && es[k] == groups[i][0];
        if es[k].body.ToolCalls? {
          assert es[k].body.calls[0].id in Declared(groups[i]);
        }
      }
    }
  }

  /** Such a log: a response that declares an empty list of calls is accepted, and its atom never closes. */
  lemma {:induction false} EmptyCallsNeverClose()
    ensures var es := Then(Then([], UserMessage("", None)), ToolCalls("", None, []));
            Good(es) && NoOpenStep(es) && !AllClosed(AtomsOf(es))
  {
    hide AtomsOf, Groups;
    var asked := Then([], UserMessage("", None));
    var es := Then(asked, ToolCalls("", None, []));
    FrontLast([], Stamp([], UserMessage("", None)));
    FrontLast(asked, Stamp(asked, ToolCalls("", None, [])));
    assert Good(asked) && NoOpenStep(asked);
    AllClosedMeaning(es);
    assert es[1].body == ToolCalls("", None, []);
  }

  lemma {:induction false} GroupHeads(es: seq<Event>, i: nat)
    requires i < |Groups(es)|
    ensures Groups(es)[i] != [] && exists k | 0 <= k < |es| :: es[k] == Groups(es)[i][0]
  {
    GroupsNonEmpty(es);
    if es != [] {
      GroupsNonEmpty(Front(es));
      if i < |Groups(Front(es))| {
        GroupHeads(Front(es), i);
        var k :| 0 <= k < |es| - 1 && Front(es)[k] == Groups(Front(es))[i][0];
        assert es[k] == Groups(es)[i][0];
      } else {
        assert es[|es| - 1] == Groups(es)[i][0];
      }
    }
  }

  // ---------------------------------------------------------------- growth

  lemma {:induction false} GroupsGrow(es: seq<Event>, n: nat)
    requires Good(es) && n <= |es| && NoOpenStep(es[..n])
    ensures Groups(es[..n]) <= Groups(es)
    ensures Groups(es) == Groups(es[..n]) ==>
              forall c | c in ScanAll(es).answered :: ScanAll(es).answered[c]
    decreases |es|
  {
    if n == |es| {
      assert es[..n] == es;
      ProtocolHolds(es);
      ClosedMeansComplete(es);
    } else {
      var p, e := Front(es), Last(es);
      GoodFront(es);
      assert p[..n] == es[..n];
      GroupsGrow(p, n);
      ProtocolHolds(p);
      assert Started(es);
      if InContext(e.body) && IsTerminal(e.body) {
        OutcomeIsPending(p, e);
        var g: seq<Event> := Last(Groups(p));
        DeclaredIsCallIds(g);
        assert Groups(p) != Groups(es[..n]);
        assert |Groups(es[..n])| < |Groups(p)|;
      }
    }
  }

  /** Once no response is in progress, a log's atoms stay a prefix of those of every good extension. */
  lemma {:induction false} AtomsAreStable(es: seq<Event>, n: nat)
    requires Good(es) && n <= |es| && NoOpenStep(es[..n])
    ensures AtomsOf(es[..n]) <= AtomsOf(es)
  {
    GoodPrefix(es, n);
    AtomsAreGroups(es[..n]);
    AtomsAreGroups(es);
    GroupsGrow(es, n);
  }

  /** Events that are neither conversation nor responses. */
  predicate Quiet(b: Body) { !InContext(b) && !IsStep(b) }

  /** A quiet event changes neither the replay nor the atoms. */
  lemma {:induction false} QuietAppend(es: seq<Event>, e: Event)
    requires Good(es) && Stamped(es, e) && Quiet(e.body)
    ensures Good(es + [e]) && ScanAll(es + [e]) == ScanAll(es) && AtomsOf(es + [e]) == AtomsOf(es)
    ensures TurnAfter(es + [e]) == TurnAfter(es) && StepAfter(es + [e]) == StepAfter(es)
  {
    FrontLast(es, e);
    WrittenAppend(es, e);
    AtomsAreGroups(es);
    AtomsAreGroups(es + [e]);
  }
}
