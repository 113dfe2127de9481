/**
 The execution supervisor: jobs, stop requests and approvals of many sessions, as critical
 sections that any threads may enter in any order.

 A record object is known by its job id, so "the same record" is "the same job id".
 */
module Supervisor {
  import opened Collections
  import opened Options
  import opened SessionLog
  import opened TurnBudget

  type SessionId = string

  datatype RecordState = Running | AwaitingApproval | Stopping

  /** What a worker is doing between two critical sections. */
  datatype Worker = Active | Waiting(approval: nat) | Exited

  datatype Job = Job(
    session: SessionId, state: RecordState, stopRequested: bool, pendingApproval: Option<nat>, worker: Worker)

  datatype PendingApproval = PendingApproval(session: SessionId, job: nat, decision: Option<bool>)

  datatype BudgetIncrease = BudgetIncrease(turn: Option<nat>, expected: int, newLimit: Option<int>, additional: Option<int>)

  datatype StopResult = Refused | AcceptedIdle | AcceptedJob(job: nat)

  // ---------------------------------------------------------------- what a log records

  function Occurrences(es: seq<Event>, b: Body): nat {
    if es == [] then 0 else Occurrences(Front(es), b) + if Last(es).body == b then 1 else 0
  }

  function Requests(es: seq<Event>, approval: nat): nat {
    if es == [] then 0
    else Requests(Front(es), approval)
         + if Last(es).body.ApprovalRequested? && Last(es).body.approval == approval then 1 else 0
  }

  function Decisions(es: seq<Event>, approval: nat): nat {
    if es == [] then 0
    else Decisions(Front(es), approval)
         + if Last(es).body.ApprovalDecided? && Last(es).body.approval == approval then 1 else 0
  }

  /** The events that only the supervisor writes. */
  predicate IsSupervision(b: Body) {
    b.StopRequested? || b.StopAcknowledged? || b.ApprovalRequested? || b.ApprovalDecided?
  }

  /** Every acknowledgement finds the turn closed and its request already written. */
  ghost predicate AcksClosed(es: seq<Event>) {
    es == [] ||
    (AcksClosed(Front(es)) &&
     (Last(es).body.StopAcknowledged? ==>
        Closed(Front(es)) && Occurrences(Front(es), StopRequested(Last(es).body.job)) == 1))
  }

  /** Every granted approval was granted with no stop of its job requested. */
  ghost predicate GrantsClean(es: seq<Event>) {
    es == [] ||
    (GrantsClean(Front(es)) &&
     (Last(es).body.ApprovalDecided? && Last(es).body.allowed ==>
        !Last(es).body.aborted && Occurrences(Front(es), StopRequested(Last(es).body.job)) == 0))
  }

  lemma {:induction false} CountsAppend(es: seq<Event>, e: Event)
    ensures forall b :: Occurrences(es + [e], b) == Occurrences(es, b) + if e.body == b then 1 else 0
    ensures forall a :: Requests(es + [e], a) ==
              Requests(es, a) + if e.body.ApprovalRequested? && e.body.approval == a then 1 else 0
    ensures forall a :: Decisions(es + [e], a) ==
              Decisions(es, a) + if e.body.ApprovalDecided? && e.body.approval == a then 1 else 0
    ensures AcksClosed(es) && !e.body.StopAcknowledged? ==> AcksClosed(es + [e])
    ensures AcksClosed(es) && e.body.StopAcknowledged? && Closed(es) && Occurrences(es, StopRequested(e.body.job)) == 1 ==>
              AcksClosed(es + [e])
    ensures GrantsClean(es) && !(e.body.ApprovalDecided? && e.body.allowed) ==> GrantsClean(es + [e])
    ensures (GrantsClean(es) && e.body.ApprovalDecided? && !e.body.aborted
             && Occurrences(es, StopRequested(e.body.job)) == 0) ==> GrantsClean(es + [e])
  {
    FrontLast(es, e);
  }

  // ---------------------------------------------------------------- what the tables promise

  predicate Live(jobs: map<nat, Job>, job: nat) { job in jobs && !jobs[job].worker.Exited? }

  /** The stop requests of one job in one session's log. */
  ghost predicate StopLedger(es: seq<Event>, sid: SessionId, jobs: map<nat, Job>, issued: set<nat>, j: nat) {
    var requested, acknowledged := Occurrences(es, StopRequested(j)), Occurrences(es, StopAcknowledged(j));
    if Live(jobs, j) && jobs[j].session == sid then
      requested == (if jobs[j].stopRequested then 1 else 0) && acknowledged == 0
    else
      requested == acknowledged <= 1 && (j !in issued ==> requested == 0)
  }

  /** One approval in one session's log: asked once, decided once, and open in between. */
  ghost predicate ApprovalLedger(
    es: seq<Event>, sid: SessionId, approvals: map<nat, PendingApproval>, issued: set<nat>, a: nat)
  {
    && Requests(es, a) <= 1
    && (a !in issued ==> Requests(es, a) == 0)
    && if a in approvals && approvals[a].session == sid then Requests(es, a) == 1 && Decisions(es, a) == 0
       else Decisions(es, a) == Requests(es, a)
  }

  ghost predicate LogOk(
    es: seq<Event>, sid: SessionId, jobs: map<nat, Job>, approvals: map<nat, PendingApproval>, issued: set<nat>)
  {
    && AcksClosed(es) && GrantsClean(es)
    && (forall j :: StopLedger(es, sid, jobs, issued, j))
    && (forall a :: ApprovalLedger(es, sid, approvals, issued, a))
  }

  /** A record's fields agree with what its worker is doing. */
  ghost predicate RecordOk(jobs: map<nat, Job>, approvals: map<nat, PendingApproval>, j: nat)
    requires j in jobs
  {
    var job := jobs[j];
    match job.worker
    case Exited => job.pendingApproval.None?
    case Active => job.pendingApproval.None? && job.state == if job.stopRequested then Stopping else Running
    case Waiting(a) =>
      && job.pendingApproval == Some(a) && a in approvals
      && approvals[a].job == j && approvals[a].session == job.session
      && job.state == (if job.stopRequested then Stopping else AwaitingApproval)
      && (job.stopRequested ==> approvals[a].decision == Some(false))
  }

  ghost predicate TablesOk(
    records: map<SessionId, nat>, jobs: map<nat, Job>, approvals: map<nat, PendingApproval>, issued: set<nat>)
  {
    && jobs.Keys <= issued && approvals.Keys <= issued
    && (forall s | s in records :: Live(jobs, records[s]) && jobs[records[s]].session == s)
    && (forall j | Live(jobs, j) :: jobs[j].session in records && records[jobs[j].session] == j)
    && (forall j | j in jobs :: RecordOk(jobs, approvals, j))
    && (forall a | a in approvals :: approvals[a].job in jobs && jobs[approvals[a].job].worker == Waiting(a))
  }

  /** The tables say the same about one session. */
  ghost predicate SameFor(
    sid: SessionId, jobs: map<nat, Job>, approvals: map<nat, PendingApproval>,
    jobs': map<nat, Job>, approvals': map<nat, PendingApproval>)
  {
    && (forall j :: (Live(jobs, j) && jobs[j].session == sid) <==> (Live(jobs', j) && jobs'[j].session == sid))
    && (forall j | Live(jobs, j) && jobs[j].session == sid :: jobs'[j].stopRequested == jobs[j].stopRequested)
    && (forall a :: (a in approvals && approvals[a].session == sid) <==> (a in approvals' && approvals'[a].session == sid))
  }

  lemma {:induction false} LogFrame(
    es: seq<Event>, sid: SessionId, jobs: map<nat, Job>, approvals: map<nat, PendingApproval>, issued: set<nat>,
    jobs': map<nat, Job>, approvals': map<nat, PendingApproval>, issued': set<nat>)
    requires LogOk(es, sid, jobs, approvals, issued) && SameFor(sid, jobs, approvals, jobs', approvals') && issued <= issued'
    ensures LogOk(es, sid, jobs', approvals', issued')
  {
    forall k ensures StopLedger(es, sid, jobs', issued', k) { assert StopLedger(es, sid, jobs, issued, k); }
    forall a ensures ApprovalLedger(es, sid, approvals', issued', a) { assert ApprovalLedger(es, sid, approvals, issued, a); }
  }

  lemma {:induction false} LogPlain(
    es: seq<Event>, e: Event, sid: SessionId, jobs: map<nat, Job>, approvals: map<nat, PendingApproval>, issued: set<nat>)
    requires LogOk(es, sid, jobs, approvals, issued) && !IsSupervision(e.body)
    ensures LogOk(es + [e], sid, jobs, approvals, issued)
  {
    CountsAppend(es, e);
    forall k ensures StopLedger(es + [e], sid, jobs, issued, k) { assert StopLedger(es, sid, jobs, issued, k); }
    forall a ensures ApprovalLedger(es + [e], sid, approvals, issued, a) {
      assert ApprovalLedger(es, sid, approvals, issued, a);
    }
  }

  /** A live job's first stop request is recorded. */
  lemma {:induction false} LogStop(
    es: seq<Event>, e: Event, sid: SessionId, j: nat,
    jobs: map<nat, Job>, approvals: map<nat, PendingApproval>, issued: set<nat>, jobs': map<nat, Job>)
    requires LogOk(es, sid, jobs, approvals, issued) && e.body == StopRequested(j)
    requires Live(jobs, j) && jobs[j].session == sid && !jobs[j].stopRequested
    requires Live(jobs', j) && jobs'[j].session == sid && jobs'[j].stopRequested
    requires forall k | k != j :: (k in jobs' <==> k in jobs) && (k in jobs ==> jobs'[k] == jobs[k])
    ensures LogOk(es + [e], sid, jobs', approvals, issued)
  {
    CountsAppend(es, e);
    forall k ensures StopLedger(es + [e], sid, jobs', issued, k) { assert StopLedger(es, sid, jobs, issued, k); }
    forall a ensures ApprovalLedger(es + [e], sid, approvals, issued, a) {
      assert ApprovalLedger(es, sid, approvals, issued, a);
    }
  }

  /** A job leaves: with its acknowledgement if its stop was requested, without any trace if not. */
  lemma {:induction false} LogExit(
    es: seq<Event>, sid: SessionId, j: nat,
    jobs: map<nat, Job>, approvals: map<nat, PendingApproval>, issued: set<nat>, jobs': map<nat, Job>)
    requires LogOk(es, sid, jobs, approvals, issued)
    requires j in issued && Live(jobs, j) && jobs[j].session == sid && !Live(jobs', j)
    requires forall k | k != j :: (k in jobs' <==> k in jobs) && (k in jobs ==> jobs'[k] == jobs[k])
    ensures !jobs[j].stopRequested ==> LogOk(es, sid, jobs', approvals, issued)
    ensures forall e: Event | jobs[j].stopRequested && e.body == StopAcknowledged(j) && Closed(es) ::
              LogOk(es + [e], sid, jobs', approvals, issued)
  {
    assert StopLedger(es, sid, jobs, issued, j);
    if !jobs[j].stopRequested {
      forall k ensures StopLedger(es, sid, jobs', issued, k) { assert StopLedger(es, sid, jobs, issued, k); }
    }
    forall e: Event | jobs[j].stopRequested && e.body == StopAcknowledged(j) && Closed(es)
      ensures LogOk(es + [e], sid, jobs', approvals, issued)
    {
      CountsAppend(es, e);
      forall k ensures StopLedger(es + [e], sid, jobs', issued, k) { assert StopLedger(es, sid, jobs, issued, k); }
      forall a ensures ApprovalLedger(es + [e], sid, approvals, issued, a) {
        assert ApprovalLedger(es, sid, approvals, issued, a);
      }
    }
  }

  lemma {:induction false} LogIdleStop(
    es: seq<Event>, sid: SessionId, j: nat, jobs: map<nat, Job>, approvals: map<nat, PendingApproval>, issued: set<nat>)
    requires LogOk(es, sid, jobs, approvals, issued) && j !in issued && j !in jobs
    ensures LogOk(StoppedIdle(es, j), sid, jobs, approvals, issued + {j})
    ensures Occurrences(StoppedIdle(es, j), StopRequested(j)) == Occurrences(StoppedIdle(es, j), StopAcknowledged(j)) == 1
    ensures Closed(StoppedIdle(es, j))
  {
    var request := Stamp(es, StopRequested(j));
    var a := es + [request];
    var close := Stamp(a, TurnTerminated("user_stop"));
    var b := a + [close];
    var ack := Stamp(b, StopAcknowledged(j));
    CountsAppend(es, request);
    CountsAppend(a, close);
    CountsAppend(b, ack);
    FrontLast(a, close);
    FrontLast(b, ack);
    assert StopLedger(es, sid, jobs, issued, j);
    forall k ensures StopLedger(b + [ack], sid, jobs, issued + {j}, k) { assert StopLedger(es, sid, jobs, issued, k); }
    forall x ensures ApprovalLedger(b + [ack], sid, approvals, issued + {j}, x) {
      assert ApprovalLedger(es, sid, approvals, issued, x);
    }
  }

  lemma {:induction false} LogAsk(
    es: seq<Event>, e: Event, sid: SessionId, a: nat, pending: PendingApproval,
    jobs: map<nat, Job>, approvals: map<nat, PendingApproval>, issued: set<nat>)
    requires LogOk(es, sid, jobs, approvals, issued) && a !in issued && a !in approvals
    requires e.body == ApprovalRequested(a, pending.job) && pending.session == sid
    ensures LogOk(es + [e], sid, jobs, approvals[a := pending], issued + {a})
  {
    CountsAppend(es, e);
    forall k ensures StopLedger(es + [e], sid, jobs, issued + {a}, k) { assert StopLedger(es, sid, jobs, issued, k); }
    var approvals', issued' := approvals[a := pending], issued + {a};
    forall x ensures ApprovalLedger(es + [e], sid, approvals', issued', x) {
      assert ApprovalLedger(es, sid, approvals, issued, x);
    }
  }

  lemma {:induction false} LogDecide(
    es: seq<Event>, e: Event, sid: SessionId, a: nat, jobs: map<nat, Job>, approvals: map<nat, PendingApproval>, issued: set<nat>)
    requires LogOk(es, sid, jobs, approvals, issued) && a in issued
    requires a in approvals && approvals[a].session == sid
    requires e.body.ApprovalDecided? && e.body.approval == a
    requires Live(jobs, e.body.job) && jobs[e.body.job].session == sid
    requires e.body.allowed ==> !e.body.aborted && !jobs[e.body.job].stopRequested
    ensures LogOk(es + [e], sid, jobs, approvals - {a}, issued)
  {
    CountsAppend(es, e);
    assert StopLedger(es, sid, jobs, issued, e.body.job);
    forall k ensures StopLedger(es + [e], sid, jobs, issued, k) { assert StopLedger(es, sid, jobs, issued, k); }
    forall x ensures ApprovalLedger(es + [e], sid, approvals - {a}, issued, x) {
      assert ApprovalLedger(es, sid, approvals, issued, x);
    }
  }

  /** One job's record changes in place. */
  lemma {:induction false} TablesUpdate(
    records: map<SessionId, nat>, jobs: map<nat, Job>, approvals: map<nat, PendingApproval>, issued: set<nat>,
    j: nat, job: Job, approvals': map<nat, PendingApproval>, issued': set<nat>)
    requires TablesOk(records, jobs, approvals, issued) && Live(jobs, j) && issued <= issued' && approvals'.Keys <= issued'
    requires !job.worker.Exited? && job.session == jobs[j].session
    requires RecordOk(jobs[j := job], approvals', j)
    requires forall a :: (a in approvals' && approvals'[a].job != j) <==> (a in approvals && approvals[a].job != j)
    requires forall a | a in approvals' && approvals'[a].job != j :: approvals'[a] == approvals[a]
    requires forall a | a in approvals' && approvals'[a].job == j :: job.worker == Waiting(a)
    ensures TablesOk(records, jobs[j := job], approvals', issued')
  {
    var jobs' := jobs[j := job];
    forall k | k in jobs' ensures RecordOk(jobs', approvals', k) { if k != j { assert RecordOk(jobs, approvals, k); } }
  }

  lemma {:induction false} TablesStart(
    records: map<SessionId, nat>, jobs: map<nat, Job>, approvals: map<nat, PendingApproval>, issued: set<nat>, sid: SessionId, j: nat)
    requires TablesOk(records, jobs, approvals, issued) && sid !in records && j !in issued
    ensures TablesOk(records[sid := j], jobs[j := Job(sid, Running, false, None, Active)], approvals, issued + {j})
  {
    var jobs' := jobs[j := Job(sid, Running, false, None, Active)];
    forall k | k in jobs' ensures RecordOk(jobs', approvals, k) { if k != j { assert RecordOk(jobs, approvals, k); } }
  }

  lemma {:induction false} TablesExit(
    records: map<SessionId, nat>, jobs: map<nat, Job>, approvals: map<nat, PendingApproval>, issued: set<nat>, j: nat)
    requires TablesOk(records, jobs, approvals, issued) && j in jobs && jobs[j].worker.Active?
    ensures var jobs' := jobs[j := jobs[j].(worker := Exited)];
            && TablesOk(records - {jobs[j].session}, jobs', approvals, issued)
            && forall s | s != jobs[j].session :: SameFor(s, jobs, approvals, jobs', approvals)
  {
    var jobs' := jobs[j := jobs[j].(worker := Exited)];
    assert RecordOk(jobs, approvals, j);
    forall k | k in jobs' ensures RecordOk(jobs', approvals, k) { if k != j { assert RecordOk(jobs, approvals, k); } }
  }

  /**
   A continuation needs an open turn that does not wait, or a raise of the limit it waits at; a new
   message needs a closed turn.
   */
  predicate MayStart(
    b: Budget, message: Option<string>, continuation: bool, increase: Option<BudgetIncrease>, workspaceReady: bool)
  {
    match increase
    case Some(i) => continuation && workspaceReady && MayRaise(b, i.turn, i.expected, i.newLimit, i.additional)
    case None => (continuation ==> !b.closed && !b.waiting) && (message.Some? ==> b.closed)
  }

  /** The log after the raise that came with a start. */
  function Raised(es: seq<Event>, default: nat, increase: Option<BudgetIncrease>): seq<Event>
    requires increase.Some? ==> RaiseTarget(BudgetOf(es, default), increase.value.newLimit, increase.value.additional) >= 0
  {
    match increase
    case Some(i) =>
      var b := BudgetOf(es, default);
      es + [Stamp(es, BudgetIncreased(b.limit, RaiseTarget(b, i.newLimit, i.additional)))]
    case None => es
  }

  class ExecutionSupervisor {
    const stores: map<SessionId, SessionStore>
    const default: nat
    /** The live record of each session. */
    var records: map<SessionId, nat>
    var approvals: map<nat, PendingApproval>
    /** Every record object there has been, with its worker. */
    var jobs: map<nat, Job>
    /** The identities handed out so far. */
    var issued: set<nat>
    /** The answers to each approval, in order; a stop answers with a refusal. */
    ghost var answers: map<nat, seq<bool>>

    ghost predicate Separate() { forall s, t | s in stores && t in stores && s != t :: stores[s] != stores[t] }

    ghost predicate LogsOk()
      reads this, stores.Values
    {
      forall s | s in stores :: stores[s].Valid() && LogOk(stores[s].events, s, jobs, approvals, issued)
    }

    ghost predicate Inv()
      reads this, stores.Values
    {
      && Separate() && LogsOk() && TablesOk(records, jobs, approvals, issued)
      && (forall j | j in jobs :: jobs[j].session in stores)
      && AnswersOk(approvals, answers)
    }

    constructor (stores: map<SessionId, SessionStore>, default: nat)
      requires forall s, t | s in stores && t in stores && s != t :: stores[s] != stores[t]
      requires forall s | s in stores :: stores[s].Valid()
      requires forall s | s in stores :: forall i | 0 <= i < |stores[s].events| :: !IsSupervision(stores[s].events[i].body)
      ensures Inv() && this.stores == stores && this.default == default && records == map[]
    {
      this.stores := stores;
      this.default := default;
      records := map[];
      approvals := map[];
      jobs := map[];
      issued := {};
      answers := map[];
      new;
      forall s | s in stores ensures LogOk(stores[s].events, s, jobs, approvals, issued) {
        NothingSupervised(stores[s].events, s);
      }
    }

    /** After a section of session `sid`: the other sessions see nothing of it. */
    twostate lemma OthersKeep(sid: SessionId)
      requires old(Separate() && LogsOk()) && sid in stores
      requires forall s | s in stores && s != sid ::
                 stores[s].events == old(stores[s].events) && stores[s].Valid() && SameFor(s, old(jobs), old(approvals), jobs, approvals)
      requires stores[sid].Valid() && LogOk(stores[sid].events, sid, jobs, approvals, issued) && old(issued) <= issued
      ensures LogsOk()
    {
      hide LogOk, SameFor, SessionStore.Valid;
      forall s | s in stores ensures stores[s].Valid() && LogOk(stores[s].events, s, jobs, approvals, issued) {
        if s != sid {
          LogFrame(stores[s].events, s, old(jobs), old(approvals), old(issued), jobs, approvals, issued);
        }
      }
    }

    /** An event of the worker itself: anything the supervisor does not own. */
    method WorkerEvent(j: nat, body: Body, turn: Option<nat>)
      requires Inv() && j in jobs && jobs[j].worker.Active? && !IsSupervision(body)
      modifies stores[jobs[j].session]
      ensures Inv()
    {
      hide LogOk, TablesOk, SessionStore.Valid;
      var sid := jobs[j].session;
      var store := stores[sid];
      ghost var es := store.events;
      ghost var e: Event;
      if IsDerived(body) {
        var ok := store.AppendDerivedEvents([body], turn, None);
        e := DerivedEvents(|es|, [body], turn)[0];
        assert DerivedEvents(|es|, [body], turn) == [e];
      } else {
        e := store.AppendEvent(body);
      }
      LogPlain(es, e, sid, jobs, approvals, issued);
    }

    /** A fresh UUID. */
    method FreshId() returns (id: nat)
      ensures id !in issued
    {
      var ids := issued;
      ghost var unused := Unused(ids);
      id :| id !in ids;
    }

    /**
     `start`: one job at a time, a new message only on a closed turn, a continuation only on a turn
     that is open and not waiting for budget, unless it raises the budget.
     */
    method Start(
      sid: SessionId, message: Option<string>, continuation: bool, increase: Option<BudgetIncrease>, workspaceReady: bool)
      returns (r: Option<nat>)
      requires Inv() && sid in stores
      modifies this`records, this`jobs, this`issued, stores[sid]
      ensures Inv()
      ensures sid in old(records) ==> r.None?
      ensures r.None? ==> records == old(records) && jobs == old(jobs) && stores[sid].events == old(stores[sid].events)
      ensures r.Some? ==>
                && r.value !in old(issued) && records == old(records)[sid := r.value]
                && jobs == old(jobs)[r.value := Job(sid, Running, false, None, Active)]
      ensures r.Some? <==>
                && sid !in old(records)
                && MayStart(BudgetOf(old(stores[sid].events), default), message, continuation, increase, workspaceReady)
      ensures var b := BudgetOf(old(stores[sid].events), default);
              && (increase.None? && message.Some? && !continuation ==> (r.Some? <==> sid !in old(records) && b.closed))
              && (increase.None? && message.None? && continuation ==>
                    (r.Some? <==> sid !in old(records) && !b.closed && !b.waiting))
              && (increase.None? && message.Some? && continuation ==> r.None?)
              && (increase.Some? && r.Some? ==> continuation && workspaceReady && !b.closed && b.waiting)
      ensures r.Some? ==>
                var es, es' := old(stores[sid].events), stores[sid].events;
                match increase
                case None => es' == es
                case Some(i) =>
                  && i.turn == TurnAfter(es) && i.expected == BudgetOf(es, default).limit
                  && |es'| == |es| + 1 && es <= es' && Last(es').body.BudgetIncreased? && Last(es').body.previous == i.expected
                  && (i.newLimit.Some? ==> Last(es').body.limit == i.newLimit.value)
                  && (i.additional.Some? ==> Last(es').body.limit == i.expected + i.additional.value)
      ensures r.Some? ==> stores[sid].events == Raised(old(stores[sid].events), default, increase)
    {
      hide LogOk, TablesOk, AcksClosed, Limit, Used, Closed;
      if sid in records { return None; }
      var store := stores[sid];
      var budget := CurrentTurnBudget(store.events, default);
      if increase.Some? {
        if !continuation { return None; }
        var i := increase.value;
        ghost var es := store.events;
        var raised := IncreaseTurnBudget(store, workspaceReady, default, i.turn, i.expected, i.newLimit, i.additional);
        if raised.None? { return None; }
        LogPlain(es, Last(store.events), sid, jobs, approvals, issued);
        assert Front(store.events) == es;
      } else if continuation && (budget.closed || budget.waiting) {
        return None;
      } else if message.Some? && !budget.closed {
        return None;
      }
      r := Launch(sid);
    }

    method Launch(sid: SessionId) returns (r: Option<nat>)
      requires Inv() && sid in stores && sid !in records
      modifies this`records, this`jobs, this`issued
      ensures Inv()
      ensures r.Some? && r.value !in old(issued) && records == old(records)[sid := r.value]
      ensures jobs == old(jobs)[r.value := Job(sid, Running, false, None, Active)]
    {
      hide LogOk, SessionStore.Valid, TablesOk, AnswersOk, LogsOk;
      var j := FreshId();
      UnknownJob(j);
      TablesStart(records, jobs, approvals, issued, sid, j);
      LogsLaunch(sid, j);
      records := records[sid := j];
      jobs := jobs[j := Job(sid, Running, false, None, Active)];
      issued := issued + {j};
      LogsAgain();
      r := Some(j);
    }

    lemma {:induction false} LogsLaunch(sid: SessionId, j: nat)
      requires LogsOk() && j !in issued && j !in jobs
      ensures forall s | s in stores :: stores[s].Valid()
                && LogOk(stores[s].events, s, jobs[j := Job(sid, Running, false, None, Active)], approvals, issued + {j})
    {
      hide LogOk, SessionStore.Valid;
      var jobs', issued' := jobs[j := Job(sid, Running, false, None, Active)], issued + {j};
      forall s | s in stores ensures LogOk(stores[s].events, s, jobs', approvals, issued') {
        LogLaunch(stores[s].events, s, j, sid, jobs, approvals, issued);
      }
    }

    /** `stop` */
    method Stop(sid: SessionId) returns (r: StopResult)
      requires Inv() && sid in stores
      modifies this`jobs, this`approvals, this`issued, this`answers, stores[sid]
      ensures Inv()
      ensures sid in records <==> r.AcceptedJob?
      ensures r.AcceptedJob? ==>
                && r.job == records[sid] && jobs == old(jobs)[r.job := Stopped(old(jobs)[r.job])]
                && approvals == Denied(old(approvals), old(jobs)[r.job].pendingApproval)
                && answers == DeniedAnswers(old(answers), old(jobs)[r.job].pendingApproval)
                && stores[sid].events == WithStop(old(stores[sid].events), r.job, old(jobs)[r.job].stopRequested)
                && Occurrences(stores[sid].events, StopRequested(r.job)) == 1
                && (jobs[r.job].worker.Waiting? ==> CanWake(r.job))
      ensures !r.AcceptedJob? ==> jobs == old(jobs) && approvals == old(approvals)
      ensures r.Refused? ==> Closed(old(stores[sid].events)) && stores[sid].events == old(stores[sid].events)
      ensures r.AcceptedIdle? ==> !Closed(old(stores[sid].events)) && Closed(stores[sid].events)
      ensures r.AcceptedIdle? ==> exists j | j !in old(issued) && j in issued ::
                && stores[sid].events == StoppedIdle(old(stores[sid].events), j)
                && Occurrences(stores[sid].events, StopRequested(j)) == Occurrences(stores[sid].events, StopAcknowledged(j)) == 1
    {
      hide LogOk, SessionStore.Valid, Occurrences, Closed;
      if sid !in records {
        r := StopIdle(sid);
      } else {
        StopJob(sid, records[sid]);
        StopIsCounted(stores[sid].events, sid, records[sid], jobs, approvals, issued);
        r := AcceptedJob(records[sid]);
      }
    }

    method StopIdle(sid: SessionId) returns (r: StopResult)
      requires Inv() && sid in stores && sid !in records
      modifies this`issued, stores[sid]
      ensures Inv() && !r.AcceptedJob?
      ensures r.Refused? ==> Closed(old(stores[sid].events)) && stores[sid].events == old(stores[sid].events)
      ensures r.AcceptedIdle? ==> !Closed(old(stores[sid].events)) && Closed(stores[sid].events)
      ensures r.AcceptedIdle? ==> exists j | j !in old(issued) && j in issued ::
                && stores[sid].events == StoppedIdle(old(stores[sid].events), j)
                && Occurrences(stores[sid].events, StopRequested(j)) == Occurrences(stores[sid].events, StopAcknowledged(j)) == 1
    {
      hide LogOk, TablesOk, LogsOk, Separate, SessionStore.Valid, SameFor, Occurrences, Live, Closed, StoppedIdle;
      StoreIsValid(sid);
      var store := stores[sid];
      var budget := CurrentTurnBudget(store.events, default);
      ClosedWithoutTurn(store.events);
      if budget.closed { return Refused; }
      var j := FreshId();
      UnknownJob(j);
      WriteIdleStop(store, j);
      issued := issued + {j};
      IdleStopKeeps(sid, j);
      r := AcceptedIdle;
    }

    lemma {:induction false} StoreIsValid(sid: SessionId)
      requires Inv() && sid in stores
      ensures stores[sid].Valid()
    {
    }

    /** The three events of a stop without a job. */
    method WriteIdleStop(store: SessionStore, j: nat)
      requires store.Valid()
      modifies store
      ensures store.Valid() && store.events == StoppedIdle(old(store.events), j)
    {
      hide SessionStore.Valid;
      var request := store.AppendEvent(StopRequested(j));
      var close := store.AppendEvent(TurnTerminated("user_stop"));
      var ack := store.AppendEvent(StopAcknowledged(j));
    }

    twostate lemma IdleStopKeeps(sid: SessionId, new j: nat)
      requires old(Separate() && LogsOk()) && TablesOk(records, jobs, approvals, old(issued))
      requires sid in stores && j !in old(issued) && j !in jobs && issued == old(issued) + {j}
      requires records == old(records) && jobs == old(jobs) && approvals == old(approvals)
      requires stores[sid].Valid() && stores[sid].events == StoppedIdle(old(stores[sid].events), j)
      requires forall s | s in stores && stores[s] != stores[sid] ::
                 stores[s].events == old(stores[s].events) && (old(stores[s].Valid()) ==> stores[s].Valid())
      ensures LogsOk() && TablesOk(records, jobs, approvals, issued)
      ensures Occurrences(stores[sid].events, StopRequested(j)) == Occurrences(stores[sid].events, StopAcknowledged(j)) == 1
      ensures Closed(stores[sid].events)
    {
      hide LogOk, TablesOk, SameFor, SessionStore.Valid, Occurrences, Closed;
      LogIdleStop(old(stores[sid].events), sid, j, jobs, approvals, old(issued));
      TablesIssue(records, jobs, approvals, old(issued), j);
      NothingMoved();
      OthersKeep(sid);
    }

    lemma {:induction false} UnknownJob(j: nat)
      requires TablesOk(records, jobs, approvals, issued) && j !in issued
      ensures j !in jobs && j !in approvals
    {
    }

    /** Nothing changed in any session's part of the tables. */
    twostate predicate SameEverywhere()
      reads this
    {
      forall s :: SameFor(s, old(jobs), old(approvals), jobs, approvals)
    }

    twostate lemma NothingMoved()
      requires jobs == old(jobs) && approvals == old(approvals)
      ensures SameEverywhere()
    {
    }

    /** A waiting worker's condition holds. */
    predicate CanWake(j: nat)
      requires j in jobs && jobs[j].worker.Waiting?
      reads this
    {
      jobs[j].stopRequested || (jobs[j].worker.approval in approvals && approvals[jobs[j].worker.approval].decision.Some?)
    }

    /** Only the first request is recorded. */
    method NoteStop(store: SessionStore, j: nat, already: bool)
      requires store.Valid()
      modifies store
      ensures store.Valid()
      ensures store.events == WithStop(old(store.events), j, already)
    {
      if !already {
        var e := store.AppendEvent(StopRequested(j));
      }
    }

    method StopJob(sid: SessionId, j: nat)
      requires Inv() && sid in stores && sid in records && records[sid] == j
      modifies this`jobs, this`approvals, this`answers, stores[sid]
      ensures Inv()
      ensures j in old(jobs) && jobs == old(jobs)[j := Stopped(old(jobs)[j])]
      ensures approvals == Denied(old(approvals), old(jobs)[j].pendingApproval)
      ensures answers == DeniedAnswers(old(answers), old(jobs)[j].pendingApproval)
      ensures stores[sid].events == WithStop(old(stores[sid].events), j, old(jobs)[j].stopRequested)
    {
      hide LogOk, SameFor, TablesOk, RecordOk, Denied, SessionStore.Valid, Live, Occurrences, WithStop, Stopped,
        AnswersOk, DeniedAnswers;
      RecordIsLive(records, jobs, approvals, issued, sid);
      var store := stores[sid];
      TablesStop(records, jobs, approvals, issued, j);
      LogStopped(store.events, sid, j, jobs, approvals, issued);
      NoteStop(store, j, jobs[j].stopRequested);
      AnswersDenied(approvals, answers, jobs[j].pendingApproval);
      answers := DeniedAnswers(answers, jobs[j].pendingApproval);
      approvals := Denied(approvals, jobs[j].pendingApproval);
      jobs := jobs[j := Stopped(jobs[j])];
      OthersKeep(sid);
    }

    /** `resolve_approval`: a later answer replaces an earlier one until the waiter wakes. */
    method ResolveApproval(sid: SessionId, approval: nat, allow: bool) returns (ok: bool)
      requires Inv()
      modifies this`approvals, this`answers
      ensures Inv()
      ensures ok <==> sid in records && approval in old(approvals) && old(approvals)[approval].job == records[sid]
                      && !jobs[records[sid]].stopRequested
      ensures ok ==> approvals == old(approvals)[approval := old(approvals)[approval].(decision := Some(allow))]
      ensures ok ==> CanWakeFor(approval)
      ensures ok ==> approval in old(answers) && answers == old(answers)[approval := old(answers)[approval] + [allow]]
      ensures !ok ==> approvals == old(approvals) && answers == old(answers)
    {
      hide LogOk, SessionStore.Valid, TablesOk, AnswersOk, LogsOk, RecordOk, Live, CanWake;
      if sid !in records || approval !in approvals || approvals[approval].job != records[sid] { return false; }
      var j := records[sid];
      ApprovalWaits(approval);
      if jobs[j].stopRequested { return false; }
      var answered := approvals[approval := approvals[approval].(decision := Some(allow))];
      AnswerKeeps(approval, Some(allow), answered);
      AnswersAnswered(approvals, answers, approval, allow);
      approvals := answered;
      answers := answers[approval := answers[approval] + [allow]];
      LogsAgain();
      AnswerWakes(approval);
      ok := true;
    }

    lemma {:induction false} ApprovalWaits(a: nat)
      requires TablesOk(records, jobs, approvals, issued) && AnswersOk(approvals, answers) && a in approvals
      ensures a in answers && approvals[a].job in jobs && jobs[approvals[a].job].worker == Waiting(a)
    {
    }

    lemma {:induction false} AnswerWakes(a: nat)
      requires a in approvals && approvals[a].decision.Some? && approvals[a].job in jobs
      requires jobs[approvals[a].job].worker == Waiting(a)
      ensures CanWakeFor(a)
    {
    }

    lemma {:induction false} LogsAgain()
      requires forall s | s in stores :: stores[s].Valid() && LogOk(stores[s].events, s, jobs, approvals, issued)
      ensures LogsOk()
    {
      hide LogOk, SessionStore.Valid;
    }

    predicate CanWakeFor(approval: nat)
      reads this
    {
      && approval in approvals && approvals[approval].job in jobs
      && jobs[approvals[approval].job].worker.Waiting? && CanWake(approvals[approval].job)
    }

    lemma {:induction false} AnswerKeeps(a: nat, decision: Option<bool>, answered: map<nat, PendingApproval>)
      requires Inv() && a in approvals && approvals[a].job in jobs && !jobs[approvals[a].job].stopRequested
      requires answered == approvals[a := approvals[a].(decision := decision)]
      ensures TablesOk(records, jobs, answered, issued)
      ensures forall s | s in stores :: stores[s].Valid() && LogOk(stores[s].events, s, jobs, answered, issued)
    {
      hide LogOk, SessionStore.Valid, SameFor, Live, Occurrences, WithStop;
      var j := approvals[a].job;
      assert RecordOk(jobs, approvals, j);
      forall k | k in jobs ensures RecordOk(jobs, answered, k) { assert RecordOk(jobs, approvals, k); }
      forall s | s in stores ensures LogOk(stores[s].events, s, jobs, answered, issued) {
        SameDecisions(s, jobs, approvals, answered);
        LogFrame(stores[s].events, s, jobs, approvals, issued, jobs, answered, issued);
      }
    }

    /** The first section of `await_approval`. */
    method AwaitBegin(j: nat) returns (approval: Option<nat>)
      requires Inv() && j in jobs && jobs[j].worker.Active?
      modifies this`jobs, this`approvals, this`issued, this`answers, stores[jobs[j].session]
      ensures Inv()
      ensures approval.None? <==> old(jobs[j]).stopRequested
      ensures approval.None? ==>
                jobs == old(jobs) && approvals == old(approvals) && stores[jobs[j].session].events == old(stores[jobs[j].session].events)
      ensures approval.Some? ==>
                var a, sid, es := approval.value, old(jobs)[j].session, old(stores[jobs[j].session].events);
                && a !in old(issued) && jobs == old(jobs)[j := Asking(old(jobs)[j], a)]
                && approvals == old(approvals)[a := PendingApproval(sid, j, None)] && answers == old(answers)[a := []]
                && stores[sid].events == es + [Stamp(es, ApprovalRequested(a, j))]
    {
      hide LogOk, TablesOk, SameFor, SessionStore.Valid, AnswersOk, Asking, Live;
      var sid := jobs[j].session;
      if sid !in records || records[sid] != j || jobs[j].stopRequested {
        LiveWorker(records, jobs, approvals, issued, j);
        return None;
      }
      var a := FreshId();
      UnknownJob(a);
      ghost var es := stores[sid].events;
      var pending := PendingApproval(sid, j, None);
      TablesAsk(records, jobs, approvals, issued, j, a);
      var e := stores[sid].AppendEvent(ApprovalRequested(a, j));
      WorkerIsLive(jobs, j);
      LogAsked(es, e, sid, a, j, jobs, approvals, issued);
      AnswersAsked(approvals, answers, a, pending);
      AskingSession(jobs[j], a);
      jobs := jobs[j := Asking(jobs[j], a)];
      approvals := approvals[a := pending];
      answers := answers[a := []];
      issued := issued + {a};
      OthersKeep(sid);
      approval := Some(a);
    }

    /**
     The second section of `await_approval`: `None` while there is neither an answer nor a stop.
     The worker goes on with a yes only if the last answer was yes and no stop was requested.
     */
    method AwaitWake(j: nat) returns (r: Option<bool>)
      requires Inv() && j in jobs && jobs[j].worker.Waiting?
      modifies this`jobs, this`approvals, stores[jobs[j].session]
      ensures Inv()
      ensures r.None? <==> !old(CanWake(j))
      ensures r.None? ==> jobs == old(jobs) && approvals == old(approvals)
      ensures r.Some? ==>
                var job, a, es := old(jobs)[j], old(jobs)[j].worker.approval, old(stores[jobs[j].session].events);
                && jobs == old(jobs)[j := Woken(job)] && a in old(approvals) && approvals == old(approvals) - {a}
                && a in answers && r.value == (Latest(answers[a]) == Some(true) && !job.stopRequested)
                && stores[job.session].events == es + [Stamp(es, ApprovalDecided(a, j, r.value, job.stopRequested))]
                && Decisions(stores[job.session].events, a) == 1
      ensures r == Some(true) ==> old(records).Values >= {j} && Occurrences(old(stores[jobs[j].session].events), StopRequested(j)) == 0
    {
      hide LogOk, TablesOk, SameFor, SessionStore.Valid, Occurrences, Decisions, Woken, Live;
      var job := jobs[j];
      var a := job.worker.approval;
      var sid := job.session;
      WaitingRecord(records, jobs, approvals, issued, j);
      if approvals[a].decision.None? && !job.stopRequested { return None; }
      var allowed := approvals[a].decision == Some(true) && !job.stopRequested;
      ghost var es := stores[sid].events;
      TablesDecide(records, jobs, approvals, issued, j);
      NoStopYet(es, sid, j, jobs, approvals, issued);
      var e := stores[sid].AppendEvent(ApprovalDecided(a, j, allowed, job.stopRequested));
      WorkerIsLive(jobs, j);
      LogDecided(es, e, sid, a, j, jobs, approvals, issued);
      WokenSession(job);
      jobs := jobs[j := Woken(job)];
      approvals := approvals - {a};
      OthersKeep(sid);
      r := Some(allowed);
    }

    /** A yes that is followed by a no before the worker wakes: the worker is told no. */
    method YesThenNo(sid: SessionId, a: nat) returns (r: Option<bool>)
      requires Inv() && sid in records && a in approvals && approvals[a].job == records[sid] && records[sid] in jobs
      requires !jobs[records[sid]].stopRequested && jobs[records[sid]].worker == Waiting(a)
      modifies this`jobs, this`approvals, this`answers, stores[jobs[records[sid]].session]
      ensures Inv() && r == Some(false)
      ensures a in old(answers) && answers == old(answers)[a := old(answers)[a] + [true, false]]
    {
      hide LogOk, TablesOk, LogsOk, SessionStore.Valid;
      var j := records[sid];
      var first := ResolveApproval(sid, a, true);
      var second := ResolveApproval(sid, a, false);
      r := AwaitWake(j);
      assert old(answers)[a] + [true] + [false] == old(answers)[a] + [true, false];
    }

    /** The runner raised. */
    method WorkerFails(j: nat)
      requires Inv() && j in jobs && jobs[j].worker.Active?
      modifies stores[jobs[j].session]
      ensures Inv() && stores[jobs[j].session].events == ClosedLog(old(stores[jobs[j].session].events), "runtime_error")
    {
      hide LogOk, TablesOk, SessionStore.Valid, Closed, ClosedLog;
      CloseOpenTurn(j, "runtime_error");
    }

    /** The turn is closed if it is not yet. */
    method CloseOpenTurn(j: nat, reason: string)
      requires Inv() && j in jobs && jobs[j].worker.Active?
      modifies stores[jobs[j].session]
      ensures Inv() && Closed(stores[jobs[j].session].events)
      ensures stores[jobs[j].session].events == ClosedLog(old(stores[jobs[j].session].events), reason)
    {
      hide LogOk, TablesOk, SessionStore.Valid;
      var store := stores[jobs[j].session];
      var budget := CurrentTurnBudget(store.events, default);
      ClosedWithoutTurn(store.events);
      if !budget.closed {
        ghost var es := store.events;
        var e := store.AppendEvent(TurnTerminated(reason));
        LogPlain(es, e, jobs[j].session, jobs, approvals, issued);
        FrontLast(es, e);
      }
    }

    /** The last section of a worker: close a stopped turn, acknowledge, and leave the tables. */
    method Finish(j: nat)
      requires Inv() && j in jobs && jobs[j].worker.Active?
      modifies this`records, this`jobs, stores[jobs[j].session]
      ensures Inv()
      ensures jobs == old(jobs)[j := old(jobs)[j].(worker := Exited)] && records == old(records) - {old(jobs)[j].session}
      ensures var es := stores[old(jobs[j]).session].events;
              && Occurrences(es, StopRequested(j)) == Occurrences(es, StopAcknowledged(j)) == (if old(jobs[j]).stopRequested then 1 else 0)
              && (old(jobs[j]).stopRequested ==> Closed(es))
              && es == FinishedLog(old(stores[jobs[j].session].events), j, old(jobs[j]).stopRequested)
    {
      hide LogOk, TablesOk, SameFor, SessionStore.Valid, Occurrences, AnswersOk, ClosedLog, Closed;
      var job := jobs[j];
      var sid := job.session;
      var store := stores[sid];
      LiveWorker(records, jobs, approvals, issued, j);
      TablesExit(records, jobs, approvals, issued, j);
      CloseStopped(sid, j);
      LogExit(store.events, sid, j, jobs, approvals, issued, jobs[j := job.(worker := Exited)]);
      ExitCounts(store.events, sid, j, jobs, approvals, issued);
      Acknowledge(store, j, job.stopRequested);
      records := records - {sid};
      jobs := jobs[j := job.(worker := Exited)];
      OthersKeep(sid);
    }

    method Acknowledge(store: SessionStore, j: nat, stopRequested: bool)
      requires store.Valid() && (stopRequested ==> Closed(store.events))
      modifies store
      ensures store.Valid() && (stopRequested ==> Closed(store.events))
      ensures var es := old(store.events);
              store.events == if stopRequested then es + [Stamp(es, StopAcknowledged(j))] else es
    {
      if stopRequested {
        ghost var es := store.events;
        var ack := store.AppendEvent(StopAcknowledged(j));
        ClosedStays(es, ack);
      }
    }

    method CloseStopped(sid: SessionId, j: nat)
      requires Inv() && sid in stores && j in jobs && jobs[j].worker.Active? && jobs[j].session == sid
      modifies stores[sid]
      ensures Inv()
      ensures jobs[j].stopRequested ==> Closed(stores[sid].events)
      ensures stores[sid].events ==
              if jobs[j].stopRequested then ClosedLog(old(stores[sid].events), "user_stop") else old(stores[sid].events)
    {
      if jobs[j].stopRequested { CloseOpenTurn(j, "user_stop"); }
    }

    /** At most one worker of a session is alive. */
    lemma {:induction false} OneLiveJob(j: nat, k: nat)
      requires Inv() && Live(jobs, j) && Live(jobs, k) && jobs[j].session == jobs[k].session
      ensures j == k && records[jobs[j].session] == j
    {
      LiveWorker(records, jobs, approvals, issued, j);
    }

    /** No stop is lost: a job that is gone has as many acknowledgements as requests, at most one of each. */
    lemma {:induction false} NoStopIsLost(sid: SessionId, j: nat, i: nat)
      requires Inv() && sid in stores && !Live(jobs, j)
      ensures var es := stores[sid].events;
              Occurrences(es, StopRequested(j)) == Occurrences(es, StopAcknowledged(j)) <= 1
      ensures i < |stores[sid].events| && stores[sid].events[i].body == StopAcknowledged(j) ==>
                Closed(stores[sid].events[..i]) && Occurrences(stores[sid].events[..i], StopRequested(j)) == 1
    {
      assert StopLedger(stores[sid].events, sid, jobs, issued, j);
      if i < |stores[sid].events| && stores[sid].events[i].body == StopAcknowledged(j) { AckMeans(stores[sid].events, i); }
    }

    /** Every approval is asked at most once, and decided exactly once unless its worker still waits. */
    lemma {:induction false} EachApprovalDecidedOnce(sid: SessionId, a: nat)
      requires Inv() && sid in stores
      ensures var es := stores[sid].events;
              && Requests(es, a) <= 1
              && (Decisions(es, a) == Requests(es, a) || (a in approvals && jobs[approvals[a].job].worker == Waiting(a)))
    {
      assert ApprovalLedger(stores[sid].events, sid, approvals, issued, a);
    }

    /** Any interleaving of any number of sections. */
    method AnyInterleaving(steps: nat)
      requires Inv() && stores.Keys != {}
      modifies this, stores.Values
      ensures Inv()
    {
      for n := 0 to steps
        invariant Inv()
      {
        AnySection();
      }
    }

    method AnySection()
      requires Inv() && stores.Keys != {}
      modifies this, stores.Values
      ensures Inv()
    {
      hide LogsOk, TablesOk;
      var sid: SessionId :| sid in stores;
      var j: nat, a: nat, coin: bool, body: Body, turn: Option<nat> :| true;
      var message: Option<string>, continuation: bool, increase: Option<BudgetIncrease> :| true;
      if
      case true => var r := Start(sid, message, continuation, increase, coin);
      case true => var r := Stop(sid);
      case true => var r := ResolveApproval(sid, a, coin);
      case j in jobs && jobs[j].worker.Active? && !IsSupervision(body) => WorkerEvent(j, body, turn);
      case j in jobs && jobs[j].worker.Active? => var r := AwaitBegin(j);
      case j in jobs && jobs[j].worker.Waiting? => var r := AwaitWake(j);
      case j in jobs && jobs[j].worker.Active? => WorkerFails(j);
      case j in jobs && jobs[j].worker.Active? => Finish(j);
    }
  }

  lemma {:induction false} AckMeans(es: seq<Event>, i: nat)
    requires AcksClosed(es) && i < |es| && es[i].body.StopAcknowledged?
    ensures Closed(es[..i]) && Occurrences(es[..i], StopRequested(es[i].body.job)) == 1
  {
    if i == |es| - 1 {
      assert es[..i] == Front(es);
    } else {
      AckMeans(Front(es), i);
      assert Front(es)[..i] == es[..i];
    }
  }

  function Asking(job: Job, a: nat): Job {
    job.(state := AwaitingApproval, pendingApproval := Some(a), worker := Waiting(a))
  }

  function Woken(job: Job): Job {
    job.(state := if job.stopRequested then Stopping else Running, pendingApproval := None, worker := Active)
  }

  lemma {:induction false} RecordIsLive(
    records: map<SessionId, nat>, jobs: map<nat, Job>, approvals: map<nat, PendingApproval>, issued: set<nat>, sid: SessionId)
    requires TablesOk(records, jobs, approvals, issued) && sid in records
    ensures Live(jobs, records[sid]) && records[sid] in jobs && jobs[records[sid]].session == sid
  {
  }

  lemma {:induction false} LiveWorker(
    records: map<SessionId, nat>, jobs: map<nat, Job>, approvals: map<nat, PendingApproval>, issued: set<nat>, j: nat)
    requires TablesOk(records, jobs, approvals, issued) && Live(jobs, j)
    ensures jobs[j].session in records && records[jobs[j].session] == j && j in issued
    ensures forall k | k != j && Live(jobs, k) :: jobs[k].session != jobs[j].session
  {
  }

  lemma {:induction false} WaitingRecord(
    records: map<SessionId, nat>, jobs: map<nat, Job>, approvals: map<nat, PendingApproval>, issued: set<nat>, j: nat)
    requires TablesOk(records, jobs, approvals, issued) && j in jobs && jobs[j].worker.Waiting?
    ensures var a := jobs[j].worker.approval;
            && a in approvals && a in issued && approvals[a].session == jobs[j].session && approvals[a].job == j
    ensures j in records.Values
  {
    assert RecordOk(jobs, approvals, j);
    assert records[jobs[j].session] == j;
  }

  lemma {:induction false} TablesAsk(
    records: map<SessionId, nat>, jobs: map<nat, Job>, approvals: map<nat, PendingApproval>, issued: set<nat>, j: nat, a: nat)
    requires TablesOk(records, jobs, approvals, issued) && j in jobs && jobs[j].worker.Active? && !jobs[j].stopRequested
    requires a !in issued && a !in approvals
    ensures var jobs', approvals' := jobs[j := Asking(jobs[j], a)], approvals[a := PendingApproval(jobs[j].session, j, None)];
            && TablesOk(records, jobs', approvals', issued + {a})
            && forall s | s != jobs[j].session :: SameFor(s, jobs, approvals, jobs', approvals')
  {
    var jobs', approvals' := jobs[j := Asking(jobs[j], a)], approvals[a := PendingApproval(jobs[j].session, j, None)];
    assert RecordOk(jobs, approvals, j);
    TablesUpdate(records, jobs, approvals, issued, j, Asking(jobs[j], a), approvals', issued + {a});
    forall s | s != jobs[j].session ensures SameFor(s, jobs, approvals, jobs', approvals') {
      SameAfter(s, jobs, approvals, j, Asking(jobs[j], a), approvals');
    }
  }

  lemma {:induction false} TablesDecide(
    records: map<SessionId, nat>, jobs: map<nat, Job>, approvals: map<nat, PendingApproval>, issued: set<nat>, j: nat)
    requires TablesOk(records, jobs, approvals, issued) && j in jobs && jobs[j].worker.Waiting?
    ensures var jobs', approvals' := jobs[j := Woken(jobs[j])], approvals - {jobs[j].worker.approval};
            && TablesOk(records, jobs', approvals', issued)
            && forall s | s != jobs[j].session :: SameFor(s, jobs, approvals, jobs', approvals')
  {
    var a := jobs[j].worker.approval;
    var jobs', approvals' := jobs[j := Woken(jobs[j])], approvals - {a};
    assert RecordOk(jobs, approvals, j);
    TablesUpdate(records, jobs, approvals, issued, j, Woken(jobs[j]), approvals', issued);
    forall s | s != jobs[j].session ensures SameFor(s, jobs, approvals, jobs', approvals') {
      SameAfter(s, jobs, approvals, j, Woken(jobs[j]), approvals');
    }
  }

  lemma {:induction false} NoStopYet(
    es: seq<Event>, sid: SessionId, j: nat, jobs: map<nat, Job>, approvals: map<nat, PendingApproval>, issued: set<nat>)
    requires LogOk(es, sid, jobs, approvals, issued) && Live(jobs, j) && jobs[j].session == sid
    ensures !jobs[j].stopRequested ==> Occurrences(es, StopRequested(j)) == 0
  {
    assert StopLedger(es, sid, jobs, issued, j);
  }

  lemma {:induction false} DecidedOnce(
    es: seq<Event>, e: Event, sid: SessionId, a: nat, jobs: map<nat, Job>, approvals: map<nat, PendingApproval>, issued: set<nat>)
    requires LogOk(es, sid, jobs, approvals, issued) && a in approvals && approvals[a].session == sid
    requires e.body.ApprovalDecided? && e.body.approval == a
    ensures Decisions(es + [e], a) == Requests(es + [e], a) == 1
  {
    CountsAppend(es, e);
    assert ApprovalLedger(es, sid, approvals, issued, a);
  }

  lemma {:induction false} ExitCounts(
    es: seq<Event>, sid: SessionId, j: nat, jobs: map<nat, Job>, approvals: map<nat, PendingApproval>, issued: set<nat>)
    requires LogOk(es, sid, jobs, approvals, issued) && Live(jobs, j) && jobs[j].session == sid
    ensures Occurrences(es, StopAcknowledged(j)) == 0
    ensures Occurrences(es, StopRequested(j)) == if jobs[j].stopRequested then 1 else 0
    ensures forall e: Event | jobs[j].stopRequested && e.body == StopAcknowledged(j) ::
              Occurrences(es + [e], StopAcknowledged(j)) == Occurrences(es + [e], StopRequested(j)) == 1
  {
    assert StopLedger(es, sid, jobs, issued, j);
    forall e: Event | jobs[j].stopRequested && e.body == StopAcknowledged(j)
      ensures Occurrences(es + [e], StopAcknowledged(j)) == Occurrences(es + [e], StopRequested(j)) == 1
    {
      CountsAppend(es, e);
    }
  }

  lemma {:induction false} ClosedStays(es: seq<Event>, e: Event)
    requires Closed(es) && !e.body.UserMessage?
    ensures Closed(es + [e])
  {
    FrontLast(es, e);
  }

  function Stopped(job: Job): Job { job.(state := Stopping, stopRequested := true) }

  /** The log with its turn closed, if it was open. */
  ghost function ClosedLog(es: seq<Event>, reason: string): seq<Event> {
    if Closed(es) then es else es + [Stamp(es, TurnTerminated(reason))]
  }

  /** The log after a worker left: a requested stop closes the turn and is acknowledged. */
  ghost function FinishedLog(es: seq<Event>, j: nat, stopRequested: bool): seq<Event> {
    if stopRequested then ClosedLog(es, "user_stop") + [Stamp(ClosedLog(es, "user_stop"), StopAcknowledged(j))] else es
  }

  /** A stop without a job: requested, closed and acknowledged at once. */
  function StoppedIdle(es: seq<Event>, j: nat): seq<Event> {
    var requested := es + [Stamp(es, StopRequested(j))];
    var closed := requested + [Stamp(requested, TurnTerminated("user_stop"))];
    closed + [Stamp(closed, StopAcknowledged(j))]
  }

  /** The log after a worker asked, beside the tables after it. */
  lemma {:induction false} LogAsked(
    es: seq<Event>, e: Event, sid: SessionId, a: nat, j: nat,
    jobs: map<nat, Job>, approvals: map<nat, PendingApproval>, issued: set<nat>)
    requires LogOk(es, sid, jobs, approvals, issued) && a !in issued && a !in approvals
    requires Live(jobs, j) && jobs[j].session == sid && e.body == ApprovalRequested(a, j)
    ensures LogOk(es + [e], sid, jobs[j := Asking(jobs[j], a)], approvals[a := PendingApproval(sid, j, None)], issued + {a})
  {
    hide LogOk, SameFor;
    var approvals' := approvals[a := PendingApproval(sid, j, None)];
    LogAsk(es, e, sid, a, PendingApproval(sid, j, None), jobs, approvals, issued);
    SameAfter(sid, jobs, approvals', j, Asking(jobs[j], a), approvals');
    LogFrame(es + [e], sid, jobs, approvals', issued + {a}, jobs[j := Asking(jobs[j], a)], approvals', issued + {a});
  }

  /** The log after a worker woke, beside the tables after it. */
  lemma {:induction false} LogDecided(
    es: seq<Event>, e: Event, sid: SessionId, a: nat, j: nat,
    jobs: map<nat, Job>, approvals: map<nat, PendingApproval>, issued: set<nat>)
    requires LogOk(es, sid, jobs, approvals, issued) && a in issued
    requires a in approvals && approvals[a].session == sid
    requires e.body.ApprovalDecided? && e.body.approval == a && e.body.job == j
    requires Live(jobs, j) && jobs[j].session == sid
    requires e.body.allowed ==> !e.body.aborted && !jobs[j].stopRequested
    ensures LogOk(es + [e], sid, jobs[j := Woken(jobs[j])], approvals - {a}, issued)
    ensures Decisions(es + [e], a) == 1
  {
    hide LogOk, SameFor;
    LogDecide(es, e, sid, a, jobs, approvals, issued);
    DecidedOnce(es, e, sid, a, jobs, approvals, issued);
    SameAfter(sid, jobs, approvals - {a}, j, Woken(jobs[j]), approvals - {a});
    LogFrame(es + [e], sid, jobs, approvals - {a}, issued, jobs[j := Woken(jobs[j])], approvals - {a}, issued);
  }

  lemma {:induction false} WorkerIsLive(jobs: map<nat, Job>, j: nat)
    requires j in jobs && !jobs[j].worker.Exited?
    ensures Live(jobs, j)
  {
  }

  lemma {:induction false} AskingSession(job: Job, a: nat)
    ensures Asking(job, a).session == job.session
  {
  }

  lemma {:induction false} WokenSession(job: Job)
    ensures Woken(job).session == job.session
  {
  }

  lemma {:induction false} AnswersAsked(
    approvals: map<nat, PendingApproval>, answers: map<nat, seq<bool>>, a: nat, pending: PendingApproval)
    requires AnswersOk(approvals, answers) && pending.decision.None?
    ensures AnswersOk(approvals[a := pending], answers[a := []])
  {
  }

  lemma {:induction false} AnswersAnswered(
    approvals: map<nat, PendingApproval>, answers: map<nat, seq<bool>>, a: nat, allow: bool)
    requires AnswersOk(approvals, answers) && a in approvals && a in answers
    ensures AnswersOk(approvals[a := approvals[a].(decision := Some(allow))], answers[a := answers[a] + [allow]])
  {
  }

  function Latest(s: seq<bool>): Option<bool> { if s == [] then None else Some(s[|s| - 1]) }

  /** The pending decision is the latest answer. */
  ghost predicate AnswersOk(approvals: map<nat, PendingApproval>, answers: map<nat, seq<bool>>) {
    forall a | a in approvals :: a in answers && approvals[a].decision == Latest(answers[a])
  }

  function DeniedAnswers(answers: map<nat, seq<bool>>, pending: Option<nat>): map<nat, seq<bool>> {
    if pending.Some? && pending.value in answers then answers[pending.value := answers[pending.value] + [false]] else answers
  }

  lemma {:induction false} AnswersDenied(approvals: map<nat, PendingApproval>, answers: map<nat, seq<bool>>, pending: Option<nat>)
    requires AnswersOk(approvals, answers)
    ensures AnswersOk(Denied(approvals, pending), DeniedAnswers(answers, pending))
  {
  }

  /** A stop answers the pending approval with a refusal. */
  function Denied(approvals: map<nat, PendingApproval>, pending: Option<nat>): map<nat, PendingApproval> {
    if pending.Some? && pending.value in approvals
    then approvals[pending.value := approvals[pending.value].(decision := Some(false))] else approvals
  }

  lemma {:induction false} TablesStop(
    records: map<SessionId, nat>, jobs: map<nat, Job>, approvals: map<nat, PendingApproval>, issued: set<nat>, j: nat)
    requires TablesOk(records, jobs, approvals, issued) && Live(jobs, j)
    ensures var jobs', approvals' := jobs[j := Stopped(jobs[j])], Denied(approvals, jobs[j].pendingApproval);
            && TablesOk(records, jobs', approvals', issued)
            && forall s | s != jobs[j].session :: SameFor(s, jobs, approvals, jobs', approvals')
  {
    var jobs', approvals' := jobs[j := Stopped(jobs[j])], Denied(approvals, jobs[j].pendingApproval);
    assert RecordOk(jobs, approvals, j);
    TablesUpdate(records, jobs, approvals, issued, j, Stopped(jobs[j]), approvals', issued);
    forall s | s != jobs[j].session ensures SameFor(s, jobs, approvals, jobs', approvals') {
      SameAfter(s, jobs, approvals, j, Stopped(jobs[j]), approvals');
    }
  }

  /** The log of the stopped job's session: its first request is recorded. */
  function WithStop(es: seq<Event>, j: nat, already: bool): seq<Event> {
    if already then es else es + [Stamp(es, StopRequested(j))]
  }

  lemma {:induction false} LogStopped(
    es: seq<Event>, sid: SessionId, j: nat, jobs: map<nat, Job>, approvals: map<nat, PendingApproval>, issued: set<nat>)
    requires LogOk(es, sid, jobs, approvals, issued) && Live(jobs, j) && jobs[j].session == sid
    ensures LogOk(WithStop(es, j, jobs[j].stopRequested), sid,
                  jobs[j := Stopped(jobs[j])], Denied(approvals, jobs[j].pendingApproval), issued)
  {
    var jobs', approvals' := jobs[j := Stopped(jobs[j])], Denied(approvals, jobs[j].pendingApproval);
    if jobs[j].stopRequested {
      SameAfter(sid, jobs, approvals, j, Stopped(jobs[j]), approvals');
      LogFrame(es, sid, jobs, approvals, issued, jobs', approvals', issued);
    } else {
      SameDecisions(sid, jobs', approvals, approvals');
      var e := Stamp(es, StopRequested(j));
      LogStop(es, e, sid, j, jobs, approvals, issued, jobs');
      LogFrame(es + [e], sid, jobs', approvals, issued, jobs', approvals', issued);
    }
  }

  lemma {:induction false} StopIsCounted(
    es: seq<Event>, sid: SessionId, j: nat, jobs: map<nat, Job>, approvals: map<nat, PendingApproval>, issued: set<nat>)
    requires LogOk(es, sid, jobs, approvals, issued) && Live(jobs, j) && jobs[j].session == sid && jobs[j].stopRequested
    ensures Occurrences(es, StopRequested(j)) == 1 && Occurrences(es, StopAcknowledged(j)) == 0
  {
    assert StopLedger(es, sid, jobs, issued, j);
  }

  lemma {:induction false} SameAfter(
    s: SessionId, jobs: map<nat, Job>, approvals: map<nat, PendingApproval>, j: nat, job: Job, approvals': map<nat, PendingApproval>)
    requires Live(jobs, j) && !job.worker.Exited? && job.session == jobs[j].session
    requires job.session == s ==> job.stopRequested == jobs[j].stopRequested
    requires forall a :: (a in approvals && approvals[a].session == s) <==> (a in approvals' && approvals'[a].session == s)
    ensures SameFor(s, jobs, approvals, jobs[j := job], approvals')
  {
  }

  lemma {:induction false} SameDecisions(
    s: SessionId, jobs: map<nat, Job>, approvals: map<nat, PendingApproval>, approvals': map<nat, PendingApproval>)
    requires forall a :: (a in approvals && approvals[a].session == s) <==> (a in approvals' && approvals'[a].session == s)
    ensures SameFor(s, jobs, approvals, jobs, approvals')
  {
  }

  lemma {:induction false} ClosedWithoutTurn(es: seq<Event>)
    ensures TurnAfter(es).None? ==> Closed(es)
  {
    if es != [] { ClosedWithoutTurn(Front(es)); }
  }

  lemma {:induction false} TablesIssue(
    records: map<SessionId, nat>, jobs: map<nat, Job>, approvals: map<nat, PendingApproval>, issued: set<nat>, j: nat)
    requires TablesOk(records, jobs, approvals, issued)
    ensures TablesOk(records, jobs, approvals, issued + {j})
  {
  }

  lemma {:induction false} LogLaunch(
    es: seq<Event>, s: SessionId, j: nat, sid: SessionId, jobs: map<nat, Job>, approvals: map<nat, PendingApproval>, issued: set<nat>)
    requires LogOk(es, s, jobs, approvals, issued) && j !in issued && j !in jobs
    ensures LogOk(es, s, jobs[j := Job(sid, Running, false, None, Active)], approvals, issued + {j})
  {
    var jobs', issued' := jobs[j := Job(sid, Running, false, None, Active)], issued + {j};
    assert StopLedger(es, s, jobs, issued, j);
    forall k ensures StopLedger(es, s, jobs', issued', k) { assert StopLedger(es, s, jobs, issued, k); }
    forall a ensures ApprovalLedger(es, s, approvals, issued', a) { assert ApprovalLedger(es, s, approvals, issued, a); }
  }

  lemma {:induction false} NothingSupervised(es: seq<Event>, sid: SessionId)
    requires forall i | 0 <= i < |es| :: !IsSupervision(es[i].body)
    ensures LogOk(es, sid, map[], map[], {})
  {
    if es != [] {
      var front := Front(es);
      NothingSupervised(front, sid);
      forall k ensures StopLedger(es, sid, map[], {}, k) { assert StopLedger(front, sid, map[], {}, k); }
      forall a ensures ApprovalLedger(es, sid, map[], {}, a) { assert ApprovalLedger(front, sid, map[], {}, a); }
    }
  }
}
