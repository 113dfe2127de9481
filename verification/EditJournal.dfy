/**
 The journaled edit transaction: `commit`, its rollback, and `ensure_recovered`.

 Every file-system step may finish, raise, or be the last thing the process does; a step that
 does not finish may or may not have taken effect.  What survives a kill is exactly the fields of
 `EditService` that are not ghost.
 */
module EditJournal {
  import opened Collections
  import opened Options
  import opened Paths
  import Planner = EditPlanner

  type Entry = Planner.Entry
  type Contents = Planner.Contents
  type Plan = Planner.Plan

  /** The worktree: files and directories by path. */
  type Tree = map<Path, Entry>

  datatype Fate = Done | Raised | Killed

  datatype TxState = Prepared | Committing | Committed | RecoveryRequired

  /** An `edit_transaction` event. */
  datatype Receipt = Receipt(id: nat, revision: nat, before: Contents, after: Contents, created: seq<Path>)

  /** `plan.json`: which planned paths existed, and the directories to create. */
  datatype StoredPlan = StoredPlan(existed: map<Path, bool>, created: seq<Path>)

  /** A transaction directory. */
  datatype Tx = Tx(state: Option<TxState>, plan: Option<StoredPlan>, backup: map<Path, string>, receipt: Option<Receipt>)

  /** How `commit` ends: `Escaped` is an error outside its own handlers, `Dead` a killed process. */
  datatype CommitResult = Finished(receipt: Receipt) | RolledBack | RollbackFailed | EventPending | Escaped | Dead

  datatype WorkspaceState = ChangesActive | Tainted | SessionRecoveryRequired

  // ---------------------------------------------------------------- trees

  function EntryOf(content: Option<string>): Option<Entry> {
    if content.Some? then Some(Planner.TextFile(content.value)) else None
  }

  /** Every entry lies in directories. */
  ghost predicate Rooted(d: Tree) {
    && [] !in d
    && forall p, k | p in d && 1 <= k < |p| :: Ancestor(p, k) in d && d[Ancestor(p, k)].Directory?
  }

  predicate ParentIsDir(d: Tree, p: Path)
    requires p != []
  {
    |p| == 1 || (Ancestor(p, |p| - 1) in d && d[Ancestor(p, |p| - 1)].Directory?)
  }

  predicate CanWrite(d: Tree, p: Path) { p != [] && ParentIsDir(d, p) && (p in d ==> !d[p].Directory?) }

  predicate CanMakeDir(d: Tree, p: Path) { p != [] && ParentIsDir(d, p) && p !in d }

  predicate IsEmptyDir(d: Tree, p: Path) { p in d && d[p].Directory? && forall q | q in d :: !IsAncestor(p, q) }

  lemma {:induction false} PutRooted(d: Tree, p: Path, e: Entry)
    requires Rooted(d) && p != [] && ParentIsDir(d, p) && (p in d ==> !d[p].Directory?)
    ensures Rooted(d[p := e])
  {
    var d' := d[p := e];
    forall q, k | q in d' && 1 <= k < |q| ensures Ancestor(q, k) in d' && d'[Ancestor(q, k)].Directory? {
      if q == p {
        if k < |p| - 1 { assert Ancestor(Ancestor(p, |p| - 1), k) == Ancestor(p, k); }
      } else {
        assert Ancestor(q, k) in d;
      }
    }
  }

  lemma {:induction false} DropRooted(d: Tree, p: Path)
    requires Rooted(d) && (p in d && d[p].Directory? ==> IsEmptyDir(d, p))
    ensures Rooted(d - {p})
  {
    forall q, k | q in d - {p} && 1 <= k < |q|
      ensures Ancestor(q, k) in d - {p} && (d - {p})[Ancestor(q, k)].Directory?
    {
      assert Ancestor(q, k) in d;
      assert IsAncestor(Ancestor(q, k), q);
    }
  }

  // ---------------------------------------------------------------- plans over a tree

  /** The plan was made for the tree `base`. */
  ghost predicate Fits(plan: Plan, base: Tree) {
    && plan.before.Keys == plan.after.Keys
    && (forall p | p in plan.before :: Get(base, p) == EntryOf(plan.before[p]) && p != [])
    && (forall p | p in plan.createdDirectories :: p !in base && p != [])
    && (forall i, j | 0 <= i < j < |plan.createdDirectories| ::
          plan.createdDirectories[i] != plan.createdDirectories[j]
          && |plan.createdDirectories[i]| <= |plan.createdDirectories[j]|)
  }

  /** No planned path is also a directory the plan creates. */
  ghost predicate Apart(plan: Plan) { forall p | p in plan.before :: p !in plan.createdDirectories }

  /** The parent of `p` is a directory of the tree, or one that the plan creates. */
  predicate ParentPlanned(plan: Plan, base: Tree, p: Path)
    requires p != []
  {
    ParentIsDir(base, p) || Ancestor(p, |p| - 1) in plan.createdDirectories
  }

  /** Every parent that the plan needs on the tree `base` is there, or is created first. */
  ghost predicate Supported(plan: Plan, base: Tree) {
    && Fits(plan, base)
    && (forall p | p in plan.after :: plan.after[p] != plan.before[p])
    && (forall p | p in plan.createdDirectories || (p in plan.after && plan.after[p].Some?) :: ParentPlanned(plan, base, p))
  }

  /** Nothing but a fault can stop the plan on the tree `base`. */
  ghost predicate Placeable(plan: Plan, base: Tree) { Supported(plan, base) && Apart(plan) }

  /** A directory stands where the plan has a file: the rollback cannot put that path back. */
  ghost predicate Stranded(plan: Plan, d: Tree) {
    exists p | p in plan.before && p in plan.createdDirectories :: Get(d, p) == Some(Planner.Directory)
  }

  function Lay(d: Tree, after: Contents, created: seq<Path>): Tree {
    map p | p in d.Keys + after.Keys + (set q | q in created) && (p in after ==> after[p].Some?)
      :: if p in after then Planner.TextFile(after[p].value) else if p in created then Planner.Directory else d[p]
  }

  /** Each path is as before, or as planned, or a directory the plan creates. */
  ghost predicate Between(base: Tree, plan: Plan, d: Tree) {
    forall p :: Midway(base, plan, d, p)
  }

  ghost predicate Midway(base: Tree, plan: Plan, d: Tree, p: Path) {
    || Get(d, p) == Get(base, p)
    || (p in plan.after && Get(d, p) == EntryOf(plan.after[p]))
    || (p in plan.createdDirectories && Get(d, p) == Some(Planner.Directory))
  }

  /** The worktree after the logged transactions, from the tree the session started with. */
  ghost function Replay(initial: Tree, events: seq<Receipt>): Tree {
    if events == [] then initial
    else
      var e := events[|events| - 1];
      Lay(Replay(initial, events[..|events| - 1]), e.after, e.created)
  }

  function Ids(events: seq<Receipt>): seq<nat> { seq(|events|, i requires 0 <= i < |events| => events[i].id) }

  ghost predicate Distinct(s: seq<nat>) { forall i, j | 0 <= i < j < |s| :: s[i] != s[j] }

  function Stored(plan: Plan): StoredPlan {
    StoredPlan(map p | p in plan.before :: plan.before[p].Some?, plan.createdDirectories)
  }

  ghost predicate BacksUp(backup: map<Path, string>, before: Contents) {
    forall p | p in before && before[p].Some? :: p in backup && backup[p] == before[p].value
  }

  ghost predicate ReceiptOf(r: Receipt, id: nat, plan: Plan) {
    r.id == id && r.before == plan.before && r.after == plan.after && r.created == plan.createdDirectories
  }

  /** The logged revisions rise strictly, and none is above the session's. */
  ghost predicate Rising(events: seq<Receipt>, revision: nat) {
    && (forall i | 0 <= i < |events| :: 0 < events[i].revision <= revision)
    && (forall i, j | 0 <= i < j < |events| :: events[i].revision < events[j].revision)
  }

  /**
   What the journal of an open transaction promises about the worktree, and about the revision of
   the event that is still to be logged.
   */
  ghost predicate Promises(tx: Tx, id: nat, plan: Plan, base: Tree, events: seq<Receipt>, revision: nat, d: Tree) {
    && tx.state.Some? && tx.plan == Some(Stored(plan)) && BacksUp(tx.backup, plan.before)
    && match tx.state.value
       case Committed =>
         && tx.receipt.Some? && ReceiptOf(tx.receipt.value, id, plan)
         && if id in Ids(events) then events != [] && events[|events| - 1] == tx.receipt.value && d == base
            else Fits(plan, base) && d == Lay(base, plan.after, plan.createdDirectories)
                 && Rising(events + [tx.receipt.value], revision)
       case _ => Fits(plan, base) && id !in Ids(events) && Between(base, plan, d)
  }

  lemma {:induction false} SettledIsBetween(base: Tree, plan: Plan)
    requires Fits(plan, base)
    ensures Between(base, plan, base)
  {
  }

  /** When every planned path and directory is as planned, the tree is the laid one. */
  lemma {:induction false} AllPlaced(base: Tree, plan: Plan, d: Tree)
    requires Fits(plan, base) && Between(base, plan, d)
    requires forall p | p in plan.after :: Get(d, p) == EntryOf(plan.after[p])
    requires forall p | p in plan.createdDirectories :: p in d
    ensures d == Lay(base, plan.after, plan.createdDirectories)
  {
    var laid := Lay(base, plan.after, plan.createdDirectories);
    forall p ensures Get(d, p) == Get(laid, p) { assert Midway(base, plan, d, p); }
    SameMap(d, laid);
  }

  /** The parents of a planned file that existed are still directories. */
  lemma {:induction false} ParentsStand(base: Tree, plan: Plan, d: Tree, p: Path)
    requires Fits(plan, base) && Rooted(base) && Between(base, plan, d) && p in base
    ensures forall k | 1 <= k < |p| :: Ancestor(p, k) in d && d[Ancestor(p, k)].Directory?
  {
    forall k | 1 <= k < |p| ensures Ancestor(p, k) in d && d[Ancestor(p, k)].Directory? {
      assert Midway(base, plan, d, Ancestor(p, k));
    }
  }

  /** Once the files are back and the deeper directories are gone, a created directory is empty. */
  lemma {:induction false} CreatedIsEmpty(base: Tree, plan: Plan, d: Tree, i: nat)
    requires Fits(plan, base) && Rooted(base) && Between(base, plan, d) && i < |plan.createdDirectories|
    requires forall p | p in plan.before :: Get(d, p) == Get(base, p)
    requires forall j | i < j < |plan.createdDirectories| :: plan.createdDirectories[j] !in d
    ensures plan.createdDirectories[i] in d ==> IsEmptyDir(d, plan.createdDirectories[i])
  {
    var c := plan.createdDirectories[i];
    assert Midway(base, plan, d, c);
    forall q | q in d ensures !IsAncestor(c, q) {
      assert Midway(base, plan, d, q);
      if IsAncestor(c, q) {
        assert c == Ancestor(q, |c|);
        assert q !in base;
        var j :| 0 <= j < |plan.createdDirectories| && plan.createdDirectories[j] == q;
      }
    }
  }

  /** With the files back and no created directory left, the tree is the old one. */
  lemma {:induction false} AllBack(base: Tree, plan: Plan, d: Tree)
    requires Fits(plan, base) && Between(base, plan, d)
    requires forall p | p in plan.before :: Get(d, p) == Get(base, p)
    requires forall p | p in plan.createdDirectories :: p !in d
    ensures d == base
  {
    forall p ensures Get(d, p) == Get(base, p) { assert Midway(base, plan, d, p); }
    SameMap(d, base);
  }

  /** What writing or removing a planned file needs. */
  predicate CanPlace(d: Tree, p: Path, content: Option<string>) {
    if content.None? then p in d && !d[p].Directory? else CanWrite(d, p)
  }

  /** The next directory can be made once the ones before it are. */
  lemma {:induction false} RoomForDir(base: Tree, plan: Plan, d: Tree, i: nat)
    requires Supported(plan, base) && i < |plan.createdDirectories|
    requires forall j | 0 <= j < i :: Get(d, plan.createdDirectories[j]) == Some(Planner.Directory)
    requires forall q | q !in plan.createdDirectories[..i] :: Get(d, q) == Get(base, q)
    ensures CanMakeDir(d, plan.createdDirectories[i])
  {
    var created := plan.createdDirectories;
    var c := created[i];
    assert c in created;
    assert ParentPlanned(plan, base, c);
    assert c !in created[..i];
    assert Get(d, c) == Get(base, c);
    if |c| > 1 {
      var parent := Ancestor(c, |c| - 1);
      if parent in created {
        var j :| 0 <= j < |created| && created[j] == parent;
        assert j < i;
      } else {
        assert parent !in created[..i];
        assert Get(d, parent) == Get(base, parent);
      }
    }
  }

  /** A planned file can be put in place once every directory is made. */
  lemma {:induction false} RoomForFile(base: Tree, plan: Plan, d: Tree, p: Path)
    requires Placeable(plan, base) && Between(base, plan, d) && p in plan.after
    requires forall q | q in plan.createdDirectories :: Get(d, q) == Some(Planner.Directory)
    requires Get(d, p) == Get(base, p)
    ensures CanPlace(d, p, plan.after[p])
  {
    assert Get(base, p) == EntryOf(plan.before[p]);
    if plan.after[p].Some? {
      assert ParentPlanned(plan, base, p);
      if |p| > 1 { assert Midway(base, plan, d, Ancestor(p, |p| - 1)); }
    }
  }

  lemma {:induction false} StepsBetween(base: Tree, plan: Plan, d: Tree, d': Tree, p: Path)
    requires Between(base, plan, d) && Midway(base, plan, d', p)
    requires forall q | q != p :: Get(d', q) == Get(d, q)
    ensures Between(base, plan, d')
  {
    forall q ensures Midway(base, plan, d', q) { assert Midway(base, plan, d, q); }
  }

  /** One path went back to what it was. */
  lemma {:induction false} StepsBack(base: Tree, plan: Plan, d: Tree, d': Tree, p: Path)
    requires Fits(plan, base) && Between(base, plan, d) && p in plan.createdDirectories && (d' == d || d' == d - {p})
    ensures Between(base, plan, d')
  {
    if d' != d {
      assert Midway(base, plan, d', p);
      StepsBetween(base, plan, d, d', p);
    }
  }

  /** A directory at a planned path is one that the plan created. */
  lemma {:induction false} DirectoryIsCreated(base: Tree, plan: Plan, d: Tree, p: Path)
    requires Fits(plan, base) && Between(base, plan, d) && p in plan.before && Get(d, p) == Some(Planner.Directory)
    ensures p in plan.createdDirectories
  {
    assert Midway(base, plan, d, p);
  }

  // ---------------------------------------------------------------- the service

  class EditService {
    ghost const initial: Tree
    var disk: Tree
    var journal: map<nat, Tx>
    var events: seq<Receipt>
    var revision: nat
    var session: WorkspaceState
    /** Whether steps may fail, or the process die, right now. */
    var faulty: bool
    ghost var pending: Option<(nat, Plan)>

    constructor (tree: Tree, faulty: bool)
      requires Rooted(tree)
      ensures Inv() && initial == tree && events == [] && this.faulty == faulty
    {
      this.faulty := faulty;
      initial := tree;
      disk := tree;
      journal := map[];
      events := [];
      revision := 0;
      session := ChangesActive;
      pending := None;
    }

    ghost function Base(): Tree
      reads this
    {
      Replay(initial, events)
    }

    /** No transaction is open. */
    ghost predicate Idle()
      reads this
    {
      pending.None? && disk == Base() && forall id | id in journal :: journal[id].state.None?
    }

    /** The transaction `id` is open, and no other is. */
    ghost predicate Open(id: nat, plan: Plan)
      reads this
    {
      && pending == Some((id, plan)) && id in journal
      && Promises(journal[id], id, plan, Base(), events, revision, disk)
      && forall other | other in journal && other != id :: journal[other].state.None?
    }

    /** Between any two steps, in any process. */
    ghost predicate Inv()
      reads this
    {
      && Rooted(disk) && Rooted(Base()) && Distinct(Ids(events)) && Rising(events, revision)
      && if pending.None? then Idle() else Open(pending.value.0, pending.value.1)
    }

    // -------------------------------------------------------------- file-system steps

    method WriteFile(p: Path, text: string) returns (fate: Fate)
      modifies this`disk
      ensures disk == old(disk) || (CanWrite(old(disk), p) && disk == old(disk)[p := Planner.TextFile(text)])
      ensures fate.Done? ==> CanWrite(old(disk), p) && disk == old(disk)[p := Planner.TextFile(text)]
      ensures !faulty ==> fate == if CanWrite(old(disk), p) then Done else Raised
    {
      if !CanWrite(disk, p) { return Raised; }
      fate :| faulty || fate.Done?;
      var effect: bool := *;
      if fate.Done? || effect { disk := disk[p := Planner.TextFile(text)]; }
    }

    method RemoveFile(p: Path) returns (fate: Fate)
      modifies this`disk
      ensures disk == old(disk) || (p in old(disk) && !old(disk)[p].Directory? && disk == old(disk) - {p})
      ensures fate.Done? ==> p in old(disk) && !old(disk)[p].Directory? && disk == old(disk) - {p}
      ensures !faulty ==> fate == if p in old(disk) && !old(disk)[p].Directory? then Done else Raised
    {
      if p !in disk || disk[p].Directory? { return Raised; }
      fate :| faulty || fate.Done?;
      var effect: bool := *;
      if fate.Done? || effect { disk := disk - {p}; }
    }

    method MakeDir(p: Path) returns (fate: Fate)
      modifies this`disk
      ensures disk == old(disk) || (CanMakeDir(old(disk), p) && disk == old(disk)[p := Planner.Directory])
      ensures fate.Done? ==> CanMakeDir(old(disk), p) && disk == old(disk)[p := Planner.Directory]
      ensures !faulty ==> fate == if CanMakeDir(old(disk), p) then Done else Raised
    {
      if !CanMakeDir(disk, p) { return Raised; }
      fate :| faulty || fate.Done?;
      var effect: bool := *;
      if fate.Done? || effect { disk := disk[p := Planner.Directory]; }
    }

    method RemoveDir(p: Path) returns (fate: Fate)
      modifies this`disk
      ensures disk == old(disk) || (IsEmptyDir(old(disk), p) && disk == old(disk) - {p})
      ensures fate.Done? ==> IsEmptyDir(old(disk), p) && disk == old(disk) - {p}
      ensures !faulty && IsEmptyDir(old(disk), p) ==> fate.Done?
    {
      if !IsEmptyDir(disk, p) { return Raised; }
      fate :| faulty || fate.Done?;
      var effect: bool := *;
      if fate.Done? || effect { disk := disk - {p}; }
    }

    /** `target.parent.mkdir(parents=True, exist_ok=True)` */
    method EnsureParent(p: Path) returns (fate: Fate)
      requires p != []
      modifies this`disk
      ensures (forall k | 1 <= k < |p| :: Ancestor(p, k) in old(disk) && old(disk)[Ancestor(p, k)].Directory?) ==>
                disk == old(disk) && fate.Done?
      ensures !faulty ==> !fate.Killed?
    {
      fate := Done;
      for k := 1 to |p|
        invariant (forall k | 1 <= k < |p| :: Ancestor(p, k) in old(disk) && old(disk)[Ancestor(p, k)].Directory?) ==>
                    disk == old(disk) && fate.Done?
        invariant fate.Done?
      {
        var a := Ancestor(p, k);
        if !(a in disk && disk[a].Directory?) {
          fate := MakeDir(a);
          if !fate.Done? { return; }
        }
      }
    }

    /** A step on the journal of one transaction. */
    method WriteTx(id: nat, tx: Tx) returns (fate: Fate)
      modifies this`journal
      ensures journal == old(journal) || (id in old(journal) && journal == old(journal)[id := tx])
      ensures fate.Done? ==> id in old(journal) && journal == old(journal)[id := tx]
      ensures !faulty ==> fate == if id in old(journal) then Done else Raised
    {
      if id !in journal { return Raised; }
      fate :| faulty || fate.Done?;
      var effect: bool := *;
      if fate.Done? || effect { journal := journal[id := tx]; }
    }

    method MakeTx(id: nat) returns (fate: Fate)
      modifies this`journal
      ensures journal == old(journal) || (id !in old(journal) && journal == old(journal)[id := Tx(None, None, map[], None)])
      ensures fate.Done? ==> id !in old(journal) && journal == old(journal)[id := Tx(None, None, map[], None)]
      ensures !faulty ==> fate == if id !in old(journal) then Done else Raised
    {
      if id in journal { return Raised; }
      fate :| faulty || fate.Done?;
      var effect: bool := *;
      if fate.Done? || effect { journal := journal[id := Tx(None, None, map[], None)]; }
    }

    method RemoveTx(id: nat) returns (fate: Fate)
      modifies this`journal
      ensures journal == old(journal) || journal == old(journal) - {id}
      ensures fate.Done? ==> journal == old(journal) - {id}
      ensures !faulty ==> fate.Done?
    {
      fate :| faulty || fate.Done?;
      var effect: bool := *;
      if fate.Done? || effect { journal := journal - {id}; }
    }

    /** `next_candidate_revision` */
    method NextRevision() returns (fate: Fate)
      modifies this`revision
      ensures revision in {old(revision), old(revision) + 1}
      ensures fate.Done? ==> revision == old(revision) + 1
      ensures !faulty ==> fate.Done?
    {
      fate :| faulty || fate.Done?;
      var effect: bool := *;
      if fate.Done? || effect { revision := revision + 1; }
    }

    /** A step that only reads. */
    method Read() returns (fate: Fate)
      ensures !faulty ==> fate.Done?
    {
      fate :| faulty || fate.Done?;
    }

    // -------------------------------------------------------------- rollback

    /** Puts one planned path back. */
    method RestorePath(ghost plan: Plan, p: Path, content: Option<string>) returns (fate: Fate)
      requires p in plan.before && content == plan.before[p]
      requires Fits(plan, Base()) && Rooted(Base()) && Rooted(disk) && Between(Base(), plan, disk)
      modifies this`disk
      ensures Rooted(disk) && Between(Base(), plan, disk)
      ensures forall q | q != p :: Get(disk, q) == Get(old(disk), q)
      ensures fate.Done? ==> Get(disk, p) == Get(Base(), p)
      ensures Get(old(disk), p) == Some(Planner.Directory) ==> !fate.Done? && disk == old(disk)
      ensures !faulty ==> fate == if Get(old(disk), p) == Some(Planner.Directory) then Raised else Done
    {
      assert Midway(Base(), plan, disk, p);
      if content.None? {
        if p in disk {
          fate := RemoveFile(p);
          if !old(disk)[p].Directory? { DropRooted(old(disk), p); }
        } else {
          fate := Done;
        }
      } else {
        ParentsStand(Base(), plan, disk, p);
        fate := EnsureParent(p);
        if !fate.Done? { return; }
        fate := WriteFile(p, content.value);
        if CanWrite(old(disk), p) { PutRooted(old(disk), p, Planner.TextFile(content.value)); }
      }
      assert Midway(Base(), plan, old(disk), p);
      StepsBetween(Base(), plan, old(disk), disk, p);
    }

    /** Puts every planned path back, unless a directory stands there. */
    method RestoreFiles(ghost plan: Plan, before: Contents) returns (fate: Fate)
      requires before == plan.before
      requires Fits(plan, Base()) && Rooted(Base()) && Rooted(disk) && Between(Base(), plan, disk)
      modifies this`disk
      ensures Rooted(disk) && Between(Base(), plan, disk)
      ensures fate.Done? ==> forall p | p in before :: Get(disk, p) == Get(Base(), p)
      ensures Stranded(plan, old(disk)) ==> !fate.Done?
      ensures !faulty ==> fate == if Stranded(plan, old(disk)) then Raised else Done
    {
      hide Rooted, Between, Replay;
      fate := Done;
      var left := before.Keys;
      while left != {}
        invariant left <= before.Keys && fate.Done?
        invariant Rooted(disk) && Between(Base(), plan, disk)
        invariant forall p | p in before && p !in left :: Get(disk, p) == Get(Base(), p)
        invariant forall p | p in before ::
                    if Get(old(disk), p) == Some(Planner.Directory) then p in left && Get(disk, p) == Some(Planner.Directory)
                    else Get(disk, p) != Some(Planner.Directory)
        decreases |left|
      {
        var p :| p in left;
        if Get(disk, p) == Some(Planner.Directory) { DirectoryIsCreated(Base(), plan, disk, p); }
        fate := RestorePath(plan, p, before[p]);
        if !fate.Done? { return; }
        left := left - {p};
      }
    }

    /** Takes the created directories away again, the deeper ones first. */
    method RemoveCreated(ghost plan: Plan, ghost before: Contents, created: seq<Path>) returns (fate: Fate)
      requires before == plan.before && created == plan.createdDirectories
      requires Fits(plan, Base()) && Rooted(Base()) && Rooted(disk) && Between(Base(), plan, disk)
      requires forall p | p in before :: Get(disk, p) == Get(Base(), p)
      modifies this`disk
      ensures Rooted(disk) && Between(Base(), plan, disk)
      ensures fate.Done? ==> disk == Base()
      ensures !faulty ==> fate.Done?
    {
      hide Rooted, Between, IsEmptyDir;
      fate := Done;
      var i := |created|;
      while i > 0
        invariant 0 <= i <= |created| && fate.Done?
        invariant Rooted(disk) && Between(Base(), plan, disk)
        invariant forall p | p in before :: Get(disk, p) == Get(Base(), p)
        invariant forall j | i <= j < |created| :: created[j] !in disk
      {
        i := i - 1;
        CreatedIsEmpty(Base(), plan, disk, i);
        if IsEmptyDir(disk, created[i]) {
          ghost var d := disk;
          fate := RemoveDir(created[i]);
          DropRooted(d, created[i]);
          assert forall q | q != created[i] :: Get(disk, q) == Get(d, q);
          StepsBack(Base(), plan, d, disk, created[i]);
          if !fate.Done? { return; }
        }
      }
      AllBack(Base(), plan, disk);
    }

    /** `_restore`: from any point between the old tree and the planned one. */
    method Restore(ghost plan: Plan, before: Contents, created: seq<Path>) returns (fate: Fate)
      requires before == plan.before && created == plan.createdDirectories
      requires Fits(plan, Base()) && Rooted(Base()) && Rooted(disk) && Between(Base(), plan, disk)
      modifies this`disk
      ensures Rooted(disk) && Between(Base(), plan, disk)
      ensures fate.Done? ==> disk == Base()
      ensures Stranded(plan, old(disk)) ==> !fate.Done?
      ensures !faulty ==> fate == if Stranded(plan, old(disk)) then Raised else Done
    {
      hide Rooted, Between, Stranded;
      fate := RestoreFiles(plan, before);
      if !fate.Done? { return; }
      fate := RemoveCreated(plan, before, created);
      if !fate.Done? { return; }
      fate := Read();
      if fate.Done? && exists p | p in before :: Get(disk, p) != EntryOf(before[p]) { fate := Raised; }
    }

    // -------------------------------------------------------------- recovery

    /** `_load_plan`, as far as the rollback uses it. */
    method LoadPlan(tx: Tx) returns (r: Option<(Contents, seq<Path>)>)
      ensures forall plan: Plan | tx.plan == Some(Stored(plan)) && BacksUp(tx.backup, plan.before) && r.Some? ::
                r.value.0 == plan.before && r.value.1 == plan.createdDirectories
      ensures (exists plan: Plan :: tx.plan == Some(Stored(plan)) && BacksUp(tx.backup, plan.before)) ==> r.Some?
    {
      if tx.plan.None? { return None; }
      var existed := tx.plan.value.existed;
      if exists p | p in existed :: existed[p] && p !in tx.backup { return None; }
      var before := map p | p in existed :: if existed[p] then Some(tx.backup[p]) else None;
      forall plan: Plan | tx.plan == Some(Stored(plan)) && BacksUp(tx.backup, plan.before) ensures before == plan.before {
        assert existed.Keys == plan.before.Keys;
        forall p | p in existed ensures before[p] == plan.before[p] { }
      }
      r := Some((before, tx.plan.value.created));
    }

    /** The end of a transaction directory: the open transaction is closed, if it was this one. */
    method CloseTx(ghost plan: Plan, id: nat) returns (fate: Fate)
      requires Inv() && Open(id, plan) && disk == Base()
      modifies this`journal, this`pending
      ensures Inv() && (if id in journal then pending == old(pending) && journal == old(journal) else Idle())
      ensures fate.Done? ==> Idle()
      ensures !faulty ==> fate.Done?
    {
      fate := RemoveTx(id);
      if id !in journal { pending := None; }
    }

    /** `_write_state(recovery_required)` and the session flag. */
    method MarkUnrecovered(ghost plan: Plan, id: nat) returns (fate: Fate)
      requires Inv() && if id in journal then pending == Some((id, plan)) && journal[id].state != Some(Committed) else Idle()
      modifies this`journal, this`session
      ensures Inv() && pending == old(pending) && (id in journal <==> id in old(journal))
      ensures id in journal ==> journal[id].state != Some(Committed)
      ensures fate.Done? ==> id in journal && session == SessionRecoveryRequired && journal[id].state == Some(RecoveryRequired)
      ensures !faulty && id in old(journal) ==> fate.Done?
    {
      if id !in journal { return Raised; }
      fate := WriteTx(id, journal[id].(state := Some(RecoveryRequired)));
      if !fate.Done? { return; }
      fate :| faulty || fate.Done?;
      var effect: bool := *;
      if fate.Done? || effect { session := SessionRecoveryRequired; }
    }

    /** `_repair_event`: the event is written unless the log has it. */
    method RepairEvent(ghost plan: Plan, id: nat) returns (fate: Fate)
      requires Inv() && Open(id, plan) && journal[id].state == Some(Committed)
      modifies this`events
      ensures Inv() && Open(id, plan)
      ensures events == old(events) || (id !in Ids(old(events)) && events == old(events) + [journal[id].receipt.value])
      ensures fate.Done? ==> id in Ids(events) && disk == Base()
      ensures !faulty ==> fate.Done?
    {
      var receipt := journal[id].receipt;
      if receipt.None? { return Raised; }
      fate := Read();
      if !fate.Done? { return; }
      if exists i | 0 <= i < |events| :: events[i].id == receipt.value.id {
        assert id in Ids(events) by {
          var i :| 0 <= i < |events| && events[i].id == receipt.value.id;
          assert Ids(events)[i] == id;
        }
        return Done;
      }
      fate := AppendEvent(plan, id, receipt.value);
    }

    /** `append_event`, one atomic step. */
    method AppendEvent(ghost plan: Plan, id: nat, receipt: Receipt) returns (fate: Fate)
      requires Inv() && Open(id, plan) && journal[id].state == Some(Committed) && journal[id].receipt == Some(receipt)
      requires id !in Ids(events)
      modifies this`events
      ensures Inv() && Open(id, plan)
      ensures events == old(events) || events == old(events) + [receipt]
      ensures fate.Done? ==> events == old(events) + [receipt] && id in Ids(events) && disk == Base()
      ensures !faulty ==> fate.Done?
    {
      fate :| faulty || fate.Done?;
      var effect: bool := *;
      if fate.Done? || effect {
        LogGrows(initial, events, receipt);
        events := events + [receipt];
      }
    }

    /** A committed transaction is completed: its event, then its clean-up. */
    method Complete(ghost plan: Plan, id: nat) returns (fate: Fate)
      requires Inv() && Open(id, plan) && journal[id].state == Some(Committed)
      modifies this`journal, this`events, this`pending
      ensures Inv() && (pending == old(pending) || Idle()) && old(events) <= events
      ensures fate.Done? ==> Idle() && Resolved(plan, id, true, old(events))
      ensures !faulty ==> fate.Done?
    {
      hide Rooted, Distinct, Between, Rising, Fits;
      fate := RepairEvent(plan, id);
      if fate.Done? { fate := CloseTx(plan, id); }
    }

    /** What recovery does with the open transaction. */
    method RecoverTx(ghost plan: Plan, id: nat) returns (fate: Fate)
      requires Inv() && pending == Some((id, plan)) && journal[id].state != Some(RecoveryRequired)
      modifies this`disk, this`journal, this`events, this`session, this`pending
      ensures Inv() && (pending == old(pending) || Idle())
      ensures fate.Done? ==> Idle() && Resolved(plan, id, old(journal[id].state) == Some(Committed), old(events))
      ensures events == old(events) || (old(journal[id].state) == Some(Committed) && old(events) <= events)
      ensures !faulty ==>
                if old(journal[id].state) == Some(Committed) || !Stranded(plan, old(disk)) then fate.Done?
                else fate.Raised? && session == SessionRecoveryRequired && pending == old(pending)
    {
      hide Rooted, Distinct, Between, Stranded, Rising;
      if journal[id].state == Some(Committed) {
        fate := Complete(plan, id);
        return;
      }
      var loaded := LoadPlan(journal[id]);
      fate := Raised;
      if loaded.Some? {
        fate := Restore(plan, loaded.value.0, loaded.value.1);
        if fate.Done? { fate := CloseTx(plan, id); }
      }
      if fate.Raised? {
        var marked := MarkUnrecovered(plan, id);
        if marked.Killed? { fate := Killed; }
      }
    }

    lemma {:induction false} OpenHasState()
      requires Inv() && pending.Some?
      ensures pending.value.0 in journal && journal[pending.value.0].state.Some?
    {
    }

    /** `ensure_recovered`: `Done` means the edit service may go on. */
    method EnsureRecovered() returns (fate: Fate)
      requires Inv()
      modifies this`disk, this`journal, this`events, this`session, this`pending
      ensures Inv()
      ensures old(pending).None? ==> events == old(events) && disk == old(disk) && journal == old(journal) && pending.None?
      ensures old(pending).Some? ==>
                var (id, plan) := old(pending).value;
                && (pending == old(pending) || Idle())
                && (events == old(events) || old(journal[id].state) == Some(Committed))
                && (fate.Done? ==> Idle() && Resolved(plan, id, old(journal[id].state) == Some(Committed), old(events)))
                && (!faulty && old(journal[id].state) != Some(RecoveryRequired) ==>
                      if old(journal[id].state) == Some(Committed) || !Stranded(plan, old(disk)) then fate.Done?
                      else fate.Raised? && session == SessionRecoveryRequired && pending == old(pending))
      ensures fate.Done? ==> Idle()
      ensures old(pending).None? ==> fate.Done?
      ensures old(events) <= events
    {
      hide Rooted, Distinct, Promises, Replay, Ids, Stranded, Resolved;
      fate := Done;
      var left := journal.Keys;
      while left != {}
        invariant Inv() && left <= journal.Keys + left
        invariant fate.Done? && old(events) <= events
        invariant old(pending).None? ==> events == old(events) && disk == old(disk) && journal == old(journal) && pending.None?
        invariant pending.Some? ==> pending.value.0 in left && Unstarted()
        invariant old(pending).Some? && pending.None? ==>
                    var (id, plan) := old(pending).value;
                    && Resolved(plan, id, old(journal[id].state) == Some(Committed), old(events))
                    && (events == old(events) || old(journal[id].state) == Some(Committed))
                    && (!faulty && Stranded(plan, old(disk)) ==> old(journal[id].state) == Some(Committed))
        decreases |left|
      {
        var id :| id in left;
        left := left - {id};
        if pending.Some? { OpenHasState(); }
        if id in journal {
          var state := journal[id].state;
          if state == Some(RecoveryRequired) { return Raised; }
          if state.Some? {
            fate := RecoverTx(pending.value.1, id);
            if !fate.Done? { return; }
          }
        }
      }
    }

    /** Recovery has not reached the open transaction yet. */
    twostate predicate Unstarted()
      reads this
    {
      pending == old(pending) && journal == old(journal) && events == old(events) && disk == old(disk)
    }

    /** All of the transaction happened and is logged once, or none of it and it is not logged. */
    ghost predicate Resolved(plan: Plan, id: nat, committed: bool, log: seq<Receipt>)
      reads this
    {
      if committed then
        && id in Ids(events) && events != [] && ReceiptOf(events[|events| - 1], id, plan)
        && (events == log || events[..|events| - 1] == log)
        && forall p | p in plan.after :: Get(disk, p) == EntryOf(plan.after[p])
      else
        && id !in Ids(events) && events == log
        && forall p | p in plan.before :: Get(disk, p) == EntryOf(plan.before[p])
    }

    // -------------------------------------------------------------- commit

    /** Copies every file that the plan changes into the transaction directory. */
    method BackUp(id: nat, plan: Plan) returns (fate: Fate)
      requires Inv() && Idle() && id in journal && journal[id].plan == Some(Stored(plan))
      modifies this`journal
      ensures Inv() && Idle() && id in journal && journal[id].plan == Some(Stored(plan))
      ensures fate.Done? ==> BacksUp(journal[id].backup, plan.before)
      ensures !faulty ==> fate.Done?
    {
      hide Rooted, Distinct, Replay, Promises;
      fate := Done;
      var left := plan.before.Keys;
      while left != {}
        invariant left <= plan.before.Keys
        invariant fate.Done?
        invariant Inv() && Idle() && id in journal && journal[id].plan == Some(Stored(plan))
        invariant forall p | p in plan.before && p !in left && plan.before[p].Some? ::
                    p in journal[id].backup && journal[id].backup[p] == plan.before[p].value
        decreases |left|
      {
        var p :| p in left;
        if plan.before[p].Some? {
          fate := WriteTx(id, journal[id].(backup := journal[id].backup[p := plan.before[p].value]));
          if !fate.Done? { return; }
        }
        left := left - {p};
      }
    }

    /** The journal up to the state `prepared`: request, plan, patch and backup. */
    method Stage(id: nat, plan: Plan) returns (fate: Fate)
      requires Inv() && Idle() && Fits(plan, disk) && id !in Ids(events)
      modifies this`journal, this`pending
      ensures Inv()
      ensures Idle() || (pending == Some((id, plan)) && journal[id].state == Some(Prepared))
      ensures fate.Done? ==> pending == Some((id, plan)) && journal[id].state == Some(Prepared)
      ensures !faulty ==> fate == if id !in old(journal) then Done else Raised
    {
      fate := MakeTx(id);
      if !fate.Done? { return; }
      fate := WriteTx(id, journal[id].(plan := Some(Stored(plan))));
      if !fate.Done? { return; }
      fate := BackUp(id, plan);
      if !fate.Done? { return; }
      SettledIsBetween(Base(), plan);
      fate := WriteTx(id, journal[id].(state := Some(Prepared)));
      if journal[id].state.Some? { pending := Some((id, plan)); }
    }

    /** Creates the directories and puts every planned file in place. */
    method Place(id: nat, plan: Plan) returns (fate: Fate)
      requires Inv() && pending == Some((id, plan)) && journal[id].state == Some(Committing) && disk == Base()
      modifies this`disk
      ensures Inv()
      ensures fate.Done? ==> disk == Lay(Base(), plan.after, plan.createdDirectories) && !Planner.Clashes(plan)
      ensures !faulty && Placeable(plan, Base()) ==> fate.Done?
      ensures !faulty && Supported(plan, Base()) && Planner.Clashes(plan) ==> fate.Raised? && Stranded(plan, disk)
      ensures !faulty ==> !fate.Killed?
    {
      fate := MakeDirs(plan);
      if !fate.Done? { return; }
      fate := PlaceFiles(plan);
      if !fate.Done? { return; }
      AllPlaced(Base(), plan, disk);
      fate := Read();
      if fate.Done? && exists p | p in plan.after :: Get(disk, p) != EntryOf(plan.after[p]) { fate := Raised; }
    }

    method MakeDirs(plan: Plan) returns (fate: Fate)
      requires Fits(plan, disk) && disk == Base() && Rooted(disk)
      modifies this`disk
      ensures Rooted(disk) && Between(Base(), plan, disk)
      ensures fate.Done? ==> forall p | p in plan.createdDirectories :: Get(disk, p) == Some(Planner.Directory)
      ensures fate.Done? ==> forall p | p !in plan.createdDirectories :: Get(disk, p) == Get(Base(), p)
      ensures !faulty && Supported(plan, Base()) ==> fate.Done?
      ensures !faulty ==> !fate.Killed?
    {
      hide Rooted, Supported;
      fate := Done;
      var created := plan.createdDirectories;
      for i := 0 to |created|
        invariant fate.Done? && Rooted(disk) && Between(Base(), plan, disk)
        invariant forall j | 0 <= j < i :: Get(disk, created[j]) == Some(Planner.Directory)
        invariant forall q | q !in created[..i] :: Get(disk, q) == Get(Base(), q)
      {
        ghost var d := disk;
        if Supported(plan, Base()) { RoomForDir(Base(), plan, d, i); }
        fate := MakeDir(created[i]);
        assert created[..i + 1] == created[..i] + [created[i]];
        if CanMakeDir(d, created[i]) { PutRooted(d, created[i], Planner.Directory); }
        assert Midway(Base(), plan, d, created[i]);
        StepsBetween(Base(), plan, d, disk, created[i]);
        if !fate.Done? { return; }
      }
      assert created[..|created|] == created;
    }

    method PlaceFiles(plan: Plan) returns (fate: Fate)
      requires Fits(plan, Base()) && Rooted(disk) && Between(Base(), plan, disk)
      requires forall p | p in plan.createdDirectories :: Get(disk, p) == Some(Planner.Directory)
      requires forall p | p !in plan.createdDirectories :: Get(disk, p) == Get(Base(), p)
      modifies this`disk
      ensures Rooted(disk) && Between(Base(), plan, disk)
      ensures fate.Done? ==> forall p | p in plan.after :: Get(disk, p) == EntryOf(plan.after[p])
      ensures forall p | p in plan.createdDirectories :: Get(disk, p) == Some(Planner.Directory)
      ensures !faulty && Placeable(plan, Base()) ==> fate.Done?
      ensures !faulty ==> !fate.Killed?
    {
      hide Rooted, Supported, Between;
      fate := Done;
      var left := plan.after.Keys;
      while left != {}
        invariant left <= plan.after.Keys && fate.Done?
        invariant Rooted(disk) && Between(Base(), plan, disk)
        invariant forall p | p in plan.after && p !in left :: Get(disk, p) == EntryOf(plan.after[p])
        invariant forall p | p in plan.createdDirectories :: Get(disk, p) == Some(Planner.Directory)
        invariant forall p | p !in plan.createdDirectories && (p in left || p !in plan.after) :: Get(disk, p) == Get(Base(), p)
        decreases |left|
      {
        var p :| p in left;
        if Placeable(plan, Base()) { RoomForFile(Base(), plan, disk, p); }
        fate := PlaceFile(plan, p, plan.after[p]);
        if !fate.Done? { return; }
        left := left - {p};
      }
    }

    method PlaceFile(ghost plan: Plan, p: Path, content: Option<string>) returns (fate: Fate)
      requires p in plan.after && content == plan.after[p]
      requires Rooted(disk) && Between(Base(), plan, disk)
      modifies this`disk
      ensures Rooted(disk) && Between(Base(), plan, disk)
      ensures forall q | q != p :: Get(disk, q) == Get(old(disk), q)
      ensures fate.Done? ==> Get(disk, p) == EntryOf(content)
      ensures fate.Done? ==> !(p in old(disk) && old(disk)[p].Directory?)
      ensures Get(old(disk), p) == Some(Planner.Directory) ==> disk == old(disk)
      ensures !faulty ==> fate == if CanPlace(old(disk), p, content) then Done else Raised
    {
      if content.None? {
        fate := RemoveFile(p);
        if p in old(disk) && !old(disk)[p].Directory? { DropRooted(old(disk), p); }
      } else {
        fate := WriteFile(p, content.value);
        if CanWrite(old(disk), p) { PutRooted(old(disk), p, Planner.TextFile(content.value)); }
      }
      assert Midway(Base(), plan, old(disk), p);
      StepsBetween(Base(), plan, old(disk), disk, p);
    }

    /** `_revalidate`, `committing`, the files, and `_verify_after`. */
    method Carry(id: nat, plan: Plan) returns (fate: Fate)
      requires Inv() && Idle() && Fits(plan, disk) && id !in Ids(events)
      modifies this`disk, this`journal, this`pending
      ensures Inv()
      ensures Idle() || (pending == Some((id, plan)) && journal[id].state in {Some(Prepared), Some(Committing)})
      ensures fate.Done? ==>
                && pending == Some((id, plan)) && journal[id].state == Some(Committing)
                && disk == Lay(Base(), plan.after, plan.createdDirectories) && !Planner.Clashes(plan)
      ensures !faulty && Placeable(plan, old(disk)) && id !in old(journal) ==> fate.Done?
      ensures !faulty && Supported(plan, old(disk)) && Planner.Clashes(plan) && id !in old(journal) ==>
                fate.Raised? && pending == Some((id, plan)) && Stranded(plan, disk)
      ensures !faulty ==> !fate.Killed?
    {
      fate := Stage(id, plan);
      if !fate.Done? { return; }
      fate := Read();
      if fate.Done? && ((exists p | p in plan.before :: Get(disk, p) != EntryOf(plan.before[p]))
                        || exists p | p in plan.createdDirectories :: p in disk) {
        fate := Raised;
      }
      if !fate.Done? { return; }
      fate := WriteTx(id, journal[id].(state := Some(Committing)));
      if !fate.Done? { return; }
      fate := Place(id, plan);
    }

    /** The handler of a failed commit. */
    method RollBack(id: nat, plan: Plan) returns (r: CommitResult)
      requires Inv()
      requires Idle() || (pending == Some((id, plan)) && journal[id].state in {Some(Prepared), Some(Committing)})
      modifies this`disk, this`journal, this`pending, this`session
      ensures Inv() && (Idle() || pending == old(pending))
      ensures r in {RolledBack, RollbackFailed, Escaped, Dead}
      ensures r.RolledBack? ==> Idle()
      ensures r.RollbackFailed? ==> session == SessionRecoveryRequired && pending.Some?
      ensures !faulty ==> r == if old(pending).Some? && Stranded(plan, old(disk)) then RollbackFailed else RolledBack
    {
      if id !in journal || journal[id].state !in {Some(Prepared), Some(Committing)} { return RolledBack; }
      var fate := Restore(plan, plan.before, plan.createdDirectories);
      if fate.Done? { fate := CloseTx(plan, id); }
      match fate {
        case Done => r := RolledBack;
        case Killed => r := Dead;
        case Raised =>
          var marked := MarkUnrecovered(plan, id);
          r := match marked case Done => RollbackFailed case Raised => Escaped case Killed => Dead;
      }
    }

    /** The end of a carried transaction: revision, receipt, `committed`, event, clean-up. */
    method Settle(id: nat, plan: Plan) returns (r: CommitResult)
      requires Inv() && pending == Some((id, plan)) && journal[id].state == Some(Committing)
      requires disk == Lay(Base(), plan.after, plan.createdDirectories)
      modifies this`journal, this`events, this`revision, this`pending
      ensures Inv() && (Idle() || pending == old(pending))
      ensures events == old(events) || Logged(id, plan, old(events))
      ensures Idle() ==> Logged(id, plan, old(events))
      ensures r in {EventPending, Escaped, Dead} || (r.Finished? && Idle() && events == old(events) + [r.receipt])
      ensures revision in {old(revision), old(revision) + 1}
      ensures events != old(events) ==> revision == old(revision) + 1 == events[|events| - 1].revision
      ensures !faulty ==> r.Finished?
    {
      hide Rooted, Distinct, Replay, Lay, Fits, Between, Rising;
      NextRises(events, revision, revision + 1);
      var fate := NextRevision();
      if !fate.Done? { return if fate.Raised? then Escaped else Dead; }
      var receipt := Receipt(id, revision, plan.before, plan.after, plan.createdDirectories);
      AboveAll(events, receipt);
      fate := WriteTx(id, journal[id].(receipt := Some(receipt)));
      if !fate.Done? { return if fate.Raised? then Escaped else Dead; }
      fate := WriteTx(id, journal[id].(state := Some(Committed)));
      if !fate.Done? { return if fate.Raised? then Escaped else Dead; }
      fate := AppendEvent(plan, id, receipt);
      if !fate.Done? { return if fate.Raised? then EventPending else Dead; }
      fate := CloseTx(plan, id);
      if !fate.Done? { return if fate.Raised? then Escaped else Dead; }
      r := Finished(receipt);
    }

    /** The log grew by the one event of the transaction. */
    ghost predicate Logged(id: nat, plan: Plan, log: seq<Receipt>)
      reads this
    {
      events != [] && events[..|events| - 1] == log && ReceiptOf(events[|events| - 1], id, plan)
    }

    /**
     `commit`, with any step failing or the process dying anywhere.  Once no transaction is open,
     the tree is the old one and the log is unchanged, or the tree is the planned one and the log
     has exactly one more event.  A plan that clashes with its own directories is never logged.
     Where nothing fails, a placeable plan finishes, and a clashing one locks the session: its
     rollback cannot remove the directory that stands where a file was planned.
     */
    method Commit(id: nat, plan: Plan) returns (r: CommitResult)
      requires Inv() && Idle() && Fits(plan, disk) && id !in Ids(events)
      modifies this`disk, this`journal, this`events, this`revision, this`session, this`pending
      ensures Inv() && (Idle() || (pending.Some? && pending.value == (id, plan)))
      ensures events == old(events) || Logged(id, plan, old(events))
      ensures Idle() ==>
                if events == old(events) then disk == old(disk)
                else disk == Lay(old(disk), plan.after, plan.createdDirectories)
      ensures r.Finished? ==> Idle() && events == old(events) + [r.receipt] && Logged(id, plan, old(events))
      ensures revision in {old(revision), old(revision) + 1}
      ensures events != old(events) ==> revision == old(revision) + 1 == events[|events| - 1].revision
      ensures r.RolledBack? ==> Idle() && events == old(events)
      ensures r.RollbackFailed? ==> events == old(events) && session == SessionRecoveryRequired && pending.Some?
      ensures Planner.Clashes(plan) ==> events == old(events) && !r.Finished?
      ensures !faulty && Placeable(plan, old(disk)) && id !in old(journal) ==> r.Finished?
      ensures !faulty && Supported(plan, old(disk)) && Planner.Clashes(plan) && id !in old(journal) ==> r.RollbackFailed?
      ensures !faulty ==> r.Finished? || r.RolledBack? || r.RollbackFailed?
    {
      hide Rooted, Distinct, Promises, Fits, Placeable, Supported, Stranded, Planner.Clashes;
      var fate := Carry(id, plan);
      match fate {
        case Killed => r := Dead;
        case Raised => r := RollBack(id, plan);
        case Done => r := Settle(id, plan);
      }
    }

    // -------------------------------------------------------------- whole requests

    /**
     `apply_workspace_edit`: recover, plan on the tree as it is, commit.  The identity stands for a
     fresh UUID.  Where nothing fails, every plan that does not clash is committed, and one that
     clashes locks the session.
     */
    method Apply(
      tools: Planner.Tools, ops: seq<Planner.Operation>, isolated: bool, links: set<Path>, guardRefuses: Path -> bool, id: nat)
      returns (ok: bool, ghost planned: Option<Planner.Result<Plan>>)
      requires Inv() && id !in Ids(events) && id !in journal
      modifies this`disk, this`journal, this`events, this`revision, this`session, this`pending
      ensures Inv()
      ensures old(session) != ChangesActive ==> !ok && disk == old(disk) && events == old(events)
      ensures old(pending).None? && old(session) == ChangesActive ==>
                && planned.Some?
                && Planner.PlansAs(Planner.Workspace(isolated, old(disk), links, guardRefuses), tools, ops, planned.value)
                && (planned.value.Err? ==> !ok && disk == old(disk) && events == old(events))
                && (planned.value.Ok? && !faulty ==>
                      if Planner.Clashes(planned.value.value) then !ok && session == SessionRecoveryRequired else ok)
      ensures ok ==>
                && Idle() && events != [] && events[|events| - 1].id == id
                && var e := events[|events| - 1];
                   && disk == Lay(Replay(initial, events[..|events| - 1]), e.after, e.created)
                   && e.revision == revision == old(revision) + 1
      ensures revision in {old(revision), old(revision) + 1} && old(events) <= events
    {
      hide Rooted, Distinct, Promises, Replay, Lay, Fits, Ids, Supported, Apart, Planner.PlansAs, Planner.Clashes;
      planned := None;
      if session != ChangesActive { return false, None; }
      var recovered := EnsureRecovered();
      if !recovered.Done? { return false, None; }
      OtherIdsStayOut(old(events), events, id);
      var ws := Planner.Workspace(isolated, disk, links, guardRefuses);
      var plan := Planner.Prepare(ws, tools, ops);
      planned := Some(plan);
      if plan.Err? { return false, planned; }
      PlanFits(ws, tools, ops, plan);
      PlanIsPlaceable(ws, tools, ops, plan);
      var r := Commit(id, plan.value);
      ok := r.Finished?;
    }

    /** Commands hand out revisions too. */
    method OtherRevisions()
      requires Inv()
      modifies this`revision
      ensures Inv() && old(revision) <= revision
    {
      hide Rooted, Distinct, Rising, Ids, Replay, Lay, Fits, Between;
      var more: nat :| true;
      NextRises(events, revision, revision + more);
      if pending.Some? && journal[pending.value.0].receipt.Some? {
        ghost var next := events + [journal[pending.value.0].receipt.value];
        if Rising(next, revision) { NextRises(next, revision, revision + more); }
      }
      revision := revision + more;
    }

    /** A session whose log only grows: any requests, each with any failures, and any number of kills and restarts. */
    method Session(requests: nat)
      requires Inv()
      modifies this
      ensures Inv() && old(events) <= events && old(revision) <= revision
    {
      hide Rooted, Distinct, Rising, Promises, Replay, Lay, Planner.PlansAs, Planner.Clashes;
      for n := 0 to requests
        invariant Inv() && old(events) <= events && old(revision) <= revision
      {
        var tools: Planner.Tools, ops: seq<Planner.Operation> :| true;
        var isolated: bool, links: set<Path>, guard: Path -> bool :| true;
        var taken := journal.Keys + set i | i in Ids(events);
        ghost var unused := Unused(taken);
        var id: nat :| id !in taken;
        var ok, planned := Apply(tools, ops, isolated, links, guard, id);
        OtherRevisions();
        faulty := *;
      }
    }
  }

  /** An identity outside the log stays outside when another's event is appended. */
  lemma {:induction false} OtherIdsStayOut(log: seq<Receipt>, events: seq<Receipt>, id: nat)
    requires events == log || (events != [] && events[..|events| - 1] == log && events[|events| - 1].id != id)
    requires id !in Ids(log)
    ensures id !in Ids(events)
  {
    if events != log {
      forall i | 0 <= i < |events| ensures Ids(events)[i] != id {
        if i < |log| { assert Ids(log)[i] != id; assert log[i] == events[i]; }
      }
    }
  }

  /** A plan made on a tree fits that tree. */
  lemma {:induction false} PlanFits(ws: Planner.Workspace, tools: Planner.Tools, ops: seq<Planner.Operation>, r: Planner.Result<Plan>)
    requires Planner.PlansAs(ws, tools, ops, r) && r.Ok?
    ensures Fits(r.value, ws.entries)
  {
    hide Planner.PlayAll, Planner.FinalCheck, Planner.OnDisk;
    var plan := r.value;
    Planner.PlanIsSequential(ws, tools, ops, r);
    forall p | p in plan.before ensures Get(ws.entries, p) == EntryOf(plan.before[p]) && p != [] {
      Planner.ChangedLoads(ws, tools, ops, p);
      MissingOrText(ws, p);
    }
    forall p | p in plan.createdDirectories ensures p !in ws.entries && p != [] {
      Planner.PlannedDirectories(ws, tools, ops, r, p);
    }
  }

  lemma {:induction false} AncestorsOfAncestors(p: Path, q: Path)
    requires |p| > 1 && (p == q || IsAncestor(p, q))
    ensures Ancestor(p, |p| - 1) != [] && IsAncestor(Ancestor(p, |p| - 1), q)
  {
    assert q[..|p| - 1] == p[..|p| - 1];
  }

  /** A parent of a written path is a directory, or the plan creates it. */
  lemma {:induction false} ParentIsPlanned(
    ws: Planner.Workspace, tools: Planner.Tools, ops: seq<Planner.Operation>, r: Planner.Result<Plan>, i: nat, p: Path)
    requires Planner.PlansAs(ws, tools, ops, r) && r.Ok? && Planner.PlayAll(ws, tools, ops).Ok?
    requires i < |ops| && Planner.Written(ops[i]).Some? && p != []
    requires p == Planner.Written(ops[i]).value || IsAncestor(p, Planner.Written(ops[i]).value)
    ensures ParentPlanned(r.value, ws.entries, p)
  {
    hide Planner.PlayAll, Planner.PlansAs, Planner.Written;
    if |p| > 1 {
      var a, q := Ancestor(p, |p| - 1), Planner.Written(ops[i]).value;
      AncestorsOfAncestors(p, q);
      if a in ws.entries {
        Planner.WrittenParents(ws, tools, ops, i, a);
      } else {
        assert Planner.MissingParent(ws, ops, a);
        Planner.PlannedDirectories(ws, tools, ops, r, a);
      }
    }
  }

  /** The planned parents are there or created, and a plan that does not clash can be put in place. */
  lemma {:induction false} PlanIsPlaceable(ws: Planner.Workspace, tools: Planner.Tools, ops: seq<Planner.Operation>, r: Planner.Result<Plan>)
    requires Planner.PlansAs(ws, tools, ops, r) && r.Ok? && Rooted(ws.entries)
    ensures Supported(r.value, ws.entries)
    ensures !Planner.Clashes(r.value) ==> Placeable(r.value, ws.entries)
  {
    var plan := r.value;
    PlanFits(ws, tools, ops, r);
    Planner.PlanIsSequential(ws, tools, ops, r);
    hide Planner.PlayAll, Planner.PlansAs, Planner.Original, Planner.Written, ParentPlanned, Rooted;
    assert !Planner.Clashes(plan) ==> Apart(plan);
    forall p | p in plan.createdDirectories ensures ParentPlanned(plan, ws.entries, p) {
      Planner.PlannedDirectories(ws, tools, ops, r, p);
      var i :| 0 <= i < |ops| && Planner.Written(ops[i]).Some? && IsAncestor(p, Planner.Written(ops[i]).value);
      ParentIsPlanned(ws, tools, ops, r, i, p);
    }
    forall p | p in plan.after && plan.after[p].Some? ensures ParentPlanned(plan, ws.entries, p) {
      FinalText(ws, tools, ops, r, p);
      Planner.TextsAreWritten(ws, tools, ops, p);
      if Planner.IsWritten(ops, p) {
        var i :| 0 <= i < |ops| && Planner.Written(ops[i]) == Some(p);
        ParentIsPlanned(ws, tools, ops, r, i, p);
      } else {
        OriginalIsEntry(ws, p);
        RootedParent(ws.entries, plan, p);
      }
    }
  }

  lemma {:induction false} RootedParent(base: Tree, plan: Plan, p: Path)
    requires Rooted(base) && p in base
    ensures p != [] && ParentPlanned(plan, base, p)
  {
    assert p != [];
    if |p| > 1 { assert Ancestor(p, |p| - 1) in base; }
  }

  lemma {:induction false} OriginalIsEntry(ws: Planner.Workspace, p: Path)
    requires p in Planner.Original(ws)
    ensures p in ws.entries
  {
  }

  lemma {:induction false} FinalText(
    ws: Planner.Workspace, tools: Planner.Tools, ops: seq<Planner.Operation>, r: Planner.Result<Plan>, p: Path)
    requires Planner.PlansAs(ws, tools, ops, r) && r.Ok? && Planner.PlayAll(ws, tools, ops).Ok?
    requires p in r.value.after && r.value.after[p].Some?
    ensures p in Planner.PlayAll(ws, tools, ops).value.files
  {
    hide Planner.PlayAll, Planner.FinalCheck;
  }

  lemma {:induction false} MissingOrText(ws: Planner.Workspace, p: Path)
    requires Planner.OnDisk(ws, p) == Planner.Ok(Get(Planner.Original(ws), p))
    ensures Get(ws.entries, p) == EntryOf(Get(Planner.Original(ws), p))
  {
  }

  /** A plan that changes something is never both undone and done. */
  lemma {:induction false} NeverBoth(plan: Plan, d: Tree, p: Path)
    requires plan.before.Keys == plan.after.Keys && p in plan.after && plan.after[p] != plan.before[p]
    ensures !((forall q | q in plan.before :: Get(d, q) == EntryOf(plan.before[q]))
              && (forall q | q in plan.after :: Get(d, q) == EntryOf(plan.after[q])))
  {
    assert EntryOf(plan.after[p]) != EntryOf(plan.before[p]);
  }

  /** The worktree differs from the first one only at paths that some logged transaction names. */
  lemma {:induction false} OnlyLoggedChanges(initial: Tree, events: seq<Receipt>, p: Path)
    requires forall i | 0 <= i < |events| :: p !in events[i].after && p !in events[i].created
    ensures Get(Replay(initial, events), p) == Get(initial, p)
  {
    if events != [] { OnlyLoggedChanges(initial, events[..|events| - 1], p); }
  }

  /** A logged transaction can be taken back from its own event. */
  lemma {:induction false} ReceiptsCanBeUndone(base: Tree, plan: Plan)
    requires Fits(plan, base) && !Planner.Clashes(plan)
    ensures var done := Lay(base, plan.after, plan.createdDirectories);
            Lay(done, plan.before, []) - (set p | p in plan.createdDirectories) == base
  {
    var done := Lay(base, plan.after, plan.createdDirectories);
    var back := Lay(done, plan.before, []) - (set p | p in plan.createdDirectories);
    forall p ensures Get(back, p) == Get(base, p) {
      if p in plan.before { assert Get(base, p) == EntryOf(plan.before[p]); }
    }
    SameMap(back, base);
  }

  /** More revisions were handed out. */
  lemma {:induction false} NextRises(events: seq<Receipt>, revision: nat, next: nat)
    requires Rising(events, revision) && revision <= next
    ensures Rising(events, next)
  {
  }

  /** The newest revision is above every logged one. */
  lemma {:induction false} AboveAll(events: seq<Receipt>, r: Receipt)
    requires r.revision > 0 && Rising(events, r.revision - 1)
    ensures Rising(events + [r], r.revision)
  {
  }

  /** Appending one receipt lays its changes over the replayed tree. */
  lemma {:induction false} LogGrows(initial: Tree, events: seq<Receipt>, r: Receipt)
    ensures Replay(initial, events + [r]) == Lay(Replay(initial, events), r.after, r.created)
    ensures Distinct(Ids(events)) && r.id !in Ids(events) ==> Distinct(Ids(events + [r]))
    ensures Ids(events + [r]) == Ids(events) + [r.id]
  {
    assert (events + [r])[..|events|] == events;
    assert Ids(events + [r]) == Ids(events) + [r.id];
  }
}
