/**
 Accepting and discarding the current changes: freeze, recheck, apply, checkpoint, and the
 validation evidence they rest on.  Other programs may change the source between any two
 operations on it; `writes` remembers what the service itself wrote there.
 */
module Delivery {
  import opened Collections
  import opened Options
  import opened GitModel

  datatype SessionState = ChangesActive | Tainted | Accepting | Discarding | Recovery

  datatype Entry =
    | Validation(tree: Tree, base: Commit)
    | Accepted(tree: Tree, base: Commit, source: Tree, baseline: Commit)
    | Discarded(base: Commit)
    | Other(kind: string)

  /** The manifest names its patch by a digest; equal digests mean equal patches. */
  datatype Manifest = Manifest(id: nat, base: Commit, sourceTree: Tree, mergedTree: Tree, patchDigest: Patch)

  datatype Frozen = Frozen(manifest: Manifest, patch: Patch)

  datatype ApplyStatus = Rejected | SourceChanged | PatchCheckFailed | Applied | ApplyFailed

  /** `Failed` is a raised error. */
  datatype Outcome = Receipt(status: ApplyStatus) | Failed

  /** One successful `git apply` of the service: the tree it met and the tree it left. */
  datatype Write = Write(met: Tree, left: Tree)

  datatype CommandResult = CommandResult(started: bool, stopped: bool, completed: bool, exitCode: int)

  predicate Passed(r: CommandResult) { r.completed && r.exitCode == 0 && r.started && r.stopped }

  /** What the audit of a command writes to the log. */
  function AuditEntries(state: SessionState): seq<Entry> {
    match state
    case Recovery => [Other("recovery_required")]
    case Tainted => [Other("workspace_tainted")]
    case _ => []
  }

  /** What one command writes to the log. */
  function CommandEntries(state: SessionState, passed: bool, tree: Tree, base: Commit): seq<Entry> {
    AuditEntries(state) + [Other("command_completed")]
    + if passed && state == ChangesActive then [Validation(tree, base)] else []
  }

  /** A command leaves evidence exactly when it was a passed validation of an active workspace. */
  lemma {:induction false} EvidenceIsWritten(
    before: seq<Entry>, after: seq<Entry>, state: SessionState, validation: bool, r: CommandResult, tree: Tree, base: Commit)
    requires after == before + AuditEntries(state) + [Other("command_completed")]
                      + if validation && Passed(r) && state == ChangesActive then [Validation(tree, base)] else []
    ensures after == before + CommandEntries(state, validation && Passed(r), tree, base)
    ensures Validation(tree, base) in after[|before|..] <==>
            validation && r.started && r.stopped && r.completed && r.exitCode == 0 && state == ChangesActive
  {
    var entries := CommandEntries(state, validation && Passed(r), tree, base);
    assert after == before + entries && after[|before|..] == entries;
    assert validation && Passed(r) && state == ChangesActive ==> entries[1] == Validation(tree, base);
  }

  // ---------------------------------------------------------------- the log

  /** The accepted baseline after a log. */
  function BaseAfter(first: Commit, log: seq<Entry>): Commit {
    if log == [] then first
    else if log[|log| - 1].Accepted? then log[|log| - 1].baseline
    else BaseAfter(first, log[..|log| - 1])
  }

  ghost predicate HasEvidence(log: seq<Entry>, tree: Tree, base: Commit) { Validation(tree, base) in log }

  /** Every accepted tree was validated as it stood, on the baseline it was accepted from. */
  ghost predicate Honest(first: Commit, log: seq<Entry>) {
    log == [] ||
    var front, last := log[..|log| - 1], log[|log| - 1];
    && Honest(first, front)
    && (last.Accepted? ==>
          && last.base == BaseAfter(first, front)
          && last.baseline == Child(last.source, last.base)
          && HasEvidence(front, last.tree, last.base))
  }

  lemma {:induction false} LogAppend(first: Commit, log: seq<Entry>, e: Entry)
    requires Honest(first, log)
    requires e.Accepted? ==> e.base == BaseAfter(first, log) && e.baseline == Child(e.source, e.base) && HasEvidence(log, e.tree, e.base)
    ensures Honest(first, log + [e])
    ensures BaseAfter(first, log + [e]) == if e.Accepted? then e.baseline else BaseAfter(first, log)
  {
    assert (log + [e])[..|log|] == log;
  }

  lemma {:induction false} HonestPrefix(first: Commit, log: seq<Entry>, n: nat)
    requires Honest(first, log) && n <= |log|
    ensures Honest(first, log[..n])
    ensures Depth(BaseAfter(first, log[..n])) <= Depth(BaseAfter(first, log))
    ensures n < |log| && log[n].Accepted? ==>
              && log[n].base == BaseAfter(first, log[..n])
              && HasEvidence(log[..n], log[n].tree, log[n].base)
              && Depth(log[n].base) < Depth(BaseAfter(first, log))
    decreases |log|
  {
    var front := if log == [] then [] else log[..|log| - 1];
    if n == |log| {
      assert log[..n] == log;
    } else {
      HonestPrefix(first, front, n);
      assert front[..n] == log[..n];
      if n < |front| { assert front[n] == log[n]; }
    }
  }

  /** No evidence serves two accepts: the baselines they were accepted from differ. */
  lemma {:induction false} EvidenceIsNotReused(first: Commit, log: seq<Entry>, i: nat, k: nat)
    requires Honest(first, log) && i < k < |log| && log[i].Accepted? && log[k].Accepted?
    ensures log[i].base != log[k].base
    ensures Validation(log[i].tree, log[i].base) != Validation(log[k].tree, log[k].base)
    ensures exists v | 0 <= v < i :: log[v] == Validation(log[i].tree, log[i].base)
  {
    HonestPrefix(first, log, k);
    HonestPrefix(first, log[..k], i);
    assert log[..k][..i] == log[..i] && log[..k][i] == log[i];
    var v :| 0 <= v < i && log[..i][v] == Validation(log[i].tree, log[i].base);
  }

  /** After the patch was written, accept is not confirmed and goes back to active changes. */
  predicate Slips(f: Frozen, final: Option<Tree>) { final != Some(f.manifest.mergedTree) }

  class ChangesService {
    const git: Git
    ghost const first: Commit
    /** Whether other programs leave the source alone, and whether subprocesses and session writes may fail. */
    var quiet: bool
    var flaky: bool
    /** The user's source checkout. */
    var source: Tree
    /** The Agent worktree, and whether its directory is still there. */
    var active: Tree
    var present: bool
    var head: Commit
    /** The session record. */
    var state: SessionState
    var base: Commit
    var revision: nat
    var frozen: Option<Frozen>
    var log: seq<Entry>
    ghost var writes: seq<Write>
    /** How many steps failed. */
    ghost var faults: nat

    constructor (git: Git, c: Commit, source: Tree)
      ensures Inv() && state == ChangesActive && base == c && log == [] && writes == []
    {
      quiet, flaky := false, true;
      this.git := git;
      this.source := source;
      active, present, head := c.tree, true, c;
      state, base, revision, frozen, log := ChangesActive, c, 0, None, [];
      first := c;
      writes := [];
      faults := 0;
    }

    ghost predicate Inv()
      reads this
    {
      && Honest(first, log)
      && (state != Recovery ==> base == BaseAfter(first, log))
      && (state == ChangesActive || state == Tainted ==> frozen.None?)
    }

    method Append(e: Entry)
      requires Honest(first, log)
      requires e.Accepted? ==> e.base == BaseAfter(first, log) && e.baseline == Child(e.source, e.base) && HasEvidence(log, e.tree, e.base)
      modifies this`log
      ensures log == old(log) + [e] && Honest(first, log)
      ensures BaseAfter(first, log) == if e.Accepted? then e.baseline else BaseAfter(first, old(log))
    {
      LogAppend(first, log, e);
      log := log + [e];
    }

    /** Other programs at work in the source. */
    method SourceMoves()
      modifies this`source
      ensures quiet ==> source == old(source)
    {
      if !quiet {
        var moved: Tree :| true;
        source := moved;
      }
    }

    /** A subprocess, or a write to the session's files, that may fail. */
    method Succeeds() returns (ok: bool)
      modifies this`faults
      ensures !flaky ==> ok
      ensures faults == old(faults) + if ok then 0 else 1
    {
      ok :| flaky || ok;
      if !ok { faults := faults + 1; }
    }

    // -------------------------------------------------------------- commands and evidence

    /**
     `run_prepared`, from the recheck of the worktree on.  A validation is recorded only for the
     tree that a command with exit code 0 left behind.
     */
    method RunCommand(validation: bool, requestBase: Commit, requestTree: Tree) returns (ran: bool, result: CommandResult)
      requires Inv() && state == ChangesActive
      modifies this`active, this`state, this`revision, this`log, this`faults
      ensures Inv() && state in {ChangesActive, Tainted, Recovery}
      ensures ran && state != Tainted ==> faults == old(faults)
      ensures !ran ==> log == old(log) && active == old(active) && state == ChangesActive && revision == old(revision)
      ensures old(active) != requestTree ==> !ran
      ensures !flaky ==> (ran <==> old(active) == requestTree) && state != Tainted
      ensures ran ==>
                && log == old(log) + CommandEntries(state, validation && Passed(result), active, requestBase)
                && (Validation(active, requestBase) in log[|old(log)|..] <==>
                      && validation && result.started && result.stopped && result.completed && result.exitCode == 0
                      && state == ChangesActive)
                && (state == Recovery <==> result.started && !result.stopped)
                && (!result.started ==> active == old(active) && state == ChangesActive)
                && revision == old(revision) + (if state == ChangesActive && active != old(active) then 1 else 0)
    {
      hide Honest, BaseAfter, CommandEntries, AuditEntries, Passed;
      var snapshot := Succeeds();
      result :| true;
      if !snapshot || active != requestTree { return false, result; }
      var afterTree := Execute(result, requestTree);
      Append(Other("command_completed"));
      if validation && Passed(result) && state == ChangesActive {
        Append(Validation(afterTree, requestBase));
      }
      EvidenceIsWritten(old(log), log, state, validation, result, active, requestBase);
      ran := true;
    }

    /** What the command leaves behind, and what the audit makes of it. */
    method Execute(result: CommandResult, requestTree: Tree) returns (afterTree: Tree)
      requires Inv() && state == ChangesActive && active == requestTree
      modifies this`active, this`state, this`revision, this`log, this`faults
      ensures Inv() && state in {ChangesActive, Tainted, Recovery}
      ensures log == old(log) + AuditEntries(state)
      ensures state == Recovery <==> result.started && !result.stopped
      ensures state == Tainted ==> flaky && result.started && result.stopped
      ensures state != Tainted ==> faults == old(faults)
      ensures !result.started ==> active == requestTree && state == ChangesActive
      ensures state == ChangesActive ==> afterTree == active
      ensures revision == old(revision) + (if state == ChangesActive && active != requestTree then 1 else 0)
    {
      hide Honest, BaseAfter;
      afterTree := requestTree;
      if result.started {
        var left: Tree :| true;
        active := left;
        if !result.stopped {
          state := Recovery;
          Append(Other("recovery_required"));
        } else {
          var audited := Succeeds();
          if audited {
            if active != requestTree { revision := revision + 1; }
            afterTree := active;
          } else {
            state := Tainted;
            Append(Other("workspace_tainted"));
          }
        }
      }
    }

    /** `current_validation_evidence`: a passed validation of exactly this tree on exactly this baseline. */
    method CurrentEvidence() returns (ok: bool)
      modifies this`faults
      ensures ok ==> HasEvidence(log, active, base) && faults == old(faults)
      ensures !flaky ==> (ok <==> HasEvidence(log, active, base))
    {
      var snapshot := Succeeds();
      ok := snapshot && Validation(active, base) in log;
    }

    // -------------------------------------------------------------- freeze and apply

    /** The merge of the Agent's changes into a source. */
    function MergeInto(theirs: Tree): Merged
      reads this`active, this`base
    {
      MergeTrees(git, base.tree, active, theirs)
    }

    /** The changes merge into the source, and the patch is small but not empty. */
    predicate Mergeable()
      reads this`active, this`base, this`source
    {
      && MergeInto(source).Clean? && MergeInto(source).tree != source
      && git.small(Diff(source, MergeInto(source).tree))
    }

    /** What an accept needs: validated plain changes on the baseline that merge into the source. */
    ghost predicate Acceptable()
      reads this`present, this`head, this`base, this`active, this`log, this`source
    {
      && present && head == base && active != base.tree && HasEvidence(log, active, base)
      && git.plain(base.tree, active, source) && Mergeable()
    }

    /** `freeze` and `load`: `None` is a raised error. */
    method Freeze() returns (r: Option<Frozen>)
      requires Inv() && state == Accepting
      modifies this`source, this`frozen, this`log, this`faults
      ensures Inv() && base == old(base)
      ensures BaseAfter(first, log) == BaseAfter(first, old(log)) && forall e | e in old(log) :: e in log
      ensures r.Some? ==> present && head == base && HasEvidence(log, active, base) && r == frozen && IsFrozen(r.value)
      ensures r.Some? ==> faults == old(faults)
      ensures r.Some? ==> Combines(git, base.tree, active, r.value.manifest.sourceTree, r.value.manifest.mergedTree)
      ensures quiet && Clashes(git, base.tree, active, old(source)) ==> r.None?
      ensures quiet ==> source == old(source) && (r.Some? ==> r.value.manifest.sourceTree == source)
      ensures quiet && !flaky ==> (r.Some? <==> old(Acceptable()))
    {
      hide Honest, BaseAfter, MergeTrees, Diff, Mergeable, Combines, Clashes;
      DiffIsEmpty(head.tree, active);
      if !present || head != base { return None; }
      if Diff(head.tree, active) == map[] { return None; }
      var evidence := CurrentEvidence();
      if !evidence { return None; }
      SourceMoves();
      var listed := Succeeds();
      if !listed || !git.plain(base.tree, active, source) { return None; }
      if active == base.tree { return None; }
      r := FreezeMerge();
    }

    /** The frozen patch takes the frozen source to its clean merge with the Agent's changes. */
    predicate IsFrozen(f: Frozen)
      reads this`active, this`base
    {
      && f.manifest.base == base
      && MergeInto(f.manifest.sourceTree) == Clean(f.manifest.mergedTree)
      && f.patch == Diff(f.manifest.sourceTree, f.manifest.mergedTree) != map[]
    }

    /** The second half of `freeze`: the merge with the source as it is now, and its patch. */
    method FreezeMerge() returns (r: Option<Frozen>)
      requires Inv() && state == Accepting
      modifies this`source, this`frozen, this`log, this`faults
      ensures Inv() && BaseAfter(first, log) == BaseAfter(first, old(log))
      ensures log == old(log) + if r.Some? then [Other("changes_frozen")] else []
      ensures r.Some? ==> r == frozen && IsFrozen(r.value) && faults == old(faults)
      ensures r.Some? ==> Combines(git, base.tree, active, r.value.manifest.sourceTree, r.value.manifest.mergedTree)
      ensures quiet && Clashes(git, base.tree, active, old(source)) ==> r.None?
      ensures quiet ==> source == old(source) && (r.Some? ==> r.value.manifest.sourceTree == source)
      ensures quiet && !flaky ==> (r.Some? <==> old(Mergeable()))
    {
      hide Honest, BaseAfter, MergeTrees, Diff, Combines, Clashes;
      SourceMoves();
      var snapshot := Succeeds();
      if !snapshot { return None; }
      var sourceTree := source;
      MergeCombines(git, base.tree, active, sourceTree);
      var merged := MergeInto(sourceTree);
      if merged.Conflict? { return None; }
      var patch := Diff(sourceTree, merged.tree);
      DiffIsEmpty(sourceTree, merged.tree);
      var diffed := Succeeds();
      if !diffed || patch == map[] || !git.small(patch) { return None; }
      var id: nat :| true;
      frozen := Some(Frozen(Manifest(id, base, sourceTree, merged.tree, patch), patch));
      var recorded := Succeeds();
      if !recorded { return None; }
      Append(Other("changes_frozen"));
      r := frozen;
    }

    /** The tree of the source as it is now; `None` is a raised error. */
    method SnapshotSource() returns (tree: Option<Tree>)
      modifies this`source, this`faults
      ensures tree.Some? ==> tree.value == source && faults == old(faults)
      ensures quiet ==> source == old(source)
      ensures !flaky ==> tree.Some?
    {
      SourceMoves();
      var ok := Succeeds();
      tree := if ok then Some(source) else None;
    }

    /** `git apply --check` */
    method Preflight(patch: Patch) returns (ok: bool, ghost met: Tree)
      modifies this`source
      ensures met == source && ok == GitApply(git, patch, met).Some?
      ensures quiet ==> source == old(source)
    {
      SourceMoves();
      met := source;
      ok := GitApply(git, patch, source).Some?;
    }

    /** `git apply`: `wrote` tells whether the source was changed. */
    method GitApplyToSource(patch: Patch) returns (wrote: bool)
      modifies this`source, this`writes
      ensures !wrote ==> writes == old(writes)
      ensures wrote ==>
                && |writes| == |old(writes)| + 1 && writes[..|old(writes)|] == old(writes)
                && GitApply(git, patch, writes[|old(writes)|].met) == Some(writes[|old(writes)|].left)
                && source == writes[|old(writes)|].left
      ensures quiet ==>
                if wrote then GitApply(git, patch, old(source)) == Some(source)
                else source == old(source) && GitApply(git, patch, source).None?
    {
      SourceMoves();
      var after := GitApply(git, patch, source);
      if after.None? { return false; }
      writes := writes + [Write(source, after.value)];
      source := after.value;
      wrote := true;
    }

    /**
     `apply` with its record.  `recorded` says that no result was lost: recording it can fail even
     after the last look confirmed the merged tree, and then the call raises.
     */
    method ApplyFrozen(f: Frozen, approved: bool)
      returns (r: Option<ApplyStatus>, ghost second: Option<Tree>, ghost final: Option<Tree>, ghost recorded: bool)
      requires Inv() && f.patch == Diff(f.manifest.sourceTree, f.manifest.mergedTree)
      modifies this`source, this`writes, this`log, this`faults
      ensures Inv() && BaseAfter(first, log) == BaseAfter(first, old(log))
      ensures log == old(log) + if r.Some? then [Other("changes_apply_result")] else []
      ensures writes == old(writes) || Grew(old(writes), f.patch)
      ensures r in {Some(Rejected), Some(SourceChanged), Some(PatchCheckFailed)} ==> writes == old(writes)
      ensures final.Some? ==> Grew(old(writes), f.patch)
      ensures r == Some(Applied) <==> final == Some(f.manifest.mergedTree) && recorded
      ensures r.Some? ==> faults == old(faults)
      ensures !recorded ==> r.None? && flaky
      ensures r.None? && writes != old(writes) ==> final.None? || !recorded
      ensures writes != old(writes) ==> approved && second == Some(f.manifest.sourceTree)
      ensures r == Some(Rejected) ==> !approved
      ensures second.Some? ==> approved
      ensures r == Some(ApplyFailed) ==> second == Some(f.manifest.sourceTree)
      ensures quiet && !flaky && old(source) == f.manifest.sourceTree ==>
                && r == Some(if approved then Applied else Rejected)
                && source == if approved then f.manifest.mergedTree else old(source)
    {
      hide Honest, BaseAfter, Diff, GitApply;
      ghost var checked;
      r, second, final, checked := TryApply(f, approved);
      recorded := true;
      if r.Some? {
        var written := Succeeds();
        recorded := written;
        if !written { return None, second, final, recorded; }
        Append(Other("changes_apply_result"));
      }
    }

    /**
     `apply` up to its record: two checks of the frozen source around the approval, then the patch,
     then a third look.  `None` is a raised error; `second` and `final` are the trees that the second
     and the third look saw, and `checked` those that the patch was tried on: the approval counts
     after the first, and nothing is written before the second.
     */
    method TryApply(f: Frozen, approved: bool)
      returns (r: Option<ApplyStatus>, ghost second: Option<Tree>, ghost final: Option<Tree>, ghost checked: seq<Tree>)
      requires f.patch == Diff(f.manifest.sourceTree, f.manifest.mergedTree)
      modifies this`source, this`writes, this`faults
      ensures writes == old(writes) || Grew(old(writes), f.patch)
      ensures r in {Some(Rejected), Some(SourceChanged), Some(PatchCheckFailed)} ==> writes == old(writes)
      ensures final.Some? ==> Grew(old(writes), f.patch)
      ensures r == Some(Applied) <==> final == Some(f.manifest.mergedTree)
      ensures r.Some? ==> faults == old(faults)
      ensures |checked| <= 2 && forall i | 0 <= i < |checked| ::
                GitApply(git, f.patch, checked[i]).Some? || (i == |checked| - 1 && r == Some(PatchCheckFailed))
      ensures r == Some(PatchCheckFailed) ==> checked != [] && GitApply(git, f.patch, checked[|checked| - 1]).None?
      ensures second.Some? || r == Some(Rejected) ==> checked != []
      ensures writes != old(writes) || r == Some(ApplyFailed) ==> |checked| == 2
      ensures r.None? && writes != old(writes) ==> final.None?
      ensures writes != old(writes) ==> approved && second == Some(f.manifest.sourceTree)
      ensures r == Some(Rejected) ==> !approved
      ensures second.Some? ==> approved
      ensures r == Some(ApplyFailed) ==> second == Some(f.manifest.sourceTree)
      ensures quiet && !flaky && old(source) == f.manifest.sourceTree ==>
                && r == Some(if approved then Applied else Rejected)
                && source == if approved then f.manifest.mergedTree else old(source)
    {
      hide Diff, GitApply;
      ApplyInvertsDiff(git, f.manifest.sourceTree, f.manifest.mergedTree);
      second, final, checked := None, None, [];
      var seen := SnapshotSource();
      if seen.None? { return None, None, None, []; }
      if seen.value != f.manifest.sourceTree { return Some(SourceChanged), None, None, []; }
      var fits, met := Preflight(f.patch);
      checked := [met];
      if !fits { return Some(PatchCheckFailed), None, None, checked; }
      if !approved { return Some(Rejected), None, None, checked; }
      seen := SnapshotSource();
      second := seen;
      if seen.None? { return None, second, None, checked; }
      if seen.value != f.manifest.sourceTree { return Some(SourceChanged), second, None, checked; }
      fits, met := Preflight(f.patch);
      checked := checked + [met];
      if !fits { return Some(PatchCheckFailed), second, None, checked; }
      var wrote := GitApplyToSource(f.patch);
      if !wrote { return Some(ApplyFailed), second, None, checked; }
      seen := SnapshotSource();
      final := seen;
      if seen.None? { return None, second, final, checked; }
      r := Some(if seen.value == f.manifest.mergedTree then Applied else ApplyFailed);
    }

    /** The service wrote the source once, by this patch. */
    ghost predicate Grew(before: seq<Write>, patch: Patch)
      reads this
    {
      && |writes| == |before| + 1 && writes[..|before|] == before
      && GitApply(git, patch, writes[|before|].met) == Some(writes[|before|].left)
    }

    // -------------------------------------------------------------- accept and discard

    /** `_clear_frozen`; it raises only where there is something to remove. */
    method ClearFrozen() returns (ok: bool)
      modifies this`frozen, this`faults
      ensures if ok then frozen.None? && faults == old(faults) else frozen == old(frozen)
      ensures !flaky || old(frozen).None? ==> ok
    {
      if frozen.None? { return true; }
      ok := Succeeds();
      if ok { frozen := None; }
    }

    /**
     The handler of `accept` before the source is confirmed: back to active changes, or
     `recovery_required` when there is no worktree any more.  Where the frozen files cannot be
     cleared, the session stays in `accepting`.
     */
    method GiveBack() returns (cleared: bool)
      requires Inv() && state == Accepting
      modifies this`frozen, this`state, this`log, this`faults
      ensures Inv() && state == if !cleared then Accepting else if present then ChangesActive else Recovery
      ensures !flaky ==> cleared
      ensures forall e | e in log && e.Accepted? :: e in old(log)
    {
      cleared := ClearFrozen();
      if !cleared { return; }
      if present {
        state := ChangesActive;
      } else {
        MarkRecovery();
      }
    }

    /** The handler of `accept` once the source is confirmed. */
    method AskForRecovery() returns (cleared: bool)
      requires Inv() && state == Accepting
      modifies this`frozen, this`state, this`log, this`faults
      ensures Inv() && state == (if cleared then Recovery else Accepting)
    {
      cleared := ClearFrozen();
      if cleared { MarkRecovery(); }
    }

    method MarkRecovery()
      requires Honest(first, log)
      modifies this`state, this`log
      ensures Inv() && state == Recovery
      ensures forall e | e in log && e.Accepted? :: e in old(log)
    {
      Append(Other("recovery_required"));
      state := Recovery;
    }

    /** `_checkpoint`: a commit of the merged tree on the old baseline, and a hard reset to it. */
    method Checkpoint(tree: Tree, parent: Commit) returns (c: Option<Commit>)
      modifies this`head, this`active, this`faults
      ensures !flaky ==> c.Some?
      ensures c.Some? ==> faults == old(faults)
      ensures c.Some? ==>
                c.value == Child(tree, parent) && head == c.value && active == ResetHard(old(head), c.value, old(active))
    {
      var committed := Succeeds();
      if !committed { return None; }
      var done := Succeeds();
      if !done {
        var partial: Tree, where: Commit :| true;
        active, head := partial, where;
        return None;
      }
      active := ResetHard(head, Child(tree, parent), active);
      head := Child(tree, parent);
      c := Some(head);
    }

    /**
     `accept`, with the user's answer.  `f` is what was frozen, `final` what the last look at the
     source saw, `recorded` whether the result of the application could be recorded, and `cleared`
     whether a failed accept could clear the frozen files.
     */
    method Accept(approved: bool)
      returns (out: Outcome, ghost f: Option<Frozen>, ghost final: Option<Tree>, ghost recorded: bool, ghost cleared: bool)
      requires Inv()
      modifies this`source, this`active, this`head, this`state, this`base, this`frozen, this`log, this`writes, this`faults
      ensures Inv()
      ensures quiet && !flaky ==>
                && out == (if old(state) != ChangesActive || !old(Acceptable()) then Failed
                           else Receipt(if approved then Applied else Rejected))
                && source == if out == Receipt(Applied) then active else old(source)
      ensures old(state) != ChangesActive ==> out.Failed? && state == old(state) && writes == old(writes)
      ensures out == Receipt(Applied) ==> Delivered(old(writes), old(log), old(base), old(active), f, final)
      ensures out == Receipt(Applied) ==>
                Combines(git, old(base).tree, old(active), f.value.manifest.sourceTree, f.value.manifest.mergedTree)
      ensures quiet && Clashes(git, old(base).tree, old(active), old(source)) ==> out.Failed? && source == old(source)
      ensures out == Receipt(Applied) ==> state == ChangesActive && active == base.tree == f.value.manifest.mergedTree && head == base
      ensures out != Receipt(Applied) && state == ChangesActive ==> base == old(base) && active == old(active) && head == old(head)
      ensures writes == old(writes) || (f.Some? && Grew(old(writes), f.value.patch))
      ensures writes != old(writes) ==> approved
      ensures out == Receipt(Rejected) ==> !approved
      ensures out.Receipt? ==> faults == old(faults)
      ensures final.Some? ==> f.Some? && writes != old(writes)
      ensures !recorded || !cleared ==> flaky
      ensures f.Some? && !Slips(f.value, final) ==> out == Receipt(Applied) || out.Failed?
      ensures old(state) == ChangesActive ==> state in {ChangesActive, Recovery, Accepting} && (state == Accepting <==> !cleared)
      ensures out != Receipt(Applied) && old(state) == ChangesActive && old(present) ==>
                state == if !cleared then Accepting
                         else if f.Some? && !Slips(f.value, final) && recorded then Recovery
                         else ChangesActive
    {
      hide Honest, BaseAfter, Diff, MergeTrees, GitApply, Acceptable, Combines, Clashes;
      f, final, recorded, cleared := None, None, true, true;
      if state != ChangesActive { return Failed, None, None, true, true; }
      var begun := Succeeds();
      if !begun { return Failed, None, None, true, true; }
      state := Accepting;
      var frozenNow := Freeze();
      if frozenNow.None? {
        var back := GiveBack();
        return Failed, None, None, true, back;
      }
      f := frozenNow;
      out, final, recorded, cleared := Deliver(frozenNow.value, approved);
    }

    /** The second half of `accept`: apply what was frozen, and conclude or give back. */
    method Deliver(f: Frozen, approved: bool)
      returns (out: Outcome, ghost final: Option<Tree>, ghost recorded: bool, ghost cleared: bool)
      requires Inv() && state == Accepting && present && head == base && HasEvidence(log, active, base) && IsFrozen(f)
      modifies this`source, this`active, this`head, this`state, this`base, this`frozen, this`log, this`writes, this`faults
      ensures Inv()
      ensures quiet && !flaky && old(source) == f.manifest.sourceTree ==>
                && out == Receipt(if approved then Applied else Rejected)
                && source == if approved then active else old(source)
      ensures out == Receipt(Applied) ==>
                && Delivered(old(writes), old(log), old(base), old(active), Some(f), final)
                && state == ChangesActive && active == base.tree == f.manifest.mergedTree && head == base
      ensures out != Receipt(Applied) && state == ChangesActive ==> base == old(base) && active == old(active) && head == old(head)
      ensures writes == old(writes) || (approved && Grew(old(writes), f.patch))
      ensures out == Receipt(Rejected) ==> !approved
      ensures out.Receipt? ==> faults == old(faults)
      ensures final.Some? ==> writes != old(writes)
      ensures !recorded || !cleared ==> flaky
      ensures !Slips(f, final) ==> out == Receipt(Applied) || out.Failed?
      ensures state in {ChangesActive, Recovery, Accepting} && (state == Accepting <==> !cleared)
      ensures out != Receipt(Applied) ==>
                state == if !cleared then Accepting else if !Slips(f, final) && recorded then Recovery else ChangesActive
    {
      hide Honest, BaseAfter, Diff, MergeTrees, GitApply;
      var status, second, seen, kept := ApplyFrozen(f, approved);
      final, recorded := seen, kept;
      if status == Some(Applied) {
        var done, wiped := Conclude(f.manifest);
        return if done then Receipt(Applied) else Failed, final, recorded, wiped;
      }
      out, cleared := NotApplied(status);
    }

    /** The end of an accept that did not confirm the merged tree: back to active changes. */
    method NotApplied(status: Option<ApplyStatus>) returns (out: Outcome, ghost cleared: bool)
      requires Inv() && state == Accepting && present && status != Some(Applied)
      modifies this`frozen, this`state, this`log, this`faults
      ensures Inv() && state == if cleared then ChangesActive else Accepting
      ensures out == Failed || (cleared && status.Some? && out == Receipt(status.value) && faults == old(faults))
      ensures !flaky ==> cleared && (status.Some? ==> out == Receipt(status.value))
      ensures forall e | e in log && e.Accepted? :: e in old(log)
    {
      hide Honest, BaseAfter;
      if status.Some? {
        var removed := ClearFrozen();
        var written := Succeeds();
        if removed && written {
          state := ChangesActive;
          return Receipt(status.value), true;
        }
      }
      cleared := GiveBack();
      out := Failed;
    }

    /** What accept does once the source is confirmed; any failure asks for recovery. */
    method Conclude(manifest: Manifest) returns (ok: bool, ghost cleared: bool)
      requires Inv() && state == Accepting && head == base && manifest.base == base && HasEvidence(log, active, base)
      requires MergeTrees(git, base.tree, active, manifest.sourceTree) == Clean(manifest.mergedTree)
      modifies this`head, this`active, this`frozen, this`base, this`state, this`log, this`faults
      ensures Inv()
      ensures !flaky ==> ok
      ensures !ok ==> state == if cleared then Recovery else Accepting
      ensures !cleared ==> flaky && !ok
      ensures ok ==> faults == old(faults)
      ensures ok ==>
                && state == ChangesActive && active == base.tree == manifest.mergedTree && head == base
                && base == Child(manifest.mergedTree, old(base))
                && log == old(log) + [Accepted(old(active), old(base), manifest.mergedTree, base)]
    {
      ghost var ours := active;
      var tree, from := active, base;
      cleared := true;
      var checkpoint := Checkpoint(manifest.mergedTree, manifest.base);
      var saved := Succeeds();
      var removed := false;
      if checkpoint.Some? && saved { removed := ClearFrozen(); }
      var written := Succeeds();
      if !removed || !written {
        var wiped := AskForRecovery();
        return false, wiped;
      }
      ResetToMerge(git, base, checkpoint.value, ours, manifest.sourceTree);
      base := checkpoint.value;
      state := ChangesActive;
      var logged := Succeeds();
      if !logged {
        MarkRecovery();
        return false, true;
      }
      Append(Accepted(tree, from, manifest.mergedTree, checkpoint.value));
      ok := true;
    }

    /**
     A delivery: one write of the source by the frozen patch, confirmed to give the merged tree,
     and one log entry for the validated worktree tree on its baseline.
     */
    ghost predicate Delivered(
      before: seq<Write>, oldLog: seq<Entry>, oldBase: Commit, ours: Tree, f: Option<Frozen>, final: Option<Tree>)
      reads this
    {
      && f.Some? && Grew(before, f.value.patch)
      && final == Some(f.value.manifest.mergedTree)
      && f.value.patch == Diff(f.value.manifest.sourceTree, f.value.manifest.mergedTree)
      && MergeTrees(git, oldBase.tree, ours, f.value.manifest.sourceTree) == Clean(f.value.manifest.mergedTree)
      && log != [] && log[|log| - 1] == Accepted(ours, oldBase, f.value.manifest.mergedTree, base)
      && base == Child(f.value.manifest.mergedTree, oldBase)
      && HasEvidence(log, ours, oldBase)
    }

    /** `discard`: back to the baseline, proved by looking, or recovery. */
    method Discard() returns (ok: bool)
      requires Inv()
      modifies this`head, this`active, this`state, this`frozen, this`log, this`faults
      ensures Inv() && base == old(base)
      ensures old(state) !in {ChangesActive, Tainted} ==> !ok && state == old(state) && active == old(active)
      ensures old(state) in {ChangesActive, Tainted} ==> state == if ok then ChangesActive else Recovery
      ensures ok ==> active == base.tree && head == base && log == old(log) + [Discarded(base)] && faults == old(faults)
      ensures !flaky && present && old(state) in {ChangesActive, Tainted} ==> ok
    {
      if state !in {ChangesActive, Tainted} { return false; }
      state := Discarding;
      ok := ResetToBase();
      if !ok {
        MarkRecovery();
        return;
      }
      frozen := None;
      var recorded := Succeeds();
      if !recorded {
        MarkRecovery();
        return false;
      }
      Append(Discarded(base));
      state := ChangesActive;
    }

    /** The two Git commands of `discard`, and its proof by observation. */
    method ResetToBase() returns (ok: bool)
      modifies this`head, this`active, this`faults
      ensures ok ==> active == base.tree && head == base && present && faults == old(faults)
      ensures !flaky && present ==> ok
    {
      var reset := Succeeds();
      if !present || !reset {
        var partial: Tree, where: Commit :| true;
        active, head := partial, where;
        return false;
      }
      ResetAndClean(head, base, active);
      active := ResetHard(head, base, active);
      head := base;
      var cleaned := Succeeds();
      if !cleaned { return false; }
      active := Cleaned(head, active);
      var seen := Succeeds();
      ok := seen && head == base && active == base.tree;
    }

    // -------------------------------------------------------------- whole sessions

    /** The Agent's edits, the user's own work, commands, accepts and discards, in any order. */
    method Session(steps: nat)
      requires Inv()
      modifies this
      ensures Inv()
    {
      for n := 0 to steps
        invariant Inv()
      {
        var tree: Tree, c: Commit, coin: bool :| true;
        if
        case true => SourceMoves();
        case state == ChangesActive =>
          active := tree;
          revision := revision + 1;
        case true => present := coin;
        case true => quiet := coin;
        case true => flaky := coin;
        case state == ChangesActive => var ran, result := RunCommand(coin, c, tree);
        case true => var out, f, final, recorded, cleared := Accept(coin);
        case true => var ok := Discard();
      }
    }
  }

  /**
   When the service leaves its patch in a source it does not call accepted.  It takes the patch
   meeting other texts than the frozen ones, or the last look failing or seeing something else.
   Where the patch fits exactly and the last look sees what was written, the condition is exact: the
   source was not the frozen one.
   */
  lemma {:induction false} SlipNeedsInterference(g: Git, f: Frozen, w: Write, final: Option<Tree>)
    requires f.patch == Diff(f.manifest.sourceTree, f.manifest.mergedTree)
    requires GitApply(g, f.patch, w.met) == Some(w.left)
    ensures Slips(f, final) ==> final != Some(w.left) || w.met != f.manifest.sourceTree
    ensures Applies(f.patch, w.met) && final == Some(w.left) ==> (Slips(f, final) <==> w.met != f.manifest.sourceTree)
  {
    ApplyInvertsDiff(g, f.manifest.sourceTree, f.manifest.mergedTree);
    if Applies(f.patch, w.met) { AppliedElsewhere(g, f.manifest.sourceTree, f.manifest.mergedTree, w.met); }
  }

  /**
   Such a slip: the user adds a file after the last check.  The patch still applies and the source
   then holds it; the last look sees the tree that was written, and accept goes back to active changes.
   */
  lemma {:induction false} SlipExample(g: Git, id: nat, base: Commit)
    ensures var frozenSource, merged := map["a" := "1"], map["a" := "2"];
            var moved := map["a" := "1", "b" := "mine"];
            var patch := Diff(frozenSource, merged);
            var f := Frozen(Manifest(id, base, frozenSource, merged, patch), patch);
            && GitApply(g, patch, moved).Some?
            && Get(GitApply(g, patch, moved).value, "a") == Some("2")
            && Slips(f, GitApply(g, patch, moved))
  {
    var frozenSource, merged, moved := map["a" := "1"], map["a" := "2"], map["a" := "1", "b" := "mine"];
    var patch := Diff(frozenSource, merged);
    assert patch == map["a" := Change(Some("1"), Some("2"))];
    assert Applies(patch, moved);
    assert Get(Patched(patch, moved), "a") == Some("2");
    assert "b" in moved && "b" !in frozenSource;
    var f := Frozen(Manifest(id, base, frozenSource, merged, patch), patch);
    SlipNeedsInterference(g, f, Write(moved, Patched(patch, moved)), Some(Patched(patch, moved)));
  }
}
