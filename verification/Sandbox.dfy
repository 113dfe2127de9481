/**
 The sandbox policy and the mount list that carries it out.  Paths are absolute, resolved, and
 given by their components; the last mount that covers a path decides what can be done there.
 */
module Sandbox {
  import opened Options
  import opened Paths

  const TMP: Path := ["tmp"]

  datatype Capability = FilesystemRead | FilesystemWrite | Network

  datatype Decision = Allow | Ask | Deny

  datatype Identity = Identity(device: nat, inode: nat, mode: nat, size: nat, mtime: nat)

  datatype Request = Request(capability: Capability, resource: Option<Path>, identity: Option<Identity>)

  datatype Grant = Grant(capability: Capability, resource: Option<Path>, identity: Option<Identity>, directory: bool)

  /** The host file system, as far as the policy looks at it. */
  datatype Host = Host(exists_: Path -> bool, isDir: Path -> bool)

  datatype Policy = Policy(
    candidate: Path, source: Path, cache: Path, denied: set<Path>, protected: set<Path>)

  datatype Effective = Effective(policy: Policy, writes: set<Path>, network: bool)

  // ---------------------------------------------------------------- decisions

  predicate Overlap(a: Path, b: Path) { Below(a, b) || Below(b, a) }

  predicate SameResource(a: Option<Identity>, b: Option<Identity>) {
    a.None? || b.None?
    || (a.value.device == b.value.device && a.value.inode == b.value.inode && a.value.mode == b.value.mode)
  }

  predicate Covers(g: Grant, r: Request) {
    || (r.capability.Network? && g.capability.Network?)
    || (&& r.resource.Some? && g.resource.Some?
        && (g.capability == r.capability || (g.capability.FilesystemWrite? && r.capability.FilesystemRead?))
        && SameResource(g.identity, r.identity)
        && ((g.directory && Below(r.resource.value, g.resource.value)) || g.resource == r.resource))
  }

  predicate Covered(r: Request, grants: set<Grant>) { exists g | g in grants :: Covers(g, r) }

  function Evaluate(p: Policy, r: Request, session: set<Grant>): Decision {
    if Covered(r, session) then Allow
    else if r.capability.Network? then Ask
    else if r.resource.None? then Deny
    else
      var path := r.resource.value;
      if exists d | d in p.denied :: Overlap(path, d) then Deny
      else if r.capability.FilesystemRead? then Allow
      else if Below(path, p.source) || exists q | q in p.protected :: Overlap(path, q) then Deny
      else if Below(path, p.candidate) || Below(path, p.cache) then Allow
      else Ask
  }

  /** Network access is asked for, and granted for all hosts at once. */
  lemma {:induction false} NetworkIsAsked(p: Policy, r: Request, session: set<Grant>)
    requires r.capability.Network?
    ensures Evaluate(p, r, session) == if exists g | g in session :: g.capability.Network? then Allow else Ask
    ensures EffectivePolicy(p, session).network <==> Evaluate(p, r, session) == Allow
  {
  }

  /** Without a session grant, what is denied: no path, near a denied one, or a write to a boundary. */
  lemma {:induction false} DeniedExactly(p: Policy, r: Request, session: set<Grant>)
    requires !r.capability.Network? && !Covered(r, session)
    ensures Evaluate(p, r, session) == Deny <==>
            || r.resource.None?
            || (exists q | q in p.denied :: Below(r.resource.value, q) || Below(q, r.resource.value))
            || (r.capability.FilesystemWrite?
                && (Below(r.resource.value, p.source)
                    || exists q | q in p.protected :: Below(r.resource.value, q) || Below(q, r.resource.value)))
    ensures Evaluate(p, r, session) == Ask <==>
            && Evaluate(p, r, session) != Deny && r.capability.FilesystemWrite?
            && !Below(r.resource.value, p.candidate) && !Below(r.resource.value, p.cache)
  {
  }

  /**
   A grant made for a request covers that request again, and no other resource: only the same path, or
   for a directory a path below it, and never a file that was replaced since.
   */
  lemma {:induction false} GrantsAreSpecific(r: Request, again: Request, directory: bool)
    requires r.resource.Some? && !r.capability.Network?
    ensures Covers(GrantFor(r, directory), r)
    ensures Covers(GrantFor(r, directory), again) ==>
              && again.resource.Some? && (again.resource == r.resource || (directory && Below(again.resource.value, r.resource.value)))
              && (again.capability == r.capability || (r.capability.FilesystemWrite? && again.capability.FilesystemRead?))
    ensures r.identity.Some? && again.identity.Some?
            && (r.identity.value.device, r.identity.value.inode) != (again.identity.value.device, again.identity.value.inode) ==>
              !Covers(GrantFor(r, directory), again)
  {
  }

  function GrantFor(r: Request, directory: bool): Grant { Grant(r.capability, r.resource, r.identity, directory) }

  function EffectivePolicy(p: Policy, grants: set<Grant>): Effective {
    Effective(p,
              set g | g in grants && g.resource.Some? && g.capability.FilesystemWrite? :: g.resource.value,
              exists g | g in grants :: g.capability.Network?)
  }

  // ---------------------------------------------------------------- mounts

  datatype Mode = RoBind | Bind | Tmpfs | MakeDir | MaskDir | MaskFile

  datatype Mount = Mount(mode: Mode, destination: Path)

  datatype Access = Masked | ReadOnly | ReadWrite | PrivateTmp | Nothing

  function AccessOf(m: Mode): Access {
    match m
    case RoBind => ReadOnly
    case Bind => ReadWrite
    case Tmpfs => PrivateTmp
    case MakeDir => Nothing
    case MaskDir => Masked
    case MaskFile => Masked
  }

  /** What the last covering mount allows; making a directory mounts nothing. */
  function AccessAt(ops: seq<Mount>, p: Path): Access {
    if ops == [] then Nothing
    else
      var last := ops[|ops| - 1];
      if last.mode != MakeDir && Below(p, last.destination) then AccessOf(last.mode)
      else AccessAt(ops[..|ops| - 1], p)
  }

  function Writable(e: Effective): set<Path> { e.writes + {e.policy.candidate, e.policy.cache} }

  predicate Under(p: Path, roots: set<Path>, h: Host) { exists r | r in roots :: h.exists_(r) && Below(p, r) }

  /** The policy itself, with no list in sight. */
  function PolicyAccess(h: Host, e: Effective, p: Path): Access {
    if Under(p, e.policy.denied, h) then Masked
    else if Under(p, e.policy.protected, h) then ReadOnly
    else if h.exists_(e.policy.source) && Below(p, e.policy.source) then ReadOnly
    else if exists w | w in Writable(e) :: Below(p, w) then ReadWrite
    else if Below(p, TMP) then PrivateTmp
    else ReadOnly
  }

  lemma {:induction false} AccessAppend(ops: seq<Mount>, m: Mount, p: Path)
    ensures AccessAt(ops + [m], p) ==
            if m.mode != MakeDir && Below(p, m.destination) then AccessOf(m.mode) else AccessAt(ops, p)
  {
    assert (ops + [m])[..|ops|] == ops;
  }

  /** The mount mode of one path of a group. */
  function ModeFor(h: Host, group: Mode, p: Path): Mode {
    if group.MaskDir? || group.MaskFile? then (if h.isDir(p) then MaskDir else MaskFile) else group
  }

  function GroupMounts(h: Host, group: Mode, order: seq<Path>): (r: seq<Mount>)
    ensures |r| == |order| && forall i | 0 <= i < |r| :: r[i] == Mount(ModeFor(h, group, order[i]), order[i])
  {
    seq(|order|, i requires 0 <= i < |order| => Mount(ModeFor(h, group, order[i]), order[i]))
  }

  predicate UnderAny(p: Path, order: seq<Path>) { exists i | 0 <= i < |order| :: Below(p, order[i]) }

  /** One group of the list: the paths from the outside in. */
  method AppendGroup(h: Host, ops: seq<Mount>, group: Mode, paths: set<Path>) returns (all: seq<Mount>, ghost order: seq<Path>)
    ensures InDepthOrder(order, paths) && all == ops + GroupMounts(h, group, order)
  {
    var sorted := ByDepth(paths);
    all := ops;
    for k := 0 to |sorted|
      invariant all == ops + GroupMounts(h, group, sorted[..k])
    {
      assert GroupMounts(h, group, sorted[..k + 1]) == GroupMounts(h, group, sorted[..k]) + [Mount(ModeFor(h, group, sorted[k]), sorted[k])];
      all := all + [Mount(ModeFor(h, group, sorted[k]), sorted[k])];
    }
    assert sorted[..|sorted|] == sorted;
    order := sorted;
  }

  /** A group decides the paths it covers and leaves the others as they were. */
  lemma {:induction false} GroupAccess(h: Host, ops: seq<Mount>, group: Mode, order: seq<Path>, p: Path)
    ensures AccessAt(ops + GroupMounts(h, group, order), p) ==
            if group != MakeDir && UnderAny(p, order) then AccessOf(group) else AccessAt(ops, p)
  {
    if order == [] {
      assert ops + GroupMounts(h, group, order) == ops;
    } else {
      hide AccessAt, UnderAny;
      var front, last := order[..|order| - 1], order[|order| - 1];
      GroupAccess(h, ops, group, front, p);
      var m := Mount(ModeFor(h, group, last), last);
      assert ops + GroupMounts(h, group, order) == ops + GroupMounts(h, group, front) + [m];
      AccessAppend(ops + GroupMounts(h, group, front), m, p);
      UnderAnyStep(p, order);
    }
  }

  lemma {:induction false} UnderAnyStep(p: Path, order: seq<Path>)
    requires order != []
    ensures UnderAny(p, order) <==> UnderAny(p, order[..|order| - 1]) || Below(p, order[|order| - 1])
  {
    var front := order[..|order| - 1];
    if i :| 0 <= i < |front| && Below(p, front[i]) { assert order[i] == front[i]; }
  }

  lemma {:induction false} UnderAnySet(p: Path, order: seq<Path>, paths: set<Path>)
    requires InDepthOrder(order, paths)
    ensures UnderAny(p, order) <==> exists r | r in paths :: Below(p, r)
  {
    if r :| r in paths && Below(p, r) {
      assert r in order;
      var i :| 0 <= i < |order| && order[i] == r;
    }
  }

  /** The directories that mount points below `/tmp` need. */
  function TmpDirs(h: Host, destinations: set<Path>): set<Path> {
    set p, k | p in destinations && Below(p, TMP) && 2 <= k <= |p| && (k < |p| || h.isDir(p)) :: Ancestor(p, k)
  }

  /** Every mount below `/tmp` finds its parents already made. */
  ghost predicate MountPointsExist(ops: seq<Mount>) {
    forall i, k | 0 <= i < |ops| && Below(ops[i].destination, TMP) && 2 <= k < |ops[i].destination| ::
      MadeBefore(ops, i, Ancestor(ops[i].destination, k))
  }

  ghost predicate MadeBefore(ops: seq<Mount>, i: nat, dir: Path)
    requires i <= |ops|
  {
    exists j :: 0 <= j < i && ops[j] == Mount(MakeDir, dir)
  }

  /** The groups of the list, each in depth order. */
  ghost predicate IsPlan(h: Host, e: Effective, ops: seq<Mount>, orders: seq<seq<Path>>) {
    && |orders| == 5
    && InDepthOrder(orders[0], TmpDirs(h, Destinations(h, e)))
    && InDepthOrder(orders[1], Writable(e))
    && InDepthOrder(orders[2], if h.exists_(e.policy.source) then {e.policy.source} else {})
    && InDepthOrder(orders[3], Existing(h, e.policy.protected))
    && InDepthOrder(orders[4], Existing(h, e.policy.denied))
    && ops == BASE + GroupMounts(h, MakeDir, orders[0]) + GroupMounts(h, Bind, orders[1])
              + GroupMounts(h, RoBind, orders[2]) + GroupMounts(h, RoBind, orders[3]) + GroupMounts(h, MaskDir, orders[4])
  }

  const BASE: seq<Mount> := [Mount(RoBind, []), Mount(Tmpfs, TMP)]

  function Existing(h: Host, paths: set<Path>): set<Path> { set p | p in paths && h.exists_(p) }

  function Destinations(h: Host, e: Effective): set<Path> {
    Writable(e) + Existing(h, e.policy.protected) + Existing(h, e.policy.denied)
    + if h.exists_(e.policy.source) then {e.policy.source} else {}
  }

  /** `MountPlan.build` */
  method Build(h: Host, e: Effective) returns (ops: seq<Mount>, ghost orders: seq<seq<Path>>)
    ensures IsPlan(h, e, ops, orders)
    ensures forall p :: AccessAt(ops, p) == PolicyAccess(h, e, p)
    ensures MountPointsExist(ops)
    ensures forall d | d in e.policy.denied && h.exists_(d) ::
              Mount(if h.isDir(d) then MaskDir else MaskFile, d) in ops
  {
    hide GroupMounts, AccessAt, InDepthOrder, PolicyAccess, MountPointsExist, TmpDirs, Existing;
    var writes := Writable(e);
    var protected, denied := Existing(h, e.policy.protected), Existing(h, e.policy.denied);
    var source: set<Path> := if h.exists_(e.policy.source) then {e.policy.source} else {};
    var tmpDirs := TmpDirs(h, Destinations(h, e));
    ghost var o0, o1, o2, o3, o4;
    ops := BASE;
    ops, o0 := AppendGroup(h, ops, MakeDir, tmpDirs);
    ops, o1 := AppendGroup(h, ops, Bind, writes);
    ops, o2 := AppendGroup(h, ops, RoBind, source);
    ops, o3 := AppendGroup(h, ops, RoBind, protected);
    ops, o4 := AppendGroup(h, ops, MaskDir, denied);
    orders := [o0, o1, o2, o3, o4];
    assert IsPlan(h, e, ops, orders);
    forall p ensures AccessAt(ops, p) == PolicyAccess(h, e, p) { PlanImplementsPolicy(h, e, ops, orders, p); }
    PlanMakesMountPoints(h, e, ops, orders);
    PlanMasks(h, e, ops, orders);
  }

  /** The list implements the policy: for every path, the last covering mount says what the policy says. */
  lemma {:induction false} PlanImplementsPolicy(h: Host, e: Effective, ops: seq<Mount>, orders: seq<seq<Path>>, p: Path)
    requires IsPlan(h, e, ops, orders)
    ensures AccessAt(ops, p) == PolicyAccess(h, e, p)
  {
    hide GroupMounts, InDepthOrder, UnderAny;
    var base := BASE;
    assert base[..1] == [base[0]] && base[..1][..0] == [];
    assert AccessAt(base[..1], p) == ReadOnly;
    assert AccessAt(base, p) == if Below(p, TMP) then PrivateTmp else ReadOnly;
    var s0 := base + GroupMounts(h, MakeDir, orders[0]);
    var s1 := s0 + GroupMounts(h, Bind, orders[1]);
    var s2 := s1 + GroupMounts(h, RoBind, orders[2]);
    var s3 := s2 + GroupMounts(h, RoBind, orders[3]);
    GroupAccess(h, base, MakeDir, orders[0], p);
    GroupAccess(h, s0, Bind, orders[1], p);
    GroupAccess(h, s1, RoBind, orders[2], p);
    GroupAccess(h, s2, RoBind, orders[3], p);
    GroupAccess(h, s3, MaskDir, orders[4], p);
    UnderAnySet(p, orders[1], Writable(e));
    UnderAnySet(p, orders[2], if h.exists_(e.policy.source) then {e.policy.source} else {});
    UnderAnySet(p, orders[3], Existing(h, e.policy.protected));
    UnderAnySet(p, orders[4], Existing(h, e.policy.denied));
    hide AccessAt;
    ExistingUnder(h, e.policy.protected, p);
    ExistingUnder(h, e.policy.denied, p);
  }

  lemma {:induction false} ExistingUnder(h: Host, paths: set<Path>, p: Path)
    ensures (exists r | r in Existing(h, paths) :: Below(p, r)) <==> Under(p, paths, h)
  {
    if r :| r in paths && h.exists_(r) && Below(p, r) { assert r in Existing(h, paths); }
  }

  lemma {:induction false} PlanMasks(h: Host, e: Effective, ops: seq<Mount>, orders: seq<seq<Path>>)
    requires IsPlan(h, e, ops, orders)
    ensures forall d | d in e.policy.denied && h.exists_(d) ::
              Mount(if h.isDir(d) then MaskDir else MaskFile, d) in ops
  {
    var masks := GroupMounts(h, MaskDir, orders[4]);
    forall d | d in e.policy.denied && h.exists_(d) ensures Mount(if h.isDir(d) then MaskDir else MaskFile, d) in ops {
      assert d in Existing(h, e.policy.denied);
      var i :| 0 <= i < |orders[4]| && orders[4][i] == d;
      assert masks[i] in ops;
    }
  }

  /** A directory that a mount point below `/tmp` needs is made before any mount of a group. */
  lemma {:induction false} PlanMakesMountPoints(h: Host, e: Effective, ops: seq<Mount>, orders: seq<seq<Path>>)
    requires IsPlan(h, e, ops, orders)
    ensures MountPointsExist(ops)
  {
    hide GroupMounts;
    var dirs := GroupMounts(h, MakeDir, orders[0]);
    forall i, k | 0 <= i < |ops| && Below(ops[i].destination, TMP) && 2 <= k < |ops[i].destination|
      ensures MadeBefore(ops, i, Ancestor(ops[i].destination, k))
    {
      var d := ops[i].destination;
      NeededDir(h, e, ops, orders, i, k);
      var n :| 0 <= n < |orders[0]| && orders[0][n] == Ancestor(d, k) && 2 + n < i;
      assert ops[2 + n] == dirs[n] == Mount(MakeDir, Ancestor(d, k));
    }
  }

  lemma {:induction false} NeededDir(h: Host, e: Effective, ops: seq<Mount>, orders: seq<seq<Path>>, i: nat, k: nat)
    requires IsPlan(h, e, ops, orders) && i < |ops|
    requires Below(ops[i].destination, TMP) && 2 <= k < |ops[i].destination|
    ensures exists n :: 0 <= n < |orders[0]| && orders[0][n] == Ancestor(ops[i].destination, k) && 2 + n < i
  {
    hide GroupMounts, Destinations;
    var d, all := ops[i].destination, Destinations(h, e);
    var needed := TmpDirs(h, all);
    if i < 2 + |orders[0]| {
      assert d == orders[0][i - 2] && d in needed;
      var p, m :| p in all && Below(p, TMP) && 2 <= m <= |p| && (m < |p| || h.isDir(p)) && d == Ancestor(p, m);
      assert Ancestor(d, k) == Ancestor(p, k) && k < m;
      assert Ancestor(p, k) in needed;
      var n :| 0 <= n < |orders[0]| && orders[0][n] == Ancestor(d, k);
      assert n < i - 2;
    } else {
      LaterDestination(h, e, ops, orders, i);
      assert Ancestor(d, k) in needed;
      var n :| 0 <= n < |orders[0]| && orders[0][n] == Ancestor(d, k);
    }
  }

  lemma {:induction false} LaterDestination(h: Host, e: Effective, ops: seq<Mount>, orders: seq<seq<Path>>, i: nat)
    requires IsPlan(h, e, ops, orders) && 2 + |orders[0]| <= i < |ops|
    ensures ops[i].destination in Destinations(h, e)
  {
    hide TmpDirs, Writable;
    var rest := GroupMounts(h, Bind, orders[1]) + GroupMounts(h, RoBind, orders[2])
                + GroupMounts(h, RoBind, orders[3]) + GroupMounts(h, MaskDir, orders[4]);
    assert ops == BASE + GroupMounts(h, MakeDir, orders[0]) + rest;
    var j := i - 2 - |orders[0]|;
    assert ops[i] == rest[j];
    var a, b, c := |orders[1]|, |orders[1]| + |orders[2]|, |orders[1]| + |orders[2]| + |orders[3]|;
    if j < a {
      assert rest[j].destination == orders[1][j];
    } else if j < b {
      assert rest[j].destination == orders[2][j - a];
    } else if j < c {
      assert rest[j].destination == orders[3][j - b];
    } else {
      assert rest[j].destination == orders[4][j - c];
    }
  }

  // ---------------------------------------------------------------- what grants can do

  /** In no list built for any set of grants does a denied, protected or source path open. */
  lemma {:induction false} GrantsOpenNothingForbidden(
    h: Host, p: Policy, grants: set<Grant>, ops: seq<Mount>, orders: seq<seq<Path>>, path: Path)
    requires IsPlan(h, EffectivePolicy(p, grants), ops, orders)
    ensures Under(path, p.denied, h) <==> AccessAt(ops, path) == Masked
    ensures Under(path, p.protected, h) || (h.exists_(p.source) && Below(path, p.source)) ==> AccessAt(ops, path) != ReadWrite
  {
    hide AccessAt, IsPlan, Under;
    PlanImplementsPolicy(h, EffectivePolicy(p, grants), ops, orders, path);
  }

  /** More grants never take a right away. */
  lemma {:induction false} GrantsOnlyAdd(
    h: Host, p: Policy, grants: set<Grant>, ops: seq<Mount>, orders: seq<seq<Path>>,
    more: set<Grant>, ops': seq<Mount>, orders': seq<seq<Path>>, path: Path)
    requires IsPlan(h, EffectivePolicy(p, grants), ops, orders) && IsPlan(h, EffectivePolicy(p, more), ops', orders')
    requires grants <= more && AccessAt(ops, path) == ReadWrite
    ensures AccessAt(ops', path) == ReadWrite
  {
    hide AccessAt, IsPlan, Under;
    PlanImplementsPolicy(h, EffectivePolicy(p, grants), ops, orders, path);
    PlanImplementsPolicy(h, EffectivePolicy(p, more), ops', orders', path);
    var w :| w in Writable(EffectivePolicy(p, grants)) && Below(path, w);
    assert w in Writable(EffectivePolicy(p, more));
  }

  /** A write that the policy itself lets through is writable at its resource once its grant is given. */
  lemma {:induction false} AllowedWritesAreWritable(
    h: Host, p: Policy, r: Request, session: set<Grant>, grants: set<Grant>, directory: bool,
    ops: seq<Mount>, orders: seq<seq<Path>>)
    requires r.capability.FilesystemWrite? && !Covered(r, session) && Evaluate(p, r, session) != Deny
    requires GrantFor(r, directory) in grants && IsPlan(h, EffectivePolicy(p, grants), ops, orders)
    ensures r.resource.Some? && AccessAt(ops, r.resource.value) == ReadWrite
  {
    hide AccessAt, IsPlan;
    var e, path := EffectivePolicy(p, grants), r.resource.value;
    PlanImplementsPolicy(h, e, ops, orders, path);
    assert path in Writable(e) && Below(path, path);
  }

  /**
   A write that a session grant covers is allowed without looking at the boundaries.  In the list
   for the session's grants and any others it is writable exactly when no existing boundary covers it.
   */
  lemma {:induction false} CoveredWrites(
    h: Host, p: Policy, r: Request, session: set<Grant>, grants: set<Grant>, ops: seq<Mount>, orders: seq<seq<Path>>)
    requires r.capability.FilesystemWrite? && r.resource.Some? && Covered(r, session) && session <= grants
    requires IsPlan(h, EffectivePolicy(p, grants), ops, orders)
    ensures Evaluate(p, r, session) == Allow
    ensures AccessAt(ops, r.resource.value) == ReadWrite <==>
            && !Under(r.resource.value, p.denied, h) && !Under(r.resource.value, p.protected, h)
            && !(h.exists_(p.source) && Below(r.resource.value, p.source))
  {
    hide AccessAt, IsPlan;
    PlanImplementsPolicy(h, EffectivePolicy(p, grants), ops, orders, r.resource.value);
    var g :| g in session && Covers(g, r);
    assert g.resource.value in Writable(EffectivePolicy(p, grants)) && Below(r.resource.value, g.resource.value);
  }

  /** So an allowed write can stay read-only: a grant on a directory around the source. */
  lemma {:induction false} CoveredWriteStaysReadOnly(h: Host, ops: seq<Mount>, orders: seq<seq<Path>>)
    requires forall p :: h.exists_(p)
    requires IsPlan(h, EffectivePolicy(Policy(["agent"], ["work", "src"], ["cache"], {}, {}),
                                       {Grant(FilesystemWrite, Some(["work"]), None, true)}), ops, orders)
    ensures var p := Policy(["agent"], ["work", "src"], ["cache"], {}, {});
            var session := {Grant(FilesystemWrite, Some(["work"]), None, true)};
            var r := Request(FilesystemWrite, Some(["work", "src", "a"]), None);
            && Evaluate(p, r, session) == Allow && Evaluate(p, r, {}) == Deny
            && Evaluate(p, Request(FilesystemWrite, Some(["work"]), None), {}) == Ask
            && AccessAt(ops, ["work", "src", "a"]) == ReadOnly
  {
    hide AccessAt, IsPlan;
    var work, src, path: Path := ["work"], ["work", "src"], ["work", "src", "a"];
    var p, g := Policy(["agent"], src, ["cache"], {}, {}), Grant(FilesystemWrite, Some(work), None, true);
    var r := Request(FilesystemWrite, Some(path), None);
    PlanImplementsPolicy(h, EffectivePolicy(p, {g}), ops, orders, path);
    assert path[..1] == work && path[..2] == src && Below(path, work) && Below(path, src);
    assert Covers(g, r) && g in {g};
    assert Covered(r, {g}) && !Covered(r, {});
    assert Evaluate(p, r, {g}) == Allow;
    assert Evaluate(p, r, {}) == Deny;
    assert !Below(work, src) && work[0] != "agent" && work[0] != "cache";
    assert Evaluate(p, Request(FilesystemWrite, Some(work), None), {}) == Ask;
  }

  /**
   An allowed read shows the host's file unless the path is denied or lies in the private `/tmp` with
   no mount over it.  Only a session grant lets a read of a denied path through.
   */
  lemma {:induction false} AllowedReads(
    h: Host, p: Policy, r: Request, session: set<Grant>, grants: set<Grant>, ops: seq<Mount>, orders: seq<seq<Path>>)
    requires r.capability.FilesystemRead? && Evaluate(p, r, session) == Allow
    requires IsPlan(h, EffectivePolicy(p, grants), ops, orders)
    ensures r.resource.Some?
    ensures var e, path := EffectivePolicy(p, grants), r.resource.value;
            && (AccessAt(ops, path) in {ReadOnly, ReadWrite} <==>
                  && !Under(path, p.denied, h)
                  && (|| !Below(path, TMP) || Under(path, p.protected, h)
                      || (h.exists_(p.source) && Below(path, p.source)) || exists w | w in Writable(e) :: Below(path, w)))
            && (!Covered(r, session) ==> !Under(path, p.denied, h))
  {
    hide AccessAt, IsPlan;
    PlanImplementsPolicy(h, EffectivePolicy(p, grants), ops, orders, r.resource.value);
  }

  /** So an allowed read can show the private directory. */
  lemma {:induction false} AllowedReadStaysPrivate(h: Host, ops: seq<Mount>, orders: seq<seq<Path>>)
    requires IsPlan(h, EffectivePolicy(Policy(["agent"], ["src"], ["cache"], {}, {}), {}), ops, orders)
    ensures var p, r := Policy(["agent"], ["src"], ["cache"], {}, {}), Request(FilesystemRead, Some(["tmp", "x"]), None);
            Evaluate(p, r, {}) == Allow && AccessAt(ops, ["tmp", "x"]) == PrivateTmp
  {
    hide AccessAt, IsPlan;
    var path: Path := ["tmp", "x"];
    PlanImplementsPolicy(h, EffectivePolicy(Policy(["agent"], ["src"], ["cache"], {}, {}), {}), ops, orders, path);
    assert path[0] == "tmp" && path[..1] == TMP;
  }
}
