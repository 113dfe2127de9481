/**
 Planning a multi-file edit: `AtomicEditService.prepare` plays the operations over a lazily
 loaded file table.  The reference below plays them one at a time over the whole tree and
 remembers which original file every content descends from.
 */
module EditPlanner {
  import opened Collections
  import opened Options
  import opened Paths
  import TextEdit
  import opened Utf8

  const MAX_OPERATIONS: nat := 50
  const MAX_FILE_BYTES: nat := 512_000
  const MAX_TEXT_BYTES: nat := 256_000
  const MAX_PATCH_BYTES: nat := 512_000
  const NUL_WINDOW: nat := 8192

  datatype Error = InvalidArguments | NotFound | AlreadyExists | EditConflict | PathRejected
                 | LimitExceeded | UnsupportedEncoding | NoChanges

  datatype Result<+T> = Ok(value: T) | Err(error: Error) {
    predicate IsFailure() { Err? }

    function PropagateFailure<U>(): Result<U>
      requires Err?
    {
      Err(error)
    }

    function Extract(): T
      requires Ok?
    {
      value
    }
  }

  /** SHA-256 as a free constructor; `Unrelated` is a well-formed digest of none of the texts at hand. */
  datatype Digest = Sha256(text: string) | Unrelated(tag: nat)

  /** One operation; an expected digest that is not 64 lower-case hexadecimal digits is `None`. */
  datatype Operation =
    | Create(path: string, content: string)
    | Replace(path: string, expected: Option<Digest>, oldText: string, newText: string)
    | Delete(path: string, expected: Option<Digest>)
    | Move(source: string, destination: string, expected: Option<Digest>)
    | Malformed

  datatype Entry = TextFile(text: string) | RawFile(bytes: seq<bv8>) | Directory | Special

  /** The worktree before the edit.  `guardRefuses` is the path guard's verdict. */
  datatype Workspace = Workspace(
    isolated: bool, entries: map<Path, Entry>, links: set<Path>, guardRefuses: Path -> bool)

  /** What the planner takes from libraries: case folding and the size of the review patch. */
  datatype Tools = Tools(fold: string -> string, patchBytes: (Contents, Contents) -> nat)

  type Contents = map<Path, Option<string>>

  datatype FileState = FileState(content: Option<string>, origin: Option<Digest>)

  datatype Plan = Plan(before: Contents, after: Contents, createdDirectories: seq<Path>)

  // ---------------------------------------------------------------- reading

  /** A NUL within the first `NUL_WINDOW` bytes. */
  predicate EarlyNul(s: string) {
    exists i | 0 <= i < |s| :: s[i] == '\0' && Utf8Size(s[..i]) < NUL_WINDOW
  }

  /** `_checked_path` refuses: a symbolic link on the way, or the guard. */
  predicate Rejected(ws: Workspace, p: Path) {
    (exists k | 1 <= k <= |p| :: Ancestor(p, k) in ws.links) || ws.guardRefuses(p)
  }

  /** `_normalize_path` */
  function Normalized(ws: Workspace, raw: string): Result<Path> {
    if raw == "" || |raw| > 1024 || '\0' in raw || '\\' in raw then Err(InvalidArguments)
    else
      var parts := Split(raw);
      if "" in parts || "." in parts || ".." in parts then Err(InvalidArguments)
      else if Rejected(ws, parts) then Err(PathRejected)
      else Ok(parts)
  }

  /** A component that a path may have: not empty, no dots alone, and no separator, NUL or backslash. */
  predicate PlainComponent(c: string) {
    c != "" && c != "." && c != ".." && '/' !in c && '\0' !in c && '\\' !in c
  }

  /** The texts that name a path: plain components joined, at most 1024 characters, and allowed by links and guard. */
  lemma {:induction false} NormalizedMeaning(ws: Workspace, raw: string, p: Path)
    ensures Normalized(ws, raw) == Ok(p) <==>
            && p != [] && raw == Join(p) && |raw| <= 1024 && (forall c | c in p :: PlainComponent(c))
            && !ws.guardRefuses(p) && forall k | 1 <= k <= |p| :: p[..k] !in ws.links
    ensures Normalized(ws, raw) == Err(PathRejected) ==>
              && (forall c | c in Split(raw) :: PlainComponent(c))
              && (ws.guardRefuses(Split(raw)) || exists k | 1 <= k <= |Split(raw)| :: Split(raw)[..k] in ws.links)
    ensures Normalized(ws, raw).Err? ==> Normalized(ws, raw).error in {InvalidArguments, PathRejected}
  {
    hide Split, Join, Holds, Rejected;
    JoinSplit(raw);
    NoSeparator(raw);
    SplitCharacters(raw, '\0');
    SplitCharacters(raw, '\\');
    PlainMeans(raw);
    RejectedMeans(ws, p);
    RejectedMeans(ws, Split(raw));
    if p != [] && (forall c | c in p :: PlainComponent(c)) {
      assert forall i | 0 <= i < |p| :: p[i] in p;
      SplitJoin(p);
      if raw == Join(p) {
        JoinsToSomething(p);
      }
    }
  }

  lemma {:induction false} RejectedMeans(ws: Workspace, p: Path)
    ensures Rejected(ws, p) <==> ws.guardRefuses(p) || exists k | 1 <= k <= |p| :: p[..k] in ws.links
  {
    assert forall k | 1 <= k <= |p| :: Ancestor(p, k) == p[..k];
  }

  lemma {:induction false} PlainMeans(raw: string)
    requires (forall i | 0 <= i < |Split(raw)| :: '/' !in Split(raw)[i])
    ensures (forall c | c in Split(raw) :: PlainComponent(c)) <==>
            && "" !in Split(raw) && "." !in Split(raw) && ".." !in Split(raw)
            && !Holds(Split(raw), '\0') && !Holds(Split(raw), '\\')
  {
    hide Split;
    var p := Split(raw);
    forall c | c in p ensures '/' !in c { var i :| 0 <= i < |p| && p[i] == c; }
    assert forall i | 0 <= i < |p| :: p[i] in p;
  }

  lemma {:induction false} JoinsToSomething(p: Path)
    requires p != [] && p[|p| - 1] != ""
    ensures Join(p) != ""
  {
  }

  /** What `load` reads the first time a path is named. */
  function OnDisk(ws: Workspace, p: Path): Result<Option<string>> {
    if Rejected(ws, p) then Err(PathRejected)
    else if p !in ws.entries then Ok(None)
    else match ws.entries[p]
      case TextFile(text) =>
        if Utf8Size(text) > MAX_FILE_BYTES then Err(LimitExceeded)
        else if EarlyNul(text) then Err(PathRejected)
        else Ok(Some(text))
      case RawFile(bytes) =>
        if |bytes| > MAX_FILE_BYTES then Err(LimitExceeded)
        else if 0 in (if |bytes| < NUL_WINDOW then bytes else bytes[..NUL_WINDOW]) then Err(PathRejected)
        else Err(UnsupportedEncoding)
      case Directory => Err(PathRejected)
      case Special => Err(PathRejected)
  }

  /** What can be read: a text file of limited size without an early zero byte, and nothing where nothing is. */
  lemma {:induction false} OnDiskMeaning(ws: Workspace, p: Path, text: string)
    ensures OnDisk(ws, p) == Ok(Some(text)) <==>
            && !Rejected(ws, p) && p in ws.entries && ws.entries[p] == TextFile(text)
            && |Bytes(text)| <= MAX_FILE_BYTES
            && forall j | 0 <= j < |Bytes(text)| && j < NUL_WINDOW :: Bytes(text)[j] != 0
    ensures OnDisk(ws, p) == Ok(None) <==> !Rejected(ws, p) && p !in ws.entries
  {
    SizeIsBytes(text);
    NulAmongFirst(text, NUL_WINDOW);
  }

  // ---------------------------------------------------------------- one operation at a time

  /** The text files of the whole tree, and for each content the original file it descends from. */
  datatype Tree = Tree(files: map<Path, string>, origin: map<Path, Path>, touched: set<Path>, needed: set<Path>)

  function Original(ws: Workspace): map<Path, string> {
    map p | p in ws.entries && ws.entries[p].TextFile? :: ws.entries[p].text
  }

  function Start(ws: Workspace): Tree {
    Tree(Original(ws), map p | p in Original(ws) :: p, {}, {})
  }

  /** The digest that an operation on `p` must expect: the original text of the file `p` descends from. */
  function ExpectedAt(ws: Workspace, t: Tree, p: Path): Option<Digest> {
    if p in t.origin && t.origin[p] in Original(ws) then Some(Sha256(Original(ws)[t.origin[p]])) else None
  }

  function Touch(ws: Workspace, t: Tree, p: Path): Result<Tree> {
    var _ :- OnDisk(ws, p);
    Ok(t.(touched := t.touched + {p}))
  }

  /** An existing file whose expected digest is right. */
  function Held(ws: Workspace, t: Tree, p: Path, expected: Option<Digest>): Result<string> {
    if p !in t.files then Err(NotFound)
    else if expected.None? then Err(InvalidArguments)
    else if ExpectedAt(ws, t, p) != expected then Err(EditConflict)
    else Ok(t.files[p])
  }

  /** The parents of `p` from its ancestor of length `k` on: plain directories, or to be created. */
  function Parents(ws: Workspace, t: Tree, p: Path, k: nat): Result<set<Path>>
    requires 1 <= k
    decreases |p| - k
  {
    if k >= |p| then Ok({})
    else
      var a := Ancestor(p, k);
      if Rejected(ws, a) then Err(PathRejected)
      else if a in t.touched && a in t.files then Err(InvalidArguments)
      else if a in ws.entries && !ws.entries[a].Directory? then Err(PathRejected)
      else
        var rest :- Parents(ws, t, p, k + 1);
        Ok(if a in ws.entries then rest else rest + {a})
  }

  function Put(t: Tree, p: Path, text: string, origin: Option<Path>): Tree {
    t.(files := t.files[p := text],
       origin := if origin.Some? then t.origin[p := origin.value] else t.origin - {p})
  }

  function Remove(t: Tree, p: Path): Tree { t.(files := t.files - {p}, origin := t.origin - {p}) }

  function OriginAt(t: Tree, p: Path): Option<Path> { if p in t.origin then Some(t.origin[p]) else None }

  function PlayCreate(ws: Workspace, t: Tree, path: string, content: string): Result<Tree> {
    var p :- Normalized(ws, path);
    var t :- Touch(ws, t, p);
    if p in t.files then Err(AlreadyExists)
    else
      var dirs :- Parents(ws, t, p, 1);
      Ok(Put(t.(needed := t.needed + dirs), p, content, None))
  }

  function PlayReplace(
    ws: Workspace, t: Tree, path: string, expected: Option<Digest>, oldText: string, newText: string): Result<Tree>
  {
    var p :- Normalized(ws, path);
    var t :- Touch(ws, t, p);
    var current :- Held(ws, t, p, expected);
    if oldText == "" then Err(InvalidArguments)
    else
      TextEdit.AdaptedNonEmpty(current, oldText);
      if TextEdit.Count(current, TextEdit.Adapted(current, oldText)) != 1 then Err(EditConflict)
      else Ok(Put(t, p, TextEdit.Edited(current, oldText, newText), OriginAt(t, p)))
  }

  function PlayDelete(ws: Workspace, t: Tree, path: string, expected: Option<Digest>): Result<Tree> {
    var p :- Normalized(ws, path);
    var t :- Touch(ws, t, p);
    var _ :- Held(ws, t, p, expected);
    Ok(Remove(t, p))
  }

  function PlayMove(
    ws: Workspace, tools: Tools, t: Tree, source: string, destination: string, expected: Option<Digest>): Result<Tree>
  {
    var s :- Normalized(ws, source);
    var d :- Normalized(ws, destination);
    if source == destination || tools.fold(source) == tools.fold(destination) then Err(InvalidArguments)
    else PlayRelocation(ws, t, s, d, expected)
  }

  /** A move between two checked paths. */
  function PlayRelocation(ws: Workspace, t: Tree, s: Path, d: Path, expected: Option<Digest>): Result<Tree> {
    var t :- Touch(ws, t, s);
    var text :- Held(ws, t, s, expected);
    var t :- Touch(ws, t, d);
    if d in t.files then Err(AlreadyExists)
    else
      var dirs :- Parents(ws, t, d, 1);
      Ok(Put(Remove(t.(needed := t.needed + dirs), s), d, text, OriginAt(t, s)))
  }

  function Play(ws: Workspace, tools: Tools, t: Tree, op: Operation): Result<Tree> {
    match op
    case Create(path, content) => PlayCreate(ws, t, path, content)
    case Replace(path, expected, oldText, newText) => PlayReplace(ws, t, path, expected, oldText, newText)
    case Delete(path, expected) => PlayDelete(ws, t, path, expected)
    case Move(source, destination, expected) => PlayMove(ws, tools, t, source, destination, expected)
    case Malformed => Err(InvalidArguments)
  }

  function TextBytes(op: Operation): nat {
    match op
    case Create(_, content) => Utf8Size(content)
    case Replace(_, _, oldText, newText) => Utf8Size(oldText) + Utf8Size(newText)
    case _ => 0
  }

  /** The texts that a request carries. */
  function TextFields(op: Operation): string {
    match op
    case Create(_, content) => content
    case Replace(_, _, oldText, newText) => oldText + newText
    case Delete(_, _) => ""
    case Move(_, _, _) => ""
    case Malformed => ""
  }

  function AllTextFields(ops: seq<Operation>): string {
    if ops == [] then "" else AllTextFields(ops[..|ops| - 1]) + TextFields(ops[|ops| - 1])
  }

  /** What counts for the text limit: the bytes of all texts of the request. */
  lemma {:induction false} TextBytesMeaning(ops: seq<Operation>)
    ensures TotalTextBytes(ops) == |Bytes(AllTextFields(ops))|
  {
    if ops != [] {
      var op := ops[|ops| - 1];
      TextBytesMeaning(ops[..|ops| - 1]);
      BytesAppend(AllTextFields(ops[..|ops| - 1]), TextFields(op));
      SizeIsBytes(TextFields(op));
      if op.Replace? {
        BytesAppend(op.oldText, op.newText);
        SizeIsBytes(op.oldText);
        SizeIsBytes(op.newText);
      }
    }
  }

  function TotalTextBytes(ops: seq<Operation>): nat {
    if ops == [] then 0 else TotalTextBytes(ops[..|ops| - 1]) + TextBytes(ops[|ops| - 1])
  }

  /** The operations one after another, within the text limit. */
  function PlayAll(ws: Workspace, tools: Tools, ops: seq<Operation>): Result<Tree> {
    if ops == [] then Ok(Start(ws))
    else
      var before :- PlayAll(ws, tools, ops[..|ops| - 1]);
      var after :- Play(ws, tools, before, ops[|ops| - 1]);
      if TotalTextBytes(ops) > MAX_TEXT_BYTES then Err(LimitExceeded) else Ok(after)
  }

  /** The last move away from each source. */
  function MoveEdges(ops: seq<Operation>): map<Path, Path> {
    if ops == [] then map[]
    else
      var edges, op := MoveEdges(ops[..|ops| - 1]), ops[|ops| - 1];
      if op.Move? then edges[Split(op.source) := Split(op.destination)] else edges
  }

  /** A set of paths whose moves never leave it. */
  ghost predicate Circular(edges: map<Path, Path>, s: set<Path>) {
    s != {} && s <= edges.Keys && forall p | p in s :: edges[p] in s
  }

  ghost predicate Cyclic(edges: map<Path, Path>) { exists s :: Circular(edges, s) }

  /** The paths whose text differs between two trees. */
  function Changed(a: map<Path, string>, b: map<Path, string>): set<Path> {
    set p | p in a.Keys + b.Keys && Get(a, p) != Get(b, p)
  }

  function Restrict(m: map<Path, string>, s: set<Path>): Contents { map p | p in s :: Get(m, p) }

  /** The change from one tree to another, as the program writes it down. */
  function After(ws: Workspace, t: Tree): Contents { Restrict(t.files, Changed(Original(ws), t.files)) }

  function Before(ws: Workspace, t: Tree): Contents { Restrict(Original(ws), Changed(Original(ws), t.files)) }

  /** What stops a plan after every operation could be played. */
  ghost function FinalCheck(ws: Workspace, tools: Tools, ops: seq<Operation>, t: Tree): Option<Error> {
    var after := After(ws, t);
    if Cyclic(MoveEdges(ops)) then Some(InvalidArguments)
    else if after == map[] then Some(NoChanges)
    else if |after| > MAX_OPERATIONS then Some(LimitExceeded)
    else if exists p | p in after :: after[p].Some? && Utf8Size(after[p].value) > MAX_FILE_BYTES then Some(LimitExceeded)
    else if tools.patchBytes(Before(ws, t), after) > MAX_PATCH_BYTES then Some(LimitExceeded)
    else None
  }

  /** The reference for `prepare`: which error, and which plan. */
  ghost predicate PlansAs(ws: Workspace, tools: Tools, ops: seq<Operation>, r: Result<Plan>) {
    if !ws.isolated then r == Err(PathRejected)
    else if !(1 <= |ops| <= MAX_OPERATIONS) then r == Err(InvalidArguments)
    else
      match PlayAll(ws, tools, ops)
      case Err(e) => r == Err(e)
      case Ok(t) =>
        var stop := FinalCheck(ws, tools, ops, t);
        if stop.Some? then r == Err(stop.value)
        else r.Ok? && r.value.before == Before(ws, t) && r.value.after == After(ws, t)
             && InDepthOrder(r.value.createdDirectories, t.needed)
  }

  // ---------------------------------------------------------------- the program

  /** The local tables of `prepare`. */
  datatype Draft = Draft(planned: map<Path, FileState>, before: Contents, required: set<Path>, edges: map<Path, Path>)

  /** One loaded path of the tables agrees with the whole tree. */
  ghost predicate Entered(ws: Workspace, t: Tree, d: Draft, p: Path)
    requires p in d.planned && p in d.before
  {
    && OnDisk(ws, p) == Ok(d.before[p])
    && d.planned[p].content == Get(t.files, p)
    && (p in t.files ==> d.planned[p].origin == ExpectedAt(ws, t, p))
  }

  /** A path that no operation named is as it was. */
  ghost predicate Untouched(ws: Workspace, t: Tree, p: Path) {
    && Get(t.files, p) == Get(Original(ws), p)
    && (p in t.files ==> OriginAt(t, p) == Some(p))
  }

  ghost predicate Matches(ws: Workspace, t: Tree, d: Draft) {
    && d.planned.Keys == d.before.Keys == t.touched
    && d.required == t.needed
    && (forall p | p in d.planned :: Entered(ws, t, d, p))
    && (forall p | p !in t.touched :: Untouched(ws, t, p))
    && (forall p | p in t.origin :: t.origin[p] in Original(ws))
  }

  ghost predicate Agrees(ws: Workspace, spec: Result<Tree>, r: Result<Draft>) {
    match r
    case Ok(d) => spec.Ok? && Matches(ws, spec.value, d)
    case Err(e) => spec == Err(e)
  }

  lemma {:induction false} EntryOf(ws: Workspace, t: Tree, d: Draft, p: Path)
    requires Matches(ws, t, d) && p in d.planned
    ensures d.planned[p].content == Get(t.files, p)
  {
    assert Entered(ws, t, d, p);
  }

  lemma {:induction false} OnDiskIsOriginal(ws: Workspace, p: Path)
    ensures OnDisk(ws, p).Ok? ==> OnDisk(ws, p).value == Get(Original(ws), p)
  {
  }

  method Load(ws: Workspace, ghost t: Tree, d: Draft, p: Path) returns (r: Result<Draft>)
    requires Matches(ws, t, d)
    ensures Agrees(ws, Touch(ws, t, p), r)
    ensures r.Ok? ==> d.planned.Keys + {p} == r.value.planned.Keys && r.value.edges == d.edges
    ensures r.Ok? ==> OnDisk(ws, p).Ok? && Matches(ws, Touch(ws, t, p).value, r.value)
  {
    if p in d.planned {
      assert Entered(ws, t, d, p);
      assert t.touched + {p} == t.touched;
      return Ok(d);
    }
    assert Untouched(ws, t, p);
    OnDiskIsOriginal(ws, p);
    var content :- OnDisk(ws, p);
    var state := if content.None? then FileState(None, None) else FileState(content, Some(Sha256(content.value)));
    ghost var t' := Touch(ws, t, p).value;
    var d' := d.(planned := d.planned[p := state], before := d.before[p := content]);
    forall q | q in d'.planned ensures Entered(ws, t', d', q) { if q != p { assert Entered(ws, t, d, q); } }
    forall q | q !in t'.touched ensures Untouched(ws, t', q) { assert Untouched(ws, t, q); }
    r := Ok(d');
  }

  /** `_require_existing` and `_check_expected` */
  method CheckHeld(ws: Workspace, ghost t: Tree, d: Draft, p: Path, expected: Option<Digest>) returns (r: Result<string>)
    requires Matches(ws, t, d) && p in d.planned
    ensures r == Held(ws, t, p, expected)
  {
    assert Entered(ws, t, d, p);
    var state := d.planned[p];
    if state.content.None? { return Err(NotFound); }
    if expected.None? { return Err(InvalidArguments); }
    if state.origin.None? || state.origin != expected { return Err(EditConflict); }
    r := Ok(state.content.value);
  }

  /** Loads a path and checks that it holds the expected file. */
  method Hold(ws: Workspace, ghost t: Tree, d: Draft, p: Path, expected: Option<Digest>) returns (r: Result<Draft>)
    requires Matches(ws, t, d)
    ensures r.Err? ==>
              if Touch(ws, t, p).Err? then Touch(ws, t, p) == Err(r.error)
              else Held(ws, Touch(ws, t, p).value, p, expected) == Err(r.error)
    ensures r.Ok? ==>
              && Touch(ws, t, p).Ok? && Held(ws, Touch(ws, t, p).value, p, expected).Ok?
              && Matches(ws, Touch(ws, t, p).value, r.value)
              && d.planned.Keys + {p} == r.value.planned.Keys && r.value.edges == d.edges
  {
    hide Held, Matches;
    var d1 :- Load(ws, t, d, p);
    var _ :- CheckHeld(ws, Touch(ws, t, p).value, d1, p, expected);
    r := Ok(d1);
  }

  /** `_plan_parent`: the ancestors from the outermost in. */
  method PlanParent(ws: Workspace, ghost t: Tree, d: Draft, p: Path) returns (r: Result<Draft>)
    requires Matches(ws, t, d)
    ensures r.Err? ==> Parents(ws, t, p, 1) == Err(r.error)
    ensures r.Ok? ==>
              && Parents(ws, t, p, 1).Ok?
              && r.value == d.(required := d.required + Parents(ws, t, p, 1).value)
              && Matches(ws, t.(needed := t.needed + Parents(ws, t, p, 1).value), r.value)
  {
    var missing: set<Path> := {};
    ghost var all := Parents(ws, t, p, 1);
    var k := 1;
    while k < |p|
      invariant 1 <= k && (|p| >= 1 ==> k <= |p|)
      invariant match Parents(ws, t, p, k)
                case Err(e) => all == Err(e)
                case Ok(rest) => all.Ok? && all.value == rest + missing
    {
      var a := Ancestor(p, k);
      assert a in d.planned ==> Entered(ws, t, d, a);
      if Rejected(ws, a) { return Err(PathRejected); }
      if a in d.planned && d.planned[a].content.Some? { return Err(InvalidArguments); }
      if a in ws.entries {
        if !ws.entries[a].Directory? { return Err(PathRejected); }
      } else {
        missing := missing + {a};
      }
      k := k + 1;
    }
    ghost var t' := t.(needed := t.needed + all.value);
    var d' := d.(required := d.required + missing);
    forall q | q in d'.planned ensures Entered(ws, t', d', q) { assert Entered(ws, t, d, q); }
    forall q | q !in t'.touched ensures Untouched(ws, t', q) { assert Untouched(ws, t, q); }
    assert all.value == missing;
    r := Ok(d');
  }

  /** Writing a text over a loaded path keeps the tables in step. */
  lemma {:induction false} PutMatches(ws: Workspace, t: Tree, d: Draft, p: Path, text: string, origin: Option<Path>, digest: Option<Digest>)
    requires Matches(ws, t, d) && p in d.planned && (origin.Some? ==> origin.value in Original(ws))
    requires digest == if origin.Some? then Some(Sha256(Original(ws)[origin.value])) else None
    ensures Matches(ws, Put(t, p, text, origin), d.(planned := d.planned[p := FileState(Some(text), digest)]))
  {
    var t', d' := Put(t, p, text, origin), d.(planned := d.planned[p := FileState(Some(text), digest)]);
    forall q | q in d'.planned ensures Entered(ws, t', d', q) { assert Entered(ws, t, d, q); }
    forall q | q !in t'.touched ensures Untouched(ws, t', q) { assert Untouched(ws, t, q); }
  }

  lemma {:induction false} RemoveMatches(ws: Workspace, t: Tree, d: Draft, p: Path, digest: Option<Digest>)
    requires Matches(ws, t, d) && p in d.planned
    ensures Matches(ws, Remove(t, p), d.(planned := d.planned[p := FileState(None, digest)]))
  {
    var t', d' := Remove(t, p), d.(planned := d.planned[p := FileState(None, digest)]);
    forall q | q in d'.planned ensures Entered(ws, t', d', q) { assert Entered(ws, t, d, q); }
    forall q | q !in t'.touched ensures Untouched(ws, t', q) { assert Untouched(ws, t, q); }
  }

  method PlanCreate(ws: Workspace, ghost t: Tree, d: Draft, path: string, content: string) returns (r: Result<Draft>)
    requires Matches(ws, t, d)
    ensures Agrees(ws, PlayCreate(ws, t, path, content), r)
    ensures r.Ok? ==> r.value.edges == d.edges
  {
    var p :- Normalized(ws, path);
    var d1 :- Load(ws, t, d, p);
    ghost var t1 := Touch(ws, t, p).value;
    assert Entered(ws, t1, d1, p);
    if d1.planned[p].content.Some? { return Err(AlreadyExists); }
    var d2 :- PlanParent(ws, t1, d1, p);
    ghost var t2 := t1.(needed := t1.needed + Parents(ws, t1, p, 1).value);
    PutMatches(ws, t2, d2, p, content, None, None);
    r := Ok(d2.(planned := d2.planned[p := FileState(Some(content), None)]));
  }

  method PlanReplace(
    ws: Workspace, ghost t: Tree, d: Draft, path: string, expected: Option<Digest>, oldText: string, newText: string)
    returns (r: Result<Draft>)
    requires Matches(ws, t, d)
    ensures Agrees(ws, PlayReplace(ws, t, path, expected, oldText, newText), r)
    ensures r.Ok? ==> r.value.edges == d.edges
  {
    var p :- Normalized(ws, path);
    var d1 :- Hold(ws, t, d, p, expected);
    ghost var t1 := Touch(ws, t, p).value;
    assert Entered(ws, t1, d1, p);
    var current := d1.planned[p].content.value;
    if oldText == "" { return Err(InvalidArguments); }
    TextEdit.AdaptedNonEmpty(current, oldText);
    var matched, replacement := TextEdit.Adapted(current, oldText), TextEdit.Adapted(current, newText);
    if TextEdit.Count(current, matched) != 1 { return Err(EditConflict); }
    var content := TextEdit.ReplaceFirst(current, matched, replacement);
    PutMatches(ws, t1, d1, p, content, OriginAt(t1, p), d1.planned[p].origin);
    r := Ok(d1.(planned := d1.planned[p := FileState(Some(content), d1.planned[p].origin)]));
  }

  method PlanDelete(ws: Workspace, ghost t: Tree, d: Draft, path: string, expected: Option<Digest>) returns (r: Result<Draft>)
    requires Matches(ws, t, d)
    ensures Agrees(ws, PlayDelete(ws, t, path, expected), r)
    ensures r.Ok? ==> r.value.edges == d.edges
  {
    var p :- Normalized(ws, path);
    var d1 :- Hold(ws, t, d, p, expected);
    ghost var t1 := Touch(ws, t, p).value;
    RemoveMatches(ws, t1, d1, p, d1.planned[p].origin);
    r := Ok(d1.(planned := d1.planned[p := FileState(None, d1.planned[p].origin)]));
  }

  method PlanMove(
    ws: Workspace, tools: Tools, ghost t: Tree, d: Draft, source: string, destination: string, expected: Option<Digest>)
    returns (r: Result<Draft>)
    requires Matches(ws, t, d)
    ensures Agrees(ws, PlayMove(ws, tools, t, source, destination, expected), r)
    ensures r.Ok? ==> r.value.edges == d.edges[Split(source) := Split(destination)]
  {
    var s :- Normalized(ws, source);
    var q :- Normalized(ws, destination);
    if source == destination || tools.fold(source) == tools.fold(destination) { return Err(InvalidArguments); }
    assert s == Split(source) && q == Split(destination);
    if s == q { SplitIsInjective(source, destination); }
    hide *;
    r := PlanRelocation(ws, t, d, s, q, expected);
  }

  method PlanRelocation(ws: Workspace, ghost t: Tree, d: Draft, s: Path, q: Path, expected: Option<Digest>)
    returns (r: Result<Draft>)
    requires Matches(ws, t, d) && s != q
    ensures Agrees(ws, PlayRelocation(ws, t, s, q, expected), r)
    ensures r.Ok? ==> r.value.edges == d.edges[s := q]
  {
    hide Matches, Parents, OnDisk, Entered, ExpectedAt, Rejected;
    var d1 :- Hold(ws, t, d, s, expected);
    ghost var t1 := Touch(ws, t, s).value;
    ghost var text := Held(ws, t1, s, expected).value;
    var d2 :- Load(ws, t1, d1, q);
    ghost var t2 := Touch(ws, t1, q).value;
    EntryOf(ws, t2, d2, q);
    if d2.planned[q].content.Some? { return Err(AlreadyExists); }
    var d3 :- PlanParent(ws, t2, d2, q);
    ghost var t3 := t2.(needed := t2.needed + Parents(ws, t2, q, 1).value);
    hide Put, Remove, OriginAt;
    var moved := Relocate(ws, t3, d3, s, q);
    assert PlayRelocation(ws, t, s, q, expected) == Ok(Put(Remove(t3, s), q, text, OriginAt(t2, s)));
    r := Ok(moved);
  }

  /** The three table updates of a move. */
  function Relocate(ws: Workspace, ghost t: Tree, d: Draft, s: Path, q: Path): (r: Draft)
    requires Matches(ws, t, d) && s != q && s in d.planned && q in d.planned && s in t.files
    ensures Matches(ws, Put(Remove(t, s), q, t.files[s], OriginAt(t, s)), r)
    ensures r.edges == d.edges[s := q]
  {
    var state := d.planned[s];
    var planned := d.planned[s := FileState(None, state.origin)][q := state];
    assert Entered(ws, t, d, s);
    RemoveMatches(ws, t, d, s, state.origin);
    var gone := d.(planned := d.planned[s := FileState(None, state.origin)]);
    PutMatches(ws, Remove(t, s), gone, q, t.files[s], OriginAt(t, s), state.origin);
    EdgesMatch(ws, Put(Remove(t, s), q, t.files[s], OriginAt(t, s)), gone.(planned := planned), d.edges[s := q]);
    d.(planned := planned, edges := d.edges[s := q])
  }

  lemma {:induction false} EdgesMatch(ws: Workspace, t: Tree, d: Draft, edges: map<Path, Path>)
    requires Matches(ws, t, d)
    ensures Matches(ws, t, d.(edges := edges))
  {
    forall q | q in d.planned ensures Entered(ws, t, d.(edges := edges), q) { assert Entered(ws, t, d, q); }
  }

  method PlanOne(ws: Workspace, tools: Tools, ghost t: Tree, d: Draft, op: Operation) returns (r: Result<Draft>)
    requires Matches(ws, t, d)
    ensures Agrees(ws, Play(ws, tools, t, op), r)
    ensures r.Ok? ==> r.value.edges == if op.Move? then d.edges[Split(op.source) := Split(op.destination)] else d.edges
  {
    match op {
      case Create(path, content) => r := PlanCreate(ws, t, d, path, content);
      case Replace(path, expected, oldText, newText) => r := PlanReplace(ws, t, d, path, expected, oldText, newText);
      case Delete(path, expected) => r := PlanDelete(ws, t, d, path, expected);
      case Move(source, destination, expected) => r := PlanMove(ws, tools, t, d, source, destination, expected);
      case Malformed => r := Err(InvalidArguments);
    }
  }

  /** The walk along the moves from every start. */
  method HasCycle(edges: map<Path, Path>) returns (found: bool)
    ensures found <==> Cyclic(edges)
  {
    var left := edges.Keys;
    while left != {}
      invariant left <= edges.Keys
      invariant forall s | Circular(edges, s) :: s <= left
      decreases |left|
    {
      var start :| start in left;
      var seen: set<Path> := {};
      var current := start;
      while current in edges
        invariant seen <= edges.Keys
        invariant forall p | p in seen :: edges[p] in seen + {current}
        invariant forall s | Circular(edges, s) && start in s :: current in s
        decreases |edges.Keys - seen|
      {
        if current in seen {
          assert Circular(edges, seen);
          return true;
        }
        assert edges.Keys - (seen + {current}) < edges.Keys - seen;
        ProperSubsetSize(edges.Keys - (seen + {current}), edges.Keys - seen);
        seen := seen + {current};
        current := edges[current];
      }
      left := left - {start};
    }
    found := false;
  }

  lemma {:induction false} ChangesMatch(ws: Workspace, t: Tree, d: Draft)
    requires Matches(ws, t, d)
    ensures After(ws, t) == map p | p in d.planned && d.before[p] != d.planned[p].content :: d.planned[p].content
    ensures Before(ws, t) == map p | p in After(ws, t) && p in d.before :: d.before[p]
  {
    var changed := Changed(Original(ws), t.files);
    forall p ensures p in changed <==> p in d.planned && d.before[p] != d.planned[p].content {
      if p in d.planned {
        assert Entered(ws, t, d, p);
        OnDiskIsOriginal(ws, p);
      } else {
        assert Untouched(ws, t, p);
      }
    }
    forall p | p in changed
      ensures d.before[p] == Get(Original(ws), p) && d.planned[p].content == Get(t.files, p)
    {
      assert Entered(ws, t, d, p);
      OnDiskIsOriginal(ws, p);
    }
  }

  lemma {:induction false} StartMatches(ws: Workspace)
    ensures Matches(ws, Start(ws), Draft(map[], map[], {}, map[]))
  {
    forall p ensures Untouched(ws, Start(ws), p) { }
  }

  lemma {:induction false} PlayAllStep(ws: Workspace, tools: Tools, ops: seq<Operation>, i: nat)
    requires i < |ops|
    ensures PlayAll(ws, tools, ops[..i]).Err? ==> PlayAll(ws, tools, ops[..i + 1]) == PlayAll(ws, tools, ops[..i])
    ensures PlayAll(ws, tools, ops[..i]).Ok? ==>
              var played := Play(ws, tools, PlayAll(ws, tools, ops[..i]).value, ops[i]);
              PlayAll(ws, tools, ops[..i + 1]) ==
              if played.Err? then Err(played.error)
              else if TotalTextBytes(ops[..i + 1]) > MAX_TEXT_BYTES then Err(LimitExceeded) else played
    ensures TotalTextBytes(ops[..i + 1]) == TotalTextBytes(ops[..i]) + TextBytes(ops[i])
    ensures MoveEdges(ops[..i + 1]) ==
            if ops[i].Move? then MoveEdges(ops[..i])[Split(ops[i].source) := Split(ops[i].destination)] else MoveEdges(ops[..i])
  {
    assert ops[..i + 1][..i] == ops[..i];
  }

  lemma {:induction false} ErrorStays(ws: Workspace, tools: Tools, ops: seq<Operation>, i: nat)
    requires i <= |ops| && PlayAll(ws, tools, ops[..i]).Err?
    ensures PlayAll(ws, tools, ops) == PlayAll(ws, tools, ops[..i])
    decreases |ops| - i
  {
    if i == |ops| {
      assert ops[..i] == ops;
    } else {
      PlayAllStep(ws, tools, ops, i);
      ErrorStays(ws, tools, ops, i + 1);
    }
  }

  /** The operation loop of `prepare`. */
  method PlanAll(ws: Workspace, tools: Tools, ops: seq<Operation>) returns (r: Result<Draft>)
    ensures Agrees(ws, PlayAll(ws, tools, ops), r)
    ensures r.Ok? ==> r.value.edges == MoveEdges(ops)
  {
    hide Play, Matches, PlayAll, MoveEdges, TotalTextBytes;
    var d := Draft(map[], map[], {}, map[]);
    var textBytes := 0;
    PlayNone(ws, tools);
    for i := 0 to |ops|
      invariant PlayAll(ws, tools, ops[..i]).Ok? && Matches(ws, PlayAll(ws, tools, ops[..i]).value, d)
      invariant d.edges == MoveEdges(ops[..i]) && textBytes == TotalTextBytes(ops[..i])
    {
      ghost var t := PlayAll(ws, tools, ops[..i]).value;
      PlayAllStep(ws, tools, ops, i);
      var one := PlanOne(ws, tools, t, d, ops[i]);
      if one.Err? {
        ErrorStays(ws, tools, ops, i + 1);
        return one;
      }
      d := one.value;
      textBytes := textBytes + TextBytes(ops[i]);
      if textBytes > MAX_TEXT_BYTES {
        ErrorStays(ws, tools, ops, i + 1);
        return Err(LimitExceeded);
      }
    }
    assert ops[..|ops|] == ops;
    r := Ok(d);
  }

  lemma {:induction false} PlayNone(ws: Workspace, tools: Tools)
    ensures forall ops: seq<Operation> :: ops[..0] == []
    ensures PlayAll(ws, tools, []).Ok? && Matches(ws, PlayAll(ws, tools, []).value, Draft(map[], map[], {}, map[]))
    ensures MoveEdges([]) == map[] && TotalTextBytes([]) == 0
  {
    StartMatches(ws);
  }

  /** `prepare` */
  method Prepare(ws: Workspace, tools: Tools, ops: seq<Operation>) returns (r: Result<Plan>)
    ensures PlansAs(ws, tools, ops, r)
  {
    hide Matches, PlayAll, MoveEdges, Original, Changed;
    if !ws.isolated { return Err(PathRejected); }
    if !(1 <= |ops| <= MAX_OPERATIONS) { return Err(InvalidArguments); }
    var d :- PlanAll(ws, tools, ops);
    ghost var t := PlayAll(ws, tools, ops).value;
    TablesOf(ws, t, d);
    var cycle := HasCycle(d.edges);
    if cycle { return Err(InvalidArguments); }
    var after := map p | p in d.planned && d.before[p] != d.planned[p].content :: d.planned[p].content;
    var before := map p | p in after && p in d.before :: d.before[p];
    ChangesMatch(ws, t, d);
    if after == map[] { return Err(NoChanges); }
    if |after| > MAX_OPERATIONS { return Err(LimitExceeded); }
    if exists p | p in after :: after[p].Some? && Utf8Size(after[p].value) > MAX_FILE_BYTES { return Err(LimitExceeded); }
    if tools.patchBytes(before, after) > MAX_PATCH_BYTES { return Err(LimitExceeded); }
    var dirs := ByDepth(d.required);
    r := Ok(Plan(before, after, dirs));
  }

  lemma {:induction false} TablesOf(ws: Workspace, t: Tree, d: Draft)
    requires Matches(ws, t, d)
    ensures d.planned.Keys == d.before.Keys && d.required == t.needed
  {
  }

  // ---------------------------------------------------------------- what a plan means

  /** The tree after a plan's changes are laid over it. */
  function Overlay(m: map<Path, string>, c: Contents): map<Path, string> {
    map p | p in m.Keys + c.Keys && (if p in c then c[p].Some? else true) :: if p in c then c[p].value else m[p]
  }

  /**
   A plan is the sequential run: its `after` takes the original tree to the tree after the last
   operation, its `before` takes it back, and it names exactly the paths that differ.
   */
  lemma {:induction false} PlanIsSequential(ws: Workspace, tools: Tools, ops: seq<Operation>, r: Result<Plan>)
    requires PlansAs(ws, tools, ops, r) && r.Ok?
    ensures PlayAll(ws, tools, ops).Ok?
    ensures var files := PlayAll(ws, tools, ops).value.files;
            && Overlay(Original(ws), r.value.after) == files
            && Overlay(files, r.value.before) == Original(ws)
            && r.value.before.Keys == r.value.after.Keys == Changed(Original(ws), files)
    ensures forall p | p in r.value.after :: r.value.after[p] != r.value.before[p]
  {
    hide PlayAll, FinalCheck, Original;
    var t := PlayAll(ws, tools, ops).value;
    RestrictTakesOver(Original(ws), t.files);
    RestrictTakesOver(t.files, Original(ws));
    assert Changed(t.files, Original(ws)) == Changed(Original(ws), t.files);
  }

  lemma {:induction false} RestrictTakesOver(a: map<Path, string>, b: map<Path, string>)
    ensures Overlay(a, Restrict(b, Changed(a, b))) == b
  {
    var c := Restrict(b, Changed(a, b));
    forall p ensures Get(Overlay(a, c), p) == Get(b, p) { }
    SameMap(Overlay(a, c), b);
  }

  /** The path that an operation gives a text to. */
  function Written(op: Operation): Option<Path> {
    match op
    case Create(path, _) => Some(Split(path))
    case Move(_, destination, _) => Some(Split(destination))
    case _ => None
  }

  /** The paths that an operation names. */
  function Named(op: Operation): set<Path> {
    match op
    case Create(path, _) => {Split(path)}
    case Replace(path, _, _, _) => {Split(path)}
    case Delete(path, _) => {Split(path)}
    case Move(source, destination, _) => {Split(source), Split(destination)}
    case Malformed => {}
  }

  /** Where the text at `p` was before the operations, followed back through the moves. */
  function Descent(ops: seq<Operation>, p: Path): Option<Path> {
    if ops == [] then Some(p)
    else
      var front, op := ops[..|ops| - 1], ops[|ops| - 1];
      match op
      case Create(path, _) => if Split(path) == p then None else Descent(front, p)
      case Move(source, destination, _) => Descent(front, if Split(destination) == p then Split(source) else p)
      case _ => Descent(front, p)
  }

  lemma {:induction false} NormalizedIsSplit(ws: Workspace, raw: string)
    ensures Normalized(ws, raw).Ok? ==> Normalized(ws, raw).value == Split(raw)
  {
  }

  /** What one successful operation does to the files, to their descent, and to nothing else. */
  lemma {:induction false} PlayEffect(ws: Workspace, tools: Tools, t: Tree, op: Operation)
    requires Play(ws, tools, t, op).Ok?
    ensures var t' := Play(ws, tools, t, op).value;
            && t'.touched == t.touched + Named(op)
            && (forall p | p !in Named(op) :: Get(t'.files, p) == Get(t.files, p) && OriginAt(t', p) == OriginAt(t, p))
            && match op
               case Create(path, content) =>
                 Split(path) !in t.files && Get(t'.files, Split(path)) == Some(content) && OriginAt(t', Split(path)) == None
               case Replace(path, _, _, _) =>
                 Split(path) in t.files && Split(path) in t'.files && OriginAt(t', Split(path)) == OriginAt(t, Split(path))
               case Delete(path, _) => Split(path) in t.files && Split(path) !in t'.files
               case Move(source, destination, _) =>
                 && Split(source) in t.files && Split(destination) !in t.files && Split(source) !in t'.files
                 && Get(t'.files, Split(destination)) == Get(t.files, Split(source))
                 && OriginAt(t', Split(destination)) == OriginAt(t, Split(source))
               case Malformed => false
  {
    hide Parents, OnDisk, Split, ExpectedAt;
    match op {
      case Create(path, _) => NormalizedIsSplit(ws, path);
      case Replace(path, _, _, _) => NormalizedIsSplit(ws, path);
      case Delete(path, _) => NormalizedIsSplit(ws, path);
      case Move(source, destination, _) =>
        NormalizedIsSplit(ws, source);
        NormalizedIsSplit(ws, destination);
        if Split(source) == Split(destination) { SplitIsInjective(source, destination); }
      case Malformed =>
    }
  }

  /** The rewritten text: the match says what the old text says, and the new text stands in its place. */
  ghost predicate Rewrites(before: string, after: string, oldText: string, newText: string) {
    exists at: nat, matched: string, r: string ::
      && TextEdit.CountedOnceAt(before, matched, at) && at + |matched| <= |before|
      && TextEdit.Reading(matched) == TextEdit.Reading(oldText) && TextEdit.Reading(r) == TextEdit.Reading(newText)
      && after == before[..at] + r + before[at + |matched|..]
      && (|TextEdit.Styles(before)| != 1 ==> matched == oldText && r == newText)
      && (|TextEdit.Styles(before)| <= 1 ==>
            TextEdit.Reading(after) ==
            TextEdit.Reading(before[..at]) + TextEdit.Reading(newText) + TextEdit.Reading(before[at + |matched|..]))
  }

  /** A replacement rewrites the one match of its old text, and is refused when that is not counted once. */
  lemma {:induction false} ReplacementReads(
    ws: Workspace, t: Tree, path: string, expected: Option<Digest>, oldText: string, newText: string)
    requires PlayReplace(ws, t, path, expected, oldText, newText).Ok?
    ensures var t', p := PlayReplace(ws, t, path, expected, oldText, newText).value, Split(path);
            p in t.files && p in t'.files && Rewrites(t.files[p], t'.files[p], oldText, newText)
  {
    hide OnDisk, Split, ExpectedAt, TextEdit.Count, TextEdit.Reading, TextEdit.Styles, TextEdit.Adapted, TextEdit.Edited;
    NormalizedIsSplit(ws, path);
    var current := t.files[Split(path)];
    TextEdit.AdaptedNonEmpty(current, oldText);
    var at := TextEdit.EditReads(current, oldText, newText);
    TextEdit.AdaptedReads(current, oldText);
    TextEdit.AdaptedReads(current, newText);
  }

  /** Where the text at `p` was before one operation. */
  function Earlier(op: Operation, p: Path): Option<Path> {
    match op
    case Create(path, _) => if Split(path) == p then None else Some(p)
    case Move(source, destination, _) => Some(if Split(destination) == p then Split(source) else p)
    case _ => Some(p)
  }

  lemma {:induction false} OriginStep(ws: Workspace, tools: Tools, t: Tree, op: Operation, p: Path)
    requires Play(ws, tools, t, op).Ok? && p in Play(ws, tools, t, op).value.files
    ensures var t', q := Play(ws, tools, t, op).value, Earlier(op, p);
            if q.Some? then q.value in t.files && OriginAt(t', p) == OriginAt(t, q.value) else OriginAt(t', p).None?
  {
    hide Play, Split;
    PlayEffect(ws, tools, t, op);
    var t' := Play(ws, tools, t, op).value;
    assert p !in Named(op) ==> Get(t'.files, p) == Get(t.files, p) && OriginAt(t', p) == OriginAt(t, p);
  }

  lemma {:induction false} DescentStep(ops: seq<Operation>, p: Path)
    requires ops != []
    ensures var q := Earlier(ops[|ops| - 1], p);
            Descent(ops, p) == if q.Some? then Descent(ops[..|ops| - 1], q.value) else None
  {
  }

  lemma {:induction false} LastPlays(ws: Workspace, tools: Tools, ops: seq<Operation>)
    requires PlayAll(ws, tools, ops).Ok?
    ensures ops == [] ==> PlayAll(ws, tools, ops).value == Start(ws)
    ensures ops != [] ==>
              var before := PlayAll(ws, tools, ops[..|ops| - 1]);
              before.Ok? && Play(ws, tools, before.value, ops[|ops| - 1]) == PlayAll(ws, tools, ops)
  {
  }

  /** The text at every path descends from the file that the moves lead back to. */
  lemma {:induction false} OriginIsDescent(ws: Workspace, tools: Tools, ops: seq<Operation>, p: Path)
    requires PlayAll(ws, tools, ops).Ok? && p in PlayAll(ws, tools, ops).value.files
    ensures OriginAt(PlayAll(ws, tools, ops).value, p) == Descent(ops, p)
    ensures Descent(ops, p).Some? ==> Descent(ops, p).value in Original(ws)
  {
    LastPlays(ws, tools, ops);
    if ops != [] {
      hide *;
      var front, op := ops[..|ops| - 1], ops[|ops| - 1];
      OriginStep(ws, tools, PlayAll(ws, tools, front).value, op, p);
      DescentStep(ops, p);
      var q := Earlier(op, p);
      if q.Some? { OriginIsDescent(ws, tools, front, q.value); }
    }
  }

  /** The file an operation must know the digest of. */
  function Expecting(op: Operation): Option<(Path, Option<Digest>)> {
    match op
    case Replace(path, expected, _, _) => Some((Split(path), expected))
    case Delete(path, expected) => Some((Split(path), expected))
    case Move(source, _, expected) => Some((Split(source), expected))
    case _ => None
  }

  lemma {:induction false} ExpectedIsCurrent(ws: Workspace, tools: Tools, t: Tree, op: Operation)
    requires Play(ws, tools, t, op).Ok? && Expecting(op).Some?
    ensures var e := Expecting(op).value; e.0 in t.files && e.1.Some? && ExpectedAt(ws, t, e.0) == e.1
  {
    hide Parents, OnDisk, Split;
  }

  lemma {:induction false} PrefixPlays(ws: Workspace, tools: Tools, ops: seq<Operation>, i: nat)
    requires PlayAll(ws, tools, ops).Ok? && i <= |ops|
    ensures PlayAll(ws, tools, ops[..i]).Ok?
    ensures i < |ops| ==> Play(ws, tools, PlayAll(ws, tools, ops[..i]).value, ops[i]).Ok?
  {
    if PlayAll(ws, tools, ops[..i]).Err? { ErrorStays(ws, tools, ops, i); }
    if i < |ops| {
      PlayAllStep(ws, tools, ops, i);
      if PlayAll(ws, tools, ops[..i + 1]).Err? { ErrorStays(ws, tools, ops, i + 1); }
    }
  }

  /**
   Every expected digest was checked against the original text of the file that the path leads
   back to through the earlier moves and replacements.
   */
  lemma {:induction false} ExpectedDigestsAreOriginal(ws: Workspace, tools: Tools, ops: seq<Operation>, i: nat)
    requires PlayAll(ws, tools, ops).Ok? && i < |ops| && Expecting(ops[i]).Some?
    ensures var from := Descent(ops[..i], Expecting(ops[i]).value.0);
            && from.Some? && from.value in Original(ws)
            && Expecting(ops[i]).value.1 == Some(Sha256(Original(ws)[from.value]))
  {
    hide Play, Original;
    PrefixPlays(ws, tools, ops, i);
    var t := PlayAll(ws, tools, ops[..i]).value;
    ExpectedIsCurrent(ws, tools, t, ops[i]);
    OriginIsDescent(ws, tools, ops[..i], Expecting(ops[i]).value.0);
  }

  /** A path that no operation names keeps its text. */
  lemma {:induction false} OthersKeepTheirText(ws: Workspace, tools: Tools, ops: seq<Operation>, p: Path)
    requires PlayAll(ws, tools, ops).Ok? && forall i | 0 <= i < |ops| :: p !in Named(ops[i])
    ensures Get(PlayAll(ws, tools, ops).value.files, p) == Get(Original(ws), p)
  {
    if ops != [] {
      hide Play;
      PlayEffect(ws, tools, PlayAll(ws, tools, ops[..|ops| - 1]).value, ops[|ops| - 1]);
      OthersKeepTheirText(ws, tools, ops[..|ops| - 1], p);
    }
  }

  lemma {:induction false} NamedLoads(ws: Workspace, tools: Tools, t: Tree, op: Operation, p: Path)
    requires Play(ws, tools, t, op).Ok? && p in Named(op)
    ensures OnDisk(ws, p).Ok? && p != []
  {
    hide Parents, OnDisk, ExpectedAt;
    match op {
      case Create(path, _) => NormalizedIsSplit(ws, path);
      case Replace(path, _, _, _) => NormalizedIsSplit(ws, path);
      case Delete(path, _) => NormalizedIsSplit(ws, path);
      case Move(source, destination, _) =>
        NormalizedIsSplit(ws, source);
        NormalizedIsSplit(ws, destination);
    }
  }

  /** Every path whose text changed could be read, or did not exist. */
  lemma {:induction false} ChangedLoads(ws: Workspace, tools: Tools, ops: seq<Operation>, p: Path)
    requires PlayAll(ws, tools, ops).Ok?
    requires Get(PlayAll(ws, tools, ops).value.files, p) != Get(Original(ws), p)
    ensures OnDisk(ws, p) == Ok(Get(Original(ws), p)) && p != []
  {
    hide Play, OnDisk, Original;
    if ops != [] {
      var front, op := ops[..|ops| - 1], ops[|ops| - 1];
      PlayEffect(ws, tools, PlayAll(ws, tools, front).value, op);
      if p in Named(op) {
        NamedLoads(ws, tools, PlayAll(ws, tools, front).value, op, p);
        OnDiskIsOriginal(ws, p);
      } else {
        ChangedLoads(ws, tools, front, p);
      }
    }
  }

  // ---------------------------------------------------------------- created directories

  /** `a` is a missing parent of a path that an operation gives a text to. */
  ghost predicate MissingParent(ws: Workspace, ops: seq<Operation>, a: Path) {
    && a !in ws.entries && a != []
    && exists i | 0 <= i < |ops| :: Written(ops[i]).Some? && IsAncestor(a, Written(ops[i]).value)
  }

  lemma {:induction false} ParentsMeaning(ws: Workspace, t: Tree, p: Path, k: nat)
    requires 1 <= k && Parents(ws, t, p, k).Ok?
    ensures forall a :: a in Parents(ws, t, p, k).value <==> a !in ws.entries && k <= |a| && IsAncestor(a, p)
    ensures forall a | k <= |a| && IsAncestor(a, p) && a in ws.entries :: ws.entries[a].Directory?
    decreases |p| - k
  {
    if k < |p| {
      ParentsMeaning(ws, t, p, k + 1);
      forall a | k <= |a| && IsAncestor(a, p) && |a| == k ensures a == Ancestor(p, k) { }
    }
  }

  lemma {:induction false} PlayNeeds(ws: Workspace, tools: Tools, t: Tree, op: Operation)
    requires Play(ws, tools, t, op).Ok?
    ensures var t' := Play(ws, tools, t, op).value;
            forall a :: a in t'.needed <==>
              a in t.needed || (Written(op).Some? && a !in ws.entries && a != [] && IsAncestor(a, Written(op).value))
  {
    hide OnDisk, Split, ExpectedAt, Parents;
    match op {
      case Create(path, _) =>
        NormalizedIsSplit(ws, path);
        ParentsMeaning(ws, Touch(ws, t, Split(path)).value, Split(path), 1);
      case Move(source, destination, _) =>
        NormalizedIsSplit(ws, source);
        NormalizedIsSplit(ws, destination);
        ParentsMeaning(ws, Touch(ws, Touch(ws, t, Split(source)).value, Split(destination)).value, Split(destination), 1);
      case _ =>
    }
  }

  lemma {:induction false} MissingParentStep(ws: Workspace, ops: seq<Operation>, a: Path)
    requires ops != []
    ensures var op := ops[|ops| - 1];
            MissingParent(ws, ops, a) <==>
              || MissingParent(ws, ops[..|ops| - 1], a)
              || (Written(op).Some? && a !in ws.entries && a != [] && IsAncestor(a, Written(op).value))
  {
    hide Written, IsAncestor;
    var front, op := ops[..|ops| - 1], ops[|ops| - 1];
    if MissingParent(ws, front, a) {
      var i :| 0 <= i < |front| && Written(front[i]).Some? && IsAncestor(a, Written(front[i]).value);
      assert ops[i] == front[i];
    }
    if MissingParent(ws, ops, a) {
      var i :| 0 <= i < |ops| && Written(ops[i]).Some? && IsAncestor(a, Written(ops[i]).value);
      assert i < |front| ==> ops[i] == front[i];
    }
  }

  /** The created directories are exactly the missing parents of the written paths. */
  lemma {:induction false} CreatedDirectoriesMeaning(ws: Workspace, tools: Tools, ops: seq<Operation>, a: Path)
    requires PlayAll(ws, tools, ops).Ok?
    ensures a in PlayAll(ws, tools, ops).value.needed <==> MissingParent(ws, ops, a)
  {
    hide Play, Written, IsAncestor;
    if ops != [] {
      hide MissingParent;
      var front, op := ops[..|ops| - 1], ops[|ops| - 1];
      PlayNeeds(ws, tools, PlayAll(ws, tools, front).value, op);
      CreatedDirectoriesMeaning(ws, tools, front, a);
      MissingParentStep(ws, ops, a);
    }
  }

  /** The same of a finished plan. */
  lemma {:induction false} PlannedDirectories(ws: Workspace, tools: Tools, ops: seq<Operation>, r: Result<Plan>, a: Path)
    requires PlansAs(ws, tools, ops, r) && r.Ok?
    ensures a in r.value.createdDirectories <==> MissingParent(ws, ops, a)
  {
    hide PlayAll, FinalCheck, After, Before, MissingParent;
    CreatedDirectoriesMeaning(ws, tools, ops, a);
  }

  /** The existing parents of a written path are directories. */
  lemma {:induction false} WrittenParents(ws: Workspace, tools: Tools, ops: seq<Operation>, i: nat, a: Path)
    requires PlayAll(ws, tools, ops).Ok? && i < |ops| && Written(ops[i]).Some?
    requires a != [] && IsAncestor(a, Written(ops[i]).value) && a in ws.entries
    ensures ws.entries[a].Directory?
  {
    PrefixPlays(ws, tools, ops, i);
    PlayParents(ws, tools, PlayAll(ws, tools, ops[..i]).value, ops[i], a);
  }

  lemma {:induction false} PlayParents(ws: Workspace, tools: Tools, t: Tree, op: Operation, a: Path)
    requires Play(ws, tools, t, op).Ok? && Written(op).Some?
    requires a != [] && IsAncestor(a, Written(op).value) && a in ws.entries
    ensures ws.entries[a].Directory?
  {
    hide OnDisk, Split, ExpectedAt, Parents;
    match op {
      case Create(path, _) =>
        NormalizedIsSplit(ws, path);
        ParentsMeaning(ws, Touch(ws, t, Split(path)).value, Split(path), 1);
      case Move(source, destination, _) =>
        NormalizedIsSplit(ws, source);
        NormalizedIsSplit(ws, destination);
        ParentsMeaning(ws, Touch(ws, Touch(ws, t, Split(source)).value, Split(destination)).value, Split(destination), 1);
    }
  }

  /** Some operation writes `p`. */
  ghost predicate IsWritten(ops: seq<Operation>, p: Path) { exists i | 0 <= i < |ops| :: Written(ops[i]) == Some(p) }

  /** A text of the final tree was there before, or was written. */
  lemma {:induction false} TextsAreWritten(ws: Workspace, tools: Tools, ops: seq<Operation>, p: Path)
    requires PlayAll(ws, tools, ops).Ok? && p in PlayAll(ws, tools, ops).value.files
    ensures p in Original(ws) || IsWritten(ops, p)
  {
    hide Play, PlayAll, Split;
    LastPlays(ws, tools, ops);
    if ops != [] {
      var front, op := ops[..|ops| - 1], ops[|ops| - 1];
      PlayEffect(ws, tools, PlayAll(ws, tools, front).value, op);
      if Written(op) == Some(p) {
        assert ops[|ops| - 1] == op;
      } else {
        assert p !in Named(op) ==> Get(PlayAll(ws, tools, front).value.files, p).Some?;
        TextsAreWritten(ws, tools, front, p);
        if IsWritten(front, p) {
          var i :| 0 <= i < |front| && Written(front[i]) == Some(p);
          assert ops[i] == front[i];
        }
      }
    }
  }

  /** A final text stands where the plan also creates a directory. */
  ghost predicate Clashes(plan: Plan) {
    exists p | p in plan.after :: plan.after[p].Some? && p in plan.createdDirectories
  }

  /** The path that an operation takes the text away from. */
  function Removed(op: Operation): Option<Path> {
    match op
    case Delete(path, _) => Some(Split(path))
    case Move(source, _, _) => Some(Split(source))
    case _ => None
  }

  ghost predicate Stays(ops: seq<Operation>, i: nat, p: Path) { forall j | i < j < |ops| :: Removed(ops[j]) != Some(p) }

  /** Some operation writes a text at `p`, and none after it takes it away. */
  ghost predicate LeavesText(ops: seq<Operation>, p: Path) {
    exists i: nat :: i < |ops| && Written(ops[i]) == Some(p) && Stays(ops, i, p)
  }

  lemma {:induction false} LeavesStep(ops: seq<Operation>, p: Path)
    requires ops != []
    ensures var front, op := ops[..|ops| - 1], ops[|ops| - 1];
            LeavesText(ops, p) <==> Written(op) == Some(p) || (LeavesText(front, p) && Removed(op) != Some(p))
  {
    hide Written, Removed;
    var front, op := ops[..|ops| - 1], ops[|ops| - 1];
    if LeavesText(ops, p) && Written(op) != Some(p) {
      var i: nat :| i < |ops| && Written(ops[i]) == Some(p) && Stays(ops, i, p);
      assert front[i] == ops[i] && Stays(front, i, p);
    }
    if Written(op) == Some(p) {
      assert Stays(ops, |ops| - 1, p);
    } else if LeavesText(front, p) && Removed(op) != Some(p) {
      var i: nat :| i < |front| && Written(front[i]) == Some(p) && Stays(front, i, p);
      assert ops[i] == front[i];
      forall j | i < j < |ops| ensures Removed(ops[j]) != Some(p) { assert j < |front| ==> ops[j] == front[j]; }
      assert Stays(ops, i, p);
    }
  }

  /** A path without an original text ends with one exactly when the operations leave one there. */
  lemma {:induction false} NewTexts(ws: Workspace, tools: Tools, ops: seq<Operation>, p: Path)
    requires PlayAll(ws, tools, ops).Ok? && p !in Original(ws)
    ensures p in PlayAll(ws, tools, ops).value.files <==> LeavesText(ops, p)
  {
    hide Play, PlayAll, Split, LeavesText;
    LastPlays(ws, tools, ops);
    if ops == [] {
      assert !LeavesText(ops, p) by { NothingLeft(p); }
    } else {
      var front, op := ops[..|ops| - 1], ops[|ops| - 1];
      var before, after := PlayAll(ws, tools, front).value, PlayAll(ws, tools, ops).value;
      LeavesStep(ops, p);
      NewTexts(ws, tools, front, p);
      PlayEffect(ws, tools, before, op);
      assert p !in Named(op) ==> Get(after.files, p) == Get(before.files, p);
    }
  }

  lemma {:induction false} NothingLeft(p: Path)
    ensures !LeavesText([], p)
  {
  }

  /**
   `prepare` accepts requests that no file system can carry out: exactly those that leave a text
   at a path which they also need as a directory that is not there.
   */
  lemma {:induction false} ClashingPlans(ws: Workspace, tools: Tools, ops: seq<Operation>, r: Result<Plan>)
    requires PlansAs(ws, tools, ops, r) && r.Ok?
    ensures Clashes(r.value) <==> exists p :: LeavesText(ops, p) && MissingParent(ws, ops, p)
  {
    hide PlansAs, LeavesText, MissingParent;
    forall p
      ensures p in r.value.createdDirectories <==> MissingParent(ws, ops, p)
      ensures MissingParent(ws, ops, p) ==> (p in r.value.after && r.value.after[p].Some? <==> LeavesText(ops, p))
    {
      PlannedDirectories(ws, tools, ops, r, p);
      if MissingParent(ws, ops, p) { ClashAt(ws, tools, ops, r, p); }
    }
  }

  lemma {:induction false} ClashAt(ws: Workspace, tools: Tools, ops: seq<Operation>, r: Result<Plan>, p: Path)
    requires PlansAs(ws, tools, ops, r) && r.Ok? && MissingParent(ws, ops, p)
    ensures p in r.value.after && r.value.after[p].Some? <==> LeavesText(ops, p)
  {
    hide PlansAs, LeavesText, PlayAll;
    PlanIsSequential(ws, tools, ops, r);
    NewTexts(ws, tools, ops, p);
    assert p !in Original(ws);
  }

  lemma {:induction false} SplitOne(s: string)
    requires s != "" && '/' !in s
    ensures Split(s) == [s]
  {
    var front := s[..|s| - 1];
    assert s[|s| - 1] in s;
    assert front + [s[|s| - 1]] == s;
    if front != "" {
      assert forall c | c in front :: c in s;
      SplitOne(front);
    }
  }

  lemma {:induction false} SplitTwo()
    ensures Split("a") == ["a"] && Split("a/b") == ["a", "b"]
  {
    SplitOne("a");
    SplitMore("a", '/');
    SplitMore("a" + ['/'], 'b');
    assert "" + ['b'] == "b";
    assert Split("a" + ['/']) == ["a", ""];
    assert Split("a" + ['/'] + ['b']) == ["a", ""][1 := "b"] == ["a", "b"];
    assert "a" + ['/'] + ['b'] == "a/b";
  }

  lemma {:induction false} SplitMore(s: string, c: char)
    ensures Split(s + [c]) ==
            if c == '/' then Split(s) + [""] else Split(s)[|Split(s)| - 1 := Split(s)[|Split(s)| - 1] + [c]]
  {
    assert (s + [c])[..|s|] == s;
  }

  const CLASH: seq<Operation> := [Create("a/b", "x"), Create("a", "y")]

  function EmptyWorktree(guard: Path -> bool): Workspace { Workspace(true, map[], {}, guard) }

  function AfterFirst(): Tree { Tree(map[["a", "b"] := "x"], map[], {["a", "b"]}, {["a"]}) }

  function AfterBoth(): Tree {
    Tree(map[["a", "b"] := "x", ["a"] := "y"], map[], {["a", "b"], ["a"]}, {["a"]})
  }

  lemma {:induction false} PlayFirst(tools: Tools, guard: Path -> bool)
    requires forall p :: !guard(p)
    ensures Play(EmptyWorktree(guard), tools, Start(EmptyWorktree(guard)), CLASH[0]) == Ok(AfterFirst())
  {
    hide Split;
    SplitTwo();
    var ws, p := EmptyWorktree(guard), ["a", "b"];
    assert Ancestor(p, 1) == ["a"];
    var t := Touch(ws, Start(ws), p).value;
    assert Parents(ws, t, p, 2) == Ok({});
    assert Parents(ws, t, p, 1).value == {["a"]};
    assert PlayCreate(ws, Start(ws), "a/b", "x").value == AfterFirst();
  }

  lemma {:induction false} PlaySecond(tools: Tools, guard: Path -> bool)
    requires forall p :: !guard(p)
    ensures Play(EmptyWorktree(guard), tools, AfterFirst(), CLASH[1]) == Ok(AfterBoth())
  {
    hide Split;
    SplitTwo();
    var ws, p := EmptyWorktree(guard), ["a"];
    var t := Touch(ws, AfterFirst(), p).value;
    assert Parents(ws, t, p, 1) == Ok({});
    assert PlayCreate(ws, AfterFirst(), "a", "y").value == AfterBoth();
  }

  lemma {:induction false} PlayClash(tools: Tools, guard: Path -> bool)
    requires forall p :: !guard(p)
    ensures PlayAll(EmptyWorktree(guard), tools, CLASH) == Ok(AfterBoth())
    ensures MoveEdges(CLASH) == map[]
  {
    hide Play;
    var ws := EmptyWorktree(guard);
    PlayFirst(tools, guard);
    PlaySecond(tools, guard);
    assert CLASH[..0] == [] && CLASH[..2] == CLASH;
    PlayAllStep(ws, tools, CLASH, 0);
    PlayAllStep(ws, tools, CLASH, 1);
    assert Utf8Size("x") == 1 && Utf8Size("y") == 1;
  }

  /** Such a plan: in an empty worktree, create `a/b` and then `a`. */
  lemma {:induction false} FileOverItsOwnDirectory(tools: Tools, guard: Path -> bool, r: Result<Plan>)
    requires forall p :: !guard(p)
    requires forall a, b :: tools.patchBytes(a, b) <= MAX_PATCH_BYTES
    requires PlansAs(EmptyWorktree(guard), tools, CLASH, r)
    ensures r.Ok? && Clashes(r.value)
  {
    hide PlayAll, FinalCheck, After, Before;
    PlayClash(tools, guard);
    ClashPasses(tools, guard);
    assert ["a"] in After(EmptyWorktree(guard), AfterBoth()) && ["a"] in r.value.createdDirectories;
  }

  lemma {:induction false} ClashPasses(tools: Tools, guard: Path -> bool)
    requires forall a, b :: tools.patchBytes(a, b) <= MAX_PATCH_BYTES
    requires MoveEdges(CLASH) == map[]
    ensures FinalCheck(EmptyWorktree(guard), tools, CLASH, AfterBoth()) == None
    ensures var after := After(EmptyWorktree(guard), AfterBoth()); ["a"] in after && after[["a"]].Some?
  {
    hide MoveEdges;
    var ws, t := EmptyWorktree(guard), AfterBoth();
    assert Changed(Original(ws), t.files) == {["a", "b"], ["a"]};
    assert After(ws, t)[["a"]] == Some("y") && After(ws, t)[["a", "b"]] == Some("x");
    assert After(ws, t).Keys == {["a", "b"], ["a"]};
    assert Utf8Size("x") == 1 && Utf8Size("y") == 1;
  }
}
