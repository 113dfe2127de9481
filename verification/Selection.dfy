/**
 Choosing benchmark tasks: apportionment of the tiers by largest remainders over exact
 rationals, the capped selection loop, and the checks of the program that reads the result.
 */
module Selection {
  import opened Collections
  import opened Options

  datatype Tier = Easy | Medium | Hard

  const TIERS: seq<Tier> := [Easy, Medium, Hard]

  function Rank(t: Tier): nat {
    match t
    case Easy => 0
    case Medium => 1
    case Hard => 2
  }

  /** One number for each tier. */
  datatype Shares = Shares(easy: nat, medium: nat, hard: nat) {
    function At(t: Tier): nat {
      match t
      case Easy => easy
      case Medium => medium
      case Hard => hard
    }

    function Plus(t: Tier): Shares {
      match t
      case Easy => this.(easy := easy + 1)
      case Medium => this.(medium := medium + 1)
      case Hard => this.(hard := hard + 1)
    }

    function Sum(): nat { easy + medium + hard }
  }

  // ---------------------------------------------------------------- apportionment

  function Times(a: nat, b: nat): nat { a * b }

  /** A tier's quota in units of `1 / total`. */
  function Quota(pool: Shares, size: nat, t: Tier): nat { Times(size, pool.At(t)) }

  /** The part of the quota that rounding down loses. */
  function Remainder(pool: Shares, size: nat, t: Tier): nat
    requires pool.Sum() > 0
  {
    Quota(pool, size, t) % pool.Sum()
  }

  function Floor(pool: Shares, size: nat, t: Tier): nat
    requires pool.Sum() > 0
  {
    Quota(pool, size, t) / pool.Sum()
  }

  function Floors(pool: Shares, size: nat): Shares
    requires pool.Sum() > 0
  {
    Shares(Floor(pool, size, Easy), Floor(pool, size, Medium), Floor(pool, size, Hard))
  }

  /** The order in which tiers receive the seats that rounding down left over. */
  predicate Before(pool: Shares, size: nat, a: Tier, b: Tier)
    requires pool.Sum() > 0
  {
    || Remainder(pool, size, a) > Remainder(pool, size, b)
    || (Remainder(pool, size, a) == Remainder(pool, size, b) && Rank(a) < Rank(b))
  }

  /** A target is a quota of `x / n`, rounded down or, when that is not whole, up. */
  ghost predicate Rounded(x: nat, n: nat, target: nat) {
    || Times(target, n) == x
    || Times(target, n) < x < Times(target + 1, n)
    || (target > 0 && Times(target - 1, n) < x < Times(target, n))
  }

  /** What an apportionment by largest remainders is. */
  ghost predicate Apportions(pool: Shares, size: nat, targets: Shares)
    requires pool.Sum() > 0
  {
    && targets.Sum() == size
    && (forall t :: Rounded(Quota(pool, size, t), pool.Sum(), targets.At(t)) && targets.At(t) <= pool.At(t))
    && (forall a, b | RoundedUp(pool, size, targets, a) && RoundedDown(pool, size, targets, b) :: Before(pool, size, a, b))
  }

  predicate RoundedUp(pool: Shares, size: nat, targets: Shares, t: Tier) {
    Times(targets.At(t), pool.Sum()) > Quota(pool, size, t)
  }

  predicate RoundedDown(pool: Shares, size: nat, targets: Shares, t: Tier) {
    Times(targets.At(t), pool.Sum()) < Quota(pool, size, t)
  }

  /** Of a tier rounded up and one rounded down, the first lost no less to rounding, and of equal losses it is the earlier tier. */
  lemma {:induction false} LargerRemainderFirst(pool: Shares, size: nat, targets: Shares, a: Tier, b: Tier)
    requires pool.Sum() > 0 && Apportions(pool, size, targets)
    requires RoundedUp(pool, size, targets, a) && RoundedDown(pool, size, targets, b)
    ensures Quota(pool, size, a) % pool.Sum() >= Quota(pool, size, b) % pool.Sum()
    ensures Quota(pool, size, a) % pool.Sum() == Quota(pool, size, b) % pool.Sum() ==>
              (a.Easy? && !b.Easy?) || (a.Medium? && b.Hard?)
  {
  }

  /** A size has one apportionment. */
  lemma {:induction false} ApportionmentIsUnique(pool: Shares, size: nat, x: Shares, y: Shares)
    requires pool.Sum() > 0 && Apportions(pool, size, x) && Apportions(pool, size, y)
    ensures x == y
  {
    hide Times, Quota, Before;
    forall t ensures x.At(t) != y.At(t) ==>
        if x.At(t) < y.At(t) then RoundedDown(pool, size, x, t) && RoundedUp(pool, size, y, t)
        else RoundedUp(pool, size, x, t) && RoundedDown(pool, size, y, t)
    {
      OneOfTwo(Quota(pool, size, t), pool.Sum(), x.At(t), y.At(t));
    }
    assert x.At(Easy) == y.At(Easy) || x.At(Medium) == y.At(Medium) || x.At(Hard) == y.At(Hard) || x != y;
    forall a, b | x.At(a) < y.At(a) && x.At(b) > y.At(b) ensures false {
      LargerRemainderFirst(pool, size, y, a, b);
      LargerRemainderFirst(pool, size, x, b, a);
    }
    assert x.At(Easy) + x.At(Medium) + x.At(Hard) == y.At(Easy) + y.At(Medium) + y.At(Hard);
  }

  /** Two roundings of one quota differ only when one went down and the other up. */
  lemma {:induction false} OneOfTwo(x: nat, n: nat, a: nat, b: nat)
    requires n > 0 && Rounded(x, n, a) && Rounded(x, n, b)
    ensures a < b ==> Times(a, n) < x < Times(b, n)
    ensures b < a ==> Times(b, n) < x < Times(a, n)
  {
    hide Times;
    TimesLess(a, b, n);
    TimesLess(b, a, n);
    TimesLess(a + 1, b, n);
    TimesLess(b + 1, a, n);
    if a > 0 { TimesLess(b, a - 1, n); }
    if b > 0 { TimesLess(a, b - 1, n); }
    TimesGrow(a, b, n);
    TimesGrow(b, a, n);
  }

  lemma {:induction false} TimesGrow(a: nat, b: nat, n: nat)
    requires n > 0
    ensures a < b ==> Times(a, n) < Times(b, n)
  {
    hide Times;
    TimesNext(a, n);
    TimesLess(a + 1, b, n);
  }

  lemma {:induction false} TimesLess(a: nat, b: nat, n: nat)
    ensures a <= b ==> Times(a, n) <= Times(b, n)
  {
    if a <= b { assert Times(b, n) == Times(a, n) + Times(b - a, n); }
  }

  lemma {:induction false} TimesNext(a: nat, n: nat)
    ensures Times(a + 1, n) == Times(a, n) + n
  {
  }

  lemma {:induction false} TimesSum(k: nat, a: nat, b: nat, c: nat)
    ensures Times(k, a) + Times(k, b) + Times(k, c) == Times(k, a + b + c)
    ensures Times(a, k) + Times(b, k) + Times(c, k) == Times(a + b + c, k)
  {
  }

  lemma {:induction false} DivMod(x: nat, n: nat)
    requires n > 0
    ensures x == Times(x / n, n) + x % n && x % n < n
  {
  }

  /** `x / n` rounded down, or up when there is a remainder, stays within `d` if the quota does. */
  lemma {:induction false} OneSeat(x: nat, n: nat, d: nat, target: nat, up: bool)
    requires n > 0 && x <= Times(d, n) && target == x / n + (if up then 1 else 0)
    requires up ==> x % n > 0
    ensures Rounded(x, n, target) && target <= d
    ensures up <==> Times(target, n) > x
  {
    hide Times;
    DivMod(x, n);
    TimesNext(x / n, n);
    TimesNext(d, n);
    TimesLess(d + 1, target, n);
    TimesLess(d + 1, x / n, n);
    TimesLess(d, x / n, n);
  }

  /** The seats left after rounding down are as many as the remainders make up together. */
  lemma {:induction false} SeatsLeft(pool: Shares, size: nat) returns (left: nat)
    requires pool.Sum() > 0
    ensures left == size - Floors(pool, size).Sum() && left <= 2
    ensures Times(left, pool.Sum()) ==
            Remainder(pool, size, Easy) + Remainder(pool, size, Medium) + Remainder(pool, size, Hard)
  {
    hide Times;
    var n, f := pool.Sum(), Floors(pool, size);
    DivMod(Quota(pool, size, Easy), n);
    DivMod(Quota(pool, size, Medium), n);
    DivMod(Quota(pool, size, Hard), n);
    TimesSum(size, pool.easy, pool.medium, pool.hard);
    TimesSum(n, f.easy, f.medium, f.hard);
    var r := Remainder(pool, size, Easy) + Remainder(pool, size, Medium) + Remainder(pool, size, Hard);
    assert Times(size, n) == Times(f.Sum(), n) + r;
    left := Difference(size, f.Sum(), n, r);
  }

  lemma {:induction false} Difference(a: nat, b: nat, n: nat, r: nat) returns (left: nat)
    requires n > 0 && Times(a, n) == Times(b, n) + r && r < 3 * n
    ensures left == a - b && left <= 2 && Times(left, n) == r
  {
    if a < b {
      TimesLess(a + 1, b, n);
      TimesNext(a, n);
    }
    left := a - b;
    assert Times(a, n) == Times(b, n) + Times(left, n);
    TimesLess(3, left, n);
  }

  /** `sorted(TIERS, key=...)`, by insertion. */
  method InOrder(pool: Shares, size: nat) returns (order: seq<Tier>)
    requires pool.Sum() > 0
    ensures IsOrder(pool, size, order)
  {
    hide Remainder;
    var a, b, c := Easy, Medium, Hard;
    if Before(pool, size, b, a) { a, b := b, a; }
    if Before(pool, size, c, b) {
      b, c := c, b;
      if Before(pool, size, b, a) { a, b := b, a; }
    }
    order := [a, b, c];
  }

  /** The three tiers, by falling remainders. */
  ghost predicate IsOrder(pool: Shares, size: nat, order: seq<Tier>)
    requires pool.Sum() > 0
  {
    && |order| == 3 && order[0] != order[1] && order[1] != order[2] && order[0] != order[2]
    && Before(pool, size, order[0], order[1]) && Before(pool, size, order[1], order[2])
  }

  /** `proportional_targets`: `None` is the error that the pool is too small or lacks a tier. */
  method ProportionalTargets(pool: Shares, size: nat) returns (r: Option<Shares>)
    ensures r.None? <==> pool.Sum() < size || pool.easy == 0 || pool.medium == 0 || pool.hard == 0
    ensures r.Some? ==> Apportions(pool, size, r.value)
  {
    hide Before, Apportions, Floor;
    if pool.Sum() < size || pool.easy == 0 || pool.medium == 0 || pool.hard == 0 { return None; }
    var floors := Floors(pool, size);
    var order := InOrder(pool, size);
    ghost var left := SeatsLeft(pool, size);
    var targets := floors;
    for i := 0 to size - floors.Sum()
      invariant targets.Sum() == floors.Sum() + i
      invariant forall t :: targets.At(t) == floors.At(t) + if t in order[..i] then 1 else 0
    {
      assert order[..i + 1] == order[..i] + [order[i]];
      targets := targets.Plus(order[i]);
    }
    LargestRemainders(pool, size, order, targets, left);
    r := Some(targets);
  }

  lemma {:induction false} LargestRemainders(pool: Shares, size: nat, order: seq<Tier>, targets: Shares, left: nat)
    requires pool.Sum() > 0 && size <= pool.Sum() && IsOrder(pool, size, order)
    requires left == size - Floors(pool, size).Sum() && left <= 2
    requires Times(left, pool.Sum()) ==
             Remainder(pool, size, Easy) + Remainder(pool, size, Medium) + Remainder(pool, size, Hard)
    requires forall t :: targets.At(t) == Floors(pool, size).At(t) + if t in order[..left] then 1 else 0
    requires targets.Sum() == size
    ensures Apportions(pool, size, targets)
  {
    hide Rounded, Before, Times, Remainder, Floor;
    var n := pool.Sum();
    forall t
      ensures Rounded(Quota(pool, size, t), n, targets.At(t)) && targets.At(t) <= pool.At(t)
      ensures t in order[..left] <==> RoundedUp(pool, size, targets, t)
    {
      UpTiersHaveRemainders(pool, size, order, left, t);
      OneTarget(pool, size, t, targets.At(t), t in order[..left]);
    }
    forall a, b | RoundedUp(pool, size, targets, a) && RoundedDown(pool, size, targets, b)
      ensures Before(pool, size, a, b)
    {
      assert a in order[..left] && b !in order[..left];
      OrderDecides(pool, size, order, left, a, b);
    }
  }

  lemma {:induction false} OrderDecides(pool: Shares, size: nat, order: seq<Tier>, left: nat, a: Tier, b: Tier)
    requires pool.Sum() > 0 && IsOrder(pool, size, order) && left <= 2 && a in order[..left] && b !in order[..left]
    ensures Before(pool, size, a, b)
  {
    hide Remainder;
  }

  lemma {:induction false} UpTiersHaveRemainders(pool: Shares, size: nat, order: seq<Tier>, left: nat, t: Tier)
    requires pool.Sum() > 0 && IsOrder(pool, size, order) && left <= 2
    requires Times(left, pool.Sum()) ==
             Remainder(pool, size, Easy) + Remainder(pool, size, Medium) + Remainder(pool, size, Hard)
    ensures t in order[..left] ==> Remainder(pool, size, t) > 0
  {
    var n := pool.Sum();
    assert Times(1, n) == n && Times(2, n) == 2 * n;
    hide Times;
    RemaindersSmall(pool, size);
    hide Remainder;
  }

  lemma {:induction false} RemaindersSmall(pool: Shares, size: nat)
    requires pool.Sum() > 0
    ensures forall t :: Remainder(pool, size, t) < pool.Sum()
  {
  }

  /** One tier: rounded down, or up with a remainder. */
  lemma {:induction false} OneTarget(pool: Shares, size: nat, t: Tier, target: nat, up: bool)
    requires pool.Sum() > 0 && size <= pool.Sum()
    requires target == Floors(pool, size).At(t) + if up then 1 else 0
    requires up ==> Remainder(pool, size, t) > 0
    ensures Rounded(Quota(pool, size, t), pool.Sum(), target) && target <= pool.At(t)
    ensures up <==> Times(target, pool.Sum()) > Quota(pool, size, t)
  {
    var n, d := pool.Sum(), pool.At(t);
    TimesLess(size, n, d);
    assert Times(n, d) == Times(d, n);
    hide Times, Rounded;
    OneSeat(Quota(pool, size, t), n, d, target, up);
  }

  // ---------------------------------------------------------------- the selection loop

  datatype Candidate = Candidate(id: string, repo: string, difficulty: Tier)

  function TierPool(cs: seq<Candidate>, t: Tier): seq<Candidate> {
    if cs == [] then []
    else TierPool(cs[..|cs| - 1], t) + if cs[|cs| - 1].difficulty == t then [cs[|cs| - 1]] else []
  }

  function Distribution(cs: seq<Candidate>): Shares {
    Shares(|TierPool(cs, Easy)|, |TierPool(cs, Medium)|, |TierPool(cs, Hard)|)
  }

  function Remaining(cs: seq<Candidate>, excluded: set<string>): seq<Candidate> {
    if cs == [] then []
    else Remaining(cs[..|cs| - 1], excluded) + if cs[|cs| - 1].id in excluded then [] else [cs[|cs| - 1]]
  }

  function InRepo(cs: seq<Candidate>, repo: string): nat {
    if cs == [] then 0 else InRepo(cs[..|cs| - 1], repo) + if cs[|cs| - 1].repo == repo then 1 else 0
  }

  /** A repository may give three tenths of the tasks, rounded down, and one at least. */
  function RepoCap(size: nat): (cap: nat)
    ensures forall n: nat :: n <= cap <==> n <= 1 || 10 * n <= 3 * size
  {
    if 3 * size / 10 < 1 then 1 else 3 * size / 10
  }

  ghost predicate DistinctIds(cs: seq<Candidate>) { forall i, j | 0 <= i < j < |cs| :: cs[i].id != cs[j].id }

  ghost predicate TierOrdered(cs: seq<Candidate>) {
    forall i, j | 0 <= i < j < |cs| :: Rank(cs[i].difficulty) <= Rank(cs[j].difficulty)
  }

  /** Everything that a written selection promises. */
  ghost predicate Sound(
    cs: seq<Candidate>, excluded: set<string>, size: nat, passes: Candidate -> bool, tasks: seq<Candidate>)
  {
    && |tasks| == size && DistinctIds(tasks) && TierOrdered(tasks)
    && (forall c | c in tasks :: c in cs && c.id !in excluded && passes(c))
    && (forall repo :: InRepo(tasks, repo) <= RepoCap(size))
    && Distribution(Remaining(cs, excluded)).Sum() > 0
    && Apportions(Distribution(Remaining(cs, excluded)), size, Distribution(tasks))
  }

  lemma {:induction false} PoolMembers(cs: seq<Candidate>, t: Tier)
    ensures forall c :: c in TierPool(cs, t) <==> c in cs && c.difficulty == t
  {
    if cs != [] { PoolMembers(cs[..|cs| - 1], t); }
  }

  lemma {:induction false} RemainingMembers(cs: seq<Candidate>, excluded: set<string>)
    ensures forall c :: c in Remaining(cs, excluded) <==> c in cs && c.id !in excluded
  {
    if cs != [] { RemainingMembers(cs[..|cs| - 1], excluded); }
  }

  lemma {:induction false} PoolAppend(cs: seq<Candidate>, c: Candidate, t: Tier)
    ensures TierPool(cs + [c], t) == TierPool(cs, t) + if c.difficulty == t then [c] else []
  {
    assert (cs + [c])[..|cs|] == cs;
  }

  lemma {:induction false} RepoAppend(cs: seq<Candidate>, c: Candidate, repo: string)
    ensures InRepo(cs + [c], repo) == InRepo(cs, repo) + if c.repo == repo then 1 else 0
  {
    assert (cs + [c])[..|cs|] == cs;
  }

  function Count(repos: map<string, nat>, repo: string): nat { if repo in repos then repos[repo] else 0 }

  function IdsOf(cs: seq<Candidate>): set<string> { set c | c in cs :: c.id }

  lemma {:induction false} IdsStep(cs: seq<Candidate>)
    requires cs != []
    ensures IdsOf(cs) == IdsOf(cs[..|cs| - 1]) + {cs[|cs| - 1].id}
  {
    var front, last := cs[..|cs| - 1], cs[|cs| - 1];
    assert forall c | c in cs :: c in front || c == last;
    assert forall c | c in front :: c in cs;
    assert last in cs;
  }

  lemma {:induction false} IdIn(cs: seq<Candidate>, i: nat)
    requires i < |cs|
    ensures cs[i].id in IdsOf(cs)
  {
  }

  /** As many identities as tasks means no identity twice, and the other way round. */
  lemma {:induction false} UniqueIds(cs: seq<Candidate>)
    ensures |IdsOf(cs)| <= |cs|
    ensures |IdsOf(cs)| == |cs| <==> DistinctIds(cs)
  {
    if cs != [] {
      hide IdsOf, DistinctIds;
      var front, id := cs[..|cs| - 1], cs[|cs| - 1].id;
      IdsStep(cs);
      UniqueIds(front);
      DistinctStep(cs);
      assert id in IdsOf(front) ==> IdsOf(front) + {id} == IdsOf(front);
    }
  }

  lemma {:induction false} DistinctStep(cs: seq<Candidate>)
    requires cs != []
    ensures DistinctIds(cs) <==> DistinctIds(cs[..|cs| - 1]) && cs[|cs| - 1].id !in IdsOf(cs[..|cs| - 1])
  {
    hide IdsOf;
    var front := cs[..|cs| - 1];
    IdsStep(cs);
    forall i | 0 <= i < |front| ensures cs[i].id in IdsOf(front) { IdIn(front, i); }
    if DistinctIds(cs) { LastIdIsNew(cs); }
  }

  lemma {:induction false} LastIdIsNew(cs: seq<Candidate>)
    requires cs != [] && DistinctIds(cs)
    ensures cs[|cs| - 1].id !in IdsOf(cs[..|cs| - 1]) && DistinctIds(cs[..|cs| - 1])
  {
  }

  /** The accepted tasks so far, and the counters kept beside them. */
  ghost predicate Accepting(
    cs: seq<Candidate>, excluded: set<string>, size: nat, passes: Candidate -> bool,
    accepted: seq<Candidate>, repos: map<string, nat>)
  {
    && (forall c | c in accepted :: c in cs && c.id !in excluded && passes(c))
    && TierOrdered(accepted)
    && (forall repo :: InRepo(accepted, repo) == Count(repos, repo) <= RepoCap(size))
  }

  lemma {:induction false} AcceptOne(
    cs: seq<Candidate>, excluded: set<string>, size: nat, passes: Candidate -> bool,
    accepted: seq<Candidate>, repos: map<string, nat>, c: Candidate)
    requires Accepting(cs, excluded, size, passes, accepted, repos) && c in cs && c.id !in excluded && passes(c)
    requires forall a | a in accepted :: Rank(a.difficulty) <= Rank(c.difficulty)
    requires Count(repos, c.repo) < RepoCap(size)
    ensures Accepting(cs, excluded, size, passes, accepted + [c], repos[c.repo := Count(repos, c.repo) + 1])
  {
    var repos', all := repos[c.repo := Count(repos, c.repo) + 1], accepted + [c];
    forall repo ensures InRepo(all, repo) == Count(repos', repo) <= RepoCap(size) { RepoAppend(accepted, c, repo); }
  }

  /** A candidate that the loop passes over, or has taken. */
  predicate Used(size: nat, passes: Candidate -> bool, accepted: seq<Candidate>, c: Candidate) {
    c in accepted || !passes(c) || InRepo(accepted, c.repo) >= RepoCap(size)
  }

  /** No task of one list is also in the other. */
  ghost predicate Apart(a: seq<Candidate>, b: seq<Candidate>) { forall x, y | x in a && y in b :: x.id != y.id }

  /** `candidate_queues`: some order of a tier's candidates. */
  method Queue(cs: seq<Candidate>, t: Tier) returns (queue: seq<Candidate>)
    ensures multiset(queue) == multiset(TierPool(cs, t))
    ensures forall c :: c in queue <==> c in cs && c.difficulty == t
    ensures DistinctIds(cs) ==> DistinctIds(queue)
  {
    var pool := TierPool(cs, t);
    PoolMembers(cs, t);
    queue :| multiset(queue) == multiset(pool);
    forall c ensures c in queue <==> c in pool { assert c in queue <==> c in multiset(queue); assert c in pool <==> c in multiset(pool); }
    if DistinctIds(cs) {
      PoolDistinct(cs, t);
      UniqueIds(pool);
      assert IdsOf(queue) == IdsOf(pool);
      assert |queue| == |multiset(queue)|;
      UniqueIds(queue);
    }
  }

  lemma {:induction false} PoolDistinct(cs: seq<Candidate>, t: Tier)
    requires DistinctIds(cs)
    ensures DistinctIds(TierPool(cs, t))
  {
    if cs != [] {
      PoolDistinct(cs[..|cs| - 1], t);
      PoolMembers(cs[..|cs| - 1], t);
    }
  }

  lemma {:induction false} RemainingDistinct(cs: seq<Candidate>, excluded: set<string>)
    requires DistinctIds(cs)
    ensures DistinctIds(Remaining(cs, excluded))
  {
    if cs != [] {
      RemainingDistinct(cs[..|cs| - 1], excluded);
      RemainingMembers(cs[..|cs| - 1], excluded);
    }
  }

  /**
   One tier of the loop, for any outcomes of the preflights.  It is short of its target only when
   every candidate of the tier was taken, failed, or has its repository at the cap.
   */
  method SelectTier(
    ghost cs: seq<Candidate>, ghost excluded: set<string>, size: nat, passes: Candidate -> bool,
    queue: seq<Candidate>, tier: Tier, target: nat, accepted: seq<Candidate>, repos: map<string, nat>)
    returns (ok: bool, accepted': seq<Candidate>, repos': map<string, nat>)
    requires Accepting(cs, excluded, size, passes, accepted, repos)
    requires forall a | a in accepted :: Rank(a.difficulty) <= Rank(tier)
    requires TierPool(accepted, tier) == []
    requires forall c | c in queue :: c in cs && c.id !in excluded && c.difficulty == tier
    ensures Accepting(cs, excluded, size, passes, accepted', repos')
    ensures forall a | a in accepted' :: a in accepted || a in queue
    ensures |TierPool(accepted', tier)| <= target && (ok <==> |TierPool(accepted', tier)| == target)
    ensures forall t | t != tier :: TierPool(accepted', t) == TierPool(accepted, t)
    ensures !ok ==> forall c | c in queue :: Used(size, passes, accepted', c)
    ensures DistinctIds(accepted) && DistinctIds(queue) && Apart(accepted, queue) ==> DistinctIds(accepted')
  {
    accepted', repos' := accepted, repos;
    var tierAccepted := 0;
    for k := 0 to |queue|
      invariant Accepting(cs, excluded, size, passes, accepted', repos')
      invariant forall a | a in accepted' :: a in accepted || a in queue
      invariant tierAccepted == |TierPool(accepted', tier)| <= target
      invariant forall t | t != tier :: TierPool(accepted', t) == TierPool(accepted, t)
      invariant forall c | c in queue[..k] :: Used(size, passes, accepted', c)
      invariant DistinctIds(accepted) && DistinctIds(queue) && Apart(accepted, queue) ==>
                  DistinctIds(accepted') && Apart(accepted', queue[k..])
    {
      hide Accepting, TierPool, InRepo;
      if tierAccepted >= target { break; }
      var c := queue[k];
      assert c in queue;
      QueueStep(queue, k, accepted');
      if Count(repos', c.repo) >= RepoCap(size) {
        CountedInRepo(cs, excluded, size, passes, accepted', repos', c.repo);
        continue;
      }
      if passes(c) {
        AcceptOne(cs, excluded, size, passes, accepted', repos', c);
        forall t ensures TierPool(accepted' + [c], t) == TierPool(accepted', t) + if c.difficulty == t then [c] else [] {
          PoolAppend(accepted', c, t);
        }
        forall x | x in queue[..k] ensures Used(size, passes, accepted' + [c], x) { RepoAppend(accepted', c, x.repo); }
        repos' := repos'[c.repo := Count(repos', c.repo) + 1];
        accepted' := accepted' + [c];
        tierAccepted := tierAccepted + 1;
      }
    }
    ok := tierAccepted == target;
    assert queue[..|queue|] == queue;
  }

  lemma {:induction false} CountedInRepo(
    cs: seq<Candidate>, excluded: set<string>, size: nat, passes: Candidate -> bool,
    accepted: seq<Candidate>, repos: map<string, nat>, repo: string)
    requires Accepting(cs, excluded, size, passes, accepted, repos)
    ensures InRepo(accepted, repo) == Count(repos, repo)
  {
  }

  lemma {:induction false} QueueStep(queue: seq<Candidate>, k: nat, accepted: seq<Candidate>)
    requires k < |queue|
    ensures forall c :: c in queue[..k + 1] <==> c in queue[..k] || c == queue[k]
    ensures Apart(accepted, queue[k..]) ==> Apart(accepted, queue[k + 1..])
    ensures Apart(accepted, queue[k..]) && DistinctIds(accepted) ==> DistinctIds(accepted + [queue[k]])
    ensures Apart(accepted, queue[k..]) && DistinctIds(queue) ==> Apart(accepted + [queue[k]], queue[k + 1..])
  {
    assert queue[..k + 1] == queue[..k] + [queue[k]];
    assert queue[k..] == [queue[k]] + queue[k + 1..];
    assert queue[k] in queue[k..];
  }

  /**
   Where a run gives up on tier `t`: the earlier tiers are full, the later ones empty, `t` is short,
   and no candidate of `t` is left that could be taken.
   */
  ghost predicate Stuck(
    cs: seq<Candidate>, excluded: set<string>, size: nat, passes: Candidate -> bool,
    accepted: seq<Candidate>, repos: map<string, nat>, targets: Shares, t: Tier)
  {
    var pool := Remaining(cs, excluded);
    && Distribution(pool).Sum() > 0 && Apportions(Distribution(pool), size, targets)
    && Accepting(cs, excluded, size, passes, accepted, repos) && DistinctIds(accepted)
    && (forall u | Rank(u) < Rank(t) :: |TierPool(accepted, u)| == targets.At(u))
    && (forall u | Rank(u) > Rank(t) :: TierPool(accepted, u) == [])
    && |TierPool(accepted, t)| < targets.At(t)
    && (forall c | c in pool && c.difficulty == t :: Used(size, passes, accepted, c))
  }

  /** The exclusions are known, and the remaining pool holds enough candidates and every tier. */
  predicate Suitable(cs: seq<Candidate>, excluded: set<string>, size: nat) {
    var d := Distribution(Remaining(cs, excluded));
    excluded <= IdsOf(cs) && d.Sum() >= size && d.easy > 0 && d.medium > 0 && d.hard > 0
  }

  /** `VerifiedSelectionGenerator.run`: `None` is any of its errors. */
  method Generate(cs: seq<Candidate>, excluded: set<string>, size: nat, passes: Candidate -> bool)
    returns (r: Option<seq<Candidate>>)
    ensures r.Some? ==> Suitable(cs, excluded, size) && Sound(cs, excluded, size, passes, r.value)
    ensures r.None? ==>
              || !Suitable(cs, excluded, size) || !DistinctIds(cs)
              || exists accepted, repos, targets, t :: Stuck(cs, excluded, size, passes, accepted, repos, targets, t)
  {
    hide Accepting, TierPool, Apportions, Remaining, Sound, Stuck, DistinctIds, Used, IdsOf, Distribution, Apart;
    if !(excluded <= IdsOf(cs)) { return None; }
    var remaining := Remaining(cs, excluded);
    RemainingMembers(cs, excluded);
    if DistinctIds(cs) { RemainingDistinct(cs, excluded); }
    var targets := ProportionalTargets(Distribution(remaining), size);
    if targets.None? { return None; }
    var accepted: seq<Candidate>, repos: map<string, nat> := [], map[];
    NothingAccepted(cs, excluded, size, passes);
    for i := 0 to |TIERS|
      invariant Accepting(cs, excluded, size, passes, accepted, repos)
      invariant forall a | a in accepted :: Rank(a.difficulty) < i
      invariant forall t | Rank(t) < i :: |TierPool(accepted, t)| == targets.value.At(t)
      invariant forall t | Rank(t) >= i :: TierPool(accepted, t) == []
      invariant DistinctIds(cs) ==> DistinctIds(accepted)
    {
      var tier := TIERS[i];
      assert Rank(tier) == i;
      var queue := Queue(remaining, tier);
      if DistinctIds(cs) {
        AcceptedInPool(cs, excluded, size, passes, accepted, repos);
        OtherTiersApart(cs, accepted, queue);
      }
      var ok: bool;
      ok, accepted, repos := SelectTier(cs, excluded, size, passes, queue, tier, targets.value.At(tier), accepted, repos);
      if !ok {
        if DistinctIds(cs) { GivesUp(cs, excluded, size, passes, accepted, repos, targets.value, tier); }
        return None;
      }
    }
    AllTiersTaken(Distribution(remaining), size, targets.value, accepted);
    UniqueIds(accepted);
    if |accepted| != size || |IdsOf(accepted)| != size { return None; }
    AcceptedIsSound(cs, excluded, size, passes, accepted, repos, targets.value);
    r := Some(accepted);
  }

  lemma {:induction false} AllTiersTaken(pool: Shares, size: nat, targets: Shares, accepted: seq<Candidate>)
    requires pool.Sum() > 0 && Apportions(pool, size, targets)
    requires forall t :: |TierPool(accepted, t)| == targets.At(t)
    ensures |accepted| == size
  {
    hide TierPool;
    CountTiers(accepted);
    TargetWithinPool(pool, size, targets, Easy);
    assert |TierPool(accepted, Easy)| == targets.At(Easy) && |TierPool(accepted, Medium)| == targets.At(Medium);
  }

  lemma {:induction false} GivesUp(
    cs: seq<Candidate>, excluded: set<string>, size: nat, passes: Candidate -> bool,
    accepted: seq<Candidate>, repos: map<string, nat>, targets: Shares, t: Tier)
    requires Distribution(Remaining(cs, excluded)).Sum() > 0
    requires Apportions(Distribution(Remaining(cs, excluded)), size, targets)
    requires Accepting(cs, excluded, size, passes, accepted, repos) && DistinctIds(accepted)
    requires forall u | Rank(u) < Rank(t) :: |TierPool(accepted, u)| == targets.At(u)
    requires forall u | Rank(u) > Rank(t) :: TierPool(accepted, u) == []
    requires |TierPool(accepted, t)| < targets.At(t)
    requires forall c | c in Remaining(cs, excluded) && c.difficulty == t :: Used(size, passes, accepted, c)
    ensures Stuck(cs, excluded, size, passes, accepted, repos, targets, t)
  {
    hide Apportions, Remaining, TierPool, Accepting, DistinctIds, Used;
  }

  lemma {:induction false} AcceptedInPool(
    cs: seq<Candidate>, excluded: set<string>, size: nat, passes: Candidate -> bool,
    accepted: seq<Candidate>, repos: map<string, nat>)
    requires Accepting(cs, excluded, size, passes, accepted, repos)
    ensures forall a | a in accepted :: a in cs
  {
  }

  lemma {:induction false} OtherTiersApart(cs: seq<Candidate>, a: seq<Candidate>, b: seq<Candidate>)
    requires DistinctIds(cs) && (forall x | x in a :: x in cs) && (forall y | y in b :: y in cs)
    requires forall x, y | x in a && y in b :: x.difficulty != y.difficulty
    ensures Apart(a, b)
  {
    forall x, y | x in cs && y in cs && x.id == y.id ensures x == y {
      var i :| 0 <= i < |cs| && cs[i] == x;
      var j :| 0 <= j < |cs| && cs[j] == y;
    }
  }

  /** Every task is in one of the three tiers. */
  lemma {:induction false} CountTiers(cs: seq<Candidate>)
    ensures Distribution(cs).Sum() == |cs|
  {
    if cs != [] { CountTiers(cs[..|cs| - 1]); }
  }

  lemma {:induction false} AcceptedIsSound(
    cs: seq<Candidate>, excluded: set<string>, size: nat, passes: Candidate -> bool,
    tasks: seq<Candidate>, repos: map<string, nat>, targets: Shares)
    requires Accepting(cs, excluded, size, passes, tasks, repos) && |tasks| == size && DistinctIds(tasks)
    requires forall t :: |TierPool(tasks, t)| == targets.At(t)
    requires Distribution(Remaining(cs, excluded)).Sum() > 0
    requires Apportions(Distribution(Remaining(cs, excluded)), size, targets)
    ensures Sound(cs, excluded, size, passes, tasks)
  {
    hide Apportions, Remaining, TierPool, InRepo;
    assert Shares(targets.At(Easy), targets.At(Medium), targets.At(Hard)) == targets;
    assert Distribution(tasks) == targets;
  }

  lemma {:induction false} NothingAccepted(cs: seq<Candidate>, excluded: set<string>, size: nat, passes: Candidate -> bool)
    ensures Accepting(cs, excluded, size, passes, [], map[]) && DistinctIds([])
    ensures forall t :: TierPool([], t) == []
  {
  }

  // ---------------------------------------------------------------- when a selection is written

  function RepoIds(cs: seq<Candidate>, repo: string): set<string> { set c | c in cs && c.repo == repo :: c.id }

  lemma {:induction false} RepoStep(cs: seq<Candidate>, repo: string)
    requires cs != []
    ensures var last := cs[|cs| - 1];
            RepoIds(cs, repo) == RepoIds(cs[..|cs| - 1], repo) + if last.repo == repo then {last.id} else {}
  {
    var front, last := cs[..|cs| - 1], cs[|cs| - 1];
    assert forall c | c in cs :: c in front || c == last;
    assert forall c | c in front :: c in cs;
    assert last in cs;
  }

  lemma {:induction false} RepoCount(cs: seq<Candidate>, repo: string)
    ensures |RepoIds(cs, repo)| <= InRepo(cs, repo)
    ensures DistinctIds(cs) ==> |RepoIds(cs, repo)| == InRepo(cs, repo)
    ensures RepoIds(cs, repo) <= IdsOf(cs)
  {
    if cs != [] {
      var front, last := cs[..|cs| - 1], cs[|cs| - 1];
      RepoCount(front, repo);
      hide RepoIds, IdsOf;
      RepoStep(cs, repo);
      IdsStep(cs);
      if DistinctIds(cs) { LastIdIsNew(cs); }
    }
  }

  /** Distinct tasks out of a pool hold no more of a repository than the pool. */
  lemma {:induction false} RepoWithin(a: seq<Candidate>, b: seq<Candidate>, repo: string)
    requires DistinctIds(a) && forall c | c in a :: c in b
    ensures InRepo(a, repo) <= InRepo(b, repo)
  {
    RepoCount(a, repo);
    RepoCount(b, repo);
    SubsetSize(RepoIds(a, repo), RepoIds(b, repo));
  }

  /** In a pool within the caps where all pass, a run leaves nothing of a tier that it gives up on. */
  lemma {:induction false} UsedIsTaken(
    pool: seq<Candidate>, size: nat, passes: Candidate -> bool, accepted: seq<Candidate>, c: Candidate)
    requires DistinctIds(accepted) && DistinctIds(pool) && (forall a | a in accepted :: a in pool)
    requires c in pool && passes(c) && InRepo(pool, c.repo) <= RepoCap(size) && Used(size, passes, accepted, c)
    ensures c in accepted
  {
    if c !in accepted {
      OtherTasksApart(pool, accepted, c);
      RepoWithin(accepted + [c], pool, c.repo);
      RepoAppend(accepted, c, c.repo);
    }
  }

  lemma {:induction false} OtherTasksApart(pool: seq<Candidate>, accepted: seq<Candidate>, c: Candidate)
    requires DistinctIds(accepted) && DistinctIds(pool) && (forall a | a in accepted :: a in pool)
    requires c in pool && c !in accepted
    ensures DistinctIds(accepted + [c])
  {
    var k :| 0 <= k < |pool| && pool[k] == c;
    forall i | 0 <= i < |accepted| ensures accepted[i].id != c.id {
      assert accepted[i] in accepted;
      var j :| 0 <= j < |pool| && pool[j] == accepted[i];
    }
  }

  /** A suitable pool of distinct candidates that all pass, within the repository caps, is never refused. */
  lemma {:induction false} AmplePool(
    cs: seq<Candidate>, excluded: set<string>, size: nat, passes: Candidate -> bool,
    accepted: seq<Candidate>, repos: map<string, nat>, targets: Shares, t: Tier)
    requires Suitable(cs, excluded, size) && DistinctIds(cs)
    requires forall c | c in Remaining(cs, excluded) :: passes(c)
    requires forall repo :: InRepo(Remaining(cs, excluded), repo) <= RepoCap(size)
    ensures !Stuck(cs, excluded, size, passes, accepted, repos, targets, t)
  {
    hide Apportions, InRepo, Used;
    if Stuck(cs, excluded, size, passes, accepted, repos, targets, t) {
      var pool := Remaining(cs, excluded);
      RemainingMembers(cs, excluded);
      RemainingDistinct(cs, excluded);
      forall c | c in pool && c.difficulty == t ensures c in accepted { UsedIsTaken(pool, size, passes, accepted, c); }
      PoolWithin(pool, accepted, t);
      TargetWithinPool(Distribution(pool), size, targets, t);
      assert false;
    }
  }

  lemma {:induction false} PoolWithin(pool: seq<Candidate>, accepted: seq<Candidate>, t: Tier)
    requires DistinctIds(pool) && forall c | c in pool && c.difficulty == t :: c in accepted
    ensures |TierPool(pool, t)| <= |TierPool(accepted, t)|
  {
    PoolDistinct(pool, t);
    PoolMembers(pool, t);
    PoolMembers(accepted, t);
    UniqueIds(TierPool(pool, t));
    UniqueIds(TierPool(accepted, t));
    SubsetSize(IdsOf(TierPool(pool, t)), IdsOf(TierPool(accepted, t)));
  }

  lemma {:induction false} TargetWithinPool(pool: Shares, size: nat, targets: Shares, t: Tier)
    requires pool.Sum() > 0 && Apportions(pool, size, targets)
    ensures targets.At(t) <= pool.At(t) && targets.Sum() == size
  {
  }

  // ---------------------------------------------------------------- the reader

  /** `SWEbenchSelection.__init__`: not empty, no task twice, tiers in order. */
  predicate ReaderAccepts(tasks: seq<Candidate>) {
    && tasks != []
    && (forall i, j | 0 <= i < j < |tasks| :: tasks[i].id != tasks[j].id)
    && (forall i | 0 < i < |tasks| :: Rank(tasks[i - 1].difficulty) <= Rank(tasks[i].difficulty))
  }

  /** The reader takes every selection the generator writes, except the empty one. */
  lemma {:induction false} ReaderAgrees(
    cs: seq<Candidate>, excluded: set<string>, size: nat, passes: Candidate -> bool, tasks: seq<Candidate>)
    requires Sound(cs, excluded, size, passes, tasks)
    ensures ReaderAccepts(tasks) <==> size > 0
  {
  }

  /** A suitable pool gives an empty selection for the size zero, and the reader refuses it. */
  lemma {:induction false} ZeroIsWritten(cs: seq<Candidate>, excluded: set<string>, passes: Candidate -> bool)
    requires Suitable(cs, excluded, 0)
    ensures Sound(cs, excluded, 0, passes, []) && !ReaderAccepts([])
  {
    hide Times, Remaining, InRepo, TierPool, Distribution, Apportions, RepoCap, Shares.Sum;
    EnoughForZero(cs, excluded);
    NothingSelected();
    ZeroApportions(Distribution(Remaining(cs, excluded)));
  }

  lemma {:induction false} EnoughForZero(cs: seq<Candidate>, excluded: set<string>)
    requires Suitable(cs, excluded, 0)
    ensures Distribution(Remaining(cs, excluded)).Sum() > 0
  {
  }

  lemma {:induction false} NothingSelected()
    ensures Distribution([]) == Shares(0, 0, 0) && forall repo :: InRepo([], repo) == 0
  {
  }

  lemma {:induction false} ZeroApportions(pool: Shares)
    requires pool.Sum() > 0
    ensures Apportions(pool, 0, Shares(0, 0, 0))
  {
    hide Times, Before;
    forall n ensures Times(0, n) == 0 { TimesZero(n); }
  }

  lemma {:induction false} TimesZero(n: nat)
    ensures Times(0, n) == 0
  {
  }

  lemma {:induction false} ZeroIsWrittenExample(passes: Candidate -> bool)
    ensures var cs := [Candidate("e", "r", Easy), Candidate("m", "r", Medium), Candidate("h", "r", Hard)];
            Sound(cs, {}, 0, passes, []) && !ReaderAccepts([])
  {
    var cs := [Candidate("e", "r", Easy), Candidate("m", "r", Medium), Candidate("h", "r", Hard)];
    RemainingMembers(cs, {});
    var pool := Remaining(cs, {});
    forall t ensures TierPool(pool, t) != [] {
      PoolMembers(pool, t);
      assert cs[Rank(t)] in pool && cs[Rank(t)] in TierPool(pool, t);
    }
    ZeroIsWritten(cs, {}, passes);
  }
}
