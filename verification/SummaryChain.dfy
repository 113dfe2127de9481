/**
 Rolling summaries: which `context_condensed` events of a log form the valid chain.

 A summary names its predecessor and the events it newly covers.  The reader accepts it only
 if those are the next events of the current projection and end on an atom boundary.
 */
module SummaryChain {
  import opened Options
  import opened SessionLog
  import opened Projector

  const ALGORITHM_VERSION: int := 1

  datatype RollingSummary = RollingSummary(
    eventId: nat,
    previous: Option<nat>,
    covered: seq<nat>,
    summary: string)

  /** How a summary text is measured, and the most tokens it may have. */
  datatype SummaryRule = SummaryRule(estimate: string -> nat, maxTokens: nat)

  type Chain = map<nat, RollingSummary>

  function Ids(es: seq<Event>): (r: seq<nat>)
    ensures |r| == |es| && forall i | 0 <= i < |r| :: r[i] == es[i].id
  {
    seq(|es|, i requires 0 <= i < |es| => es[i].id)
  }

  function SourceIds(atoms: seq<Atom>): seq<nat> { Ids(Flatten(atoms)) }

  /** `n` items are exactly the items of some non-empty run of leading atoms. */
  ghost predicate OnBoundary(atoms: seq<Atom>, n: nat) {
    exists k | 1 <= k <= |atoms| :: |Flatten(atoms[..k])| == n
  }

  predicate IsSpace(c: char) {
    var n := c as int;
    || 0x09 <= n <= 0x0d || 0x1c <= n <= 0x20 || n == 0x85 || n == 0xa0 || n == 0x1680
    || 0x2000 <= n <= 0x200a || n == 0x2028 || n == 0x2029 || n == 0x202f || n == 0x205f || n == 0x3000
  }

  /** `str.strip()` */
  function Strip(s: string): string {
    if s == "" then s
    else if IsSpace(s[0]) then Strip(s[1..])
    else if IsSpace(Last(s)) then Strip(Front(s))
    else s
  }

  lemma {:induction false} StripIsStripped(s: string)
    ensures Strip(s) == "" || (!IsSpace(Strip(s)[0]) && !IsSpace(Last(Strip(s))))
    ensures Strip(Strip(s)) == Strip(s)
  {
    if s != "" {
      if IsSpace(s[0]) { StripIsStripped(s[1..]); }
      else if IsSpace(Last(s)) { StripIsStripped(Front(s)); }
    }
  }

  function CoveredBy(chain: Chain, previous: Option<nat>): seq<nat>
    requires previous.Some? ==> previous.value in chain
  {
    if previous.Some? then chain[previous.value].covered else []
  }

  predicate FollowsIn(source: seq<nat>, prior: nat, ids: seq<nat>) {
    prior + |ids| <= |source| && source[prior..prior + |ids|] == ids
  }

  /** Whether the reader accepts the record `r` on top of the summaries accepted so far. */
  ghost predicate Acceptable(chain: Chain, r: SummaryRecord, atoms: seq<Atom>, rule: SummaryRule) {
    && (r.previous.Some? ==> r.previous.value in chain)
    && r.newIds != []
    && var prior := |CoveredBy(chain, r.previous)|;
    && FollowsIn(SourceIds(atoms), prior, r.newIds)
    && OnBoundary(atoms, prior + |r.newIds|)
    && r.fromSeq == r.newIds[0]
    && r.toSeq == Last(r.newIds)
    && r.digest == Sha256(r.newIds)
    && r.coveredCount == prior + |r.newIds|
    && r.frontier == Last(r.newIds)
    && r.version == ALGORITHM_VERSION
    && Strip(r.summary) != ""
    && rule.estimate(r.summary) <= rule.maxTokens
  }

  function Accept(chain: Chain, id: nat, r: SummaryRecord): Chain
    requires r.previous.Some? ==> r.previous.value in chain
  {
    chain[id := RollingSummary(id, r.previous, CoveredBy(chain, r.previous) + r.newIds, r.summary)]
  }

  ghost function ChainOf(es: seq<Event>, atoms: seq<Atom>, rule: SummaryRule): Chain {
    if es == [] then map[]
    else
      var chain, e := ChainOf(Front(es), atoms, rule), Last(es);
      if e.body.Condensed? && Acceptable(chain, e.body.record, atoms, rule)
      then Accept(chain, e.id, e.body.record)
      else chain
  }

  /** The largest coverage, and among equals the latest event. */
  ghost predicate IsTip(chain: Chain, tip: Option<RollingSummary>) {
    match tip
    case None => chain == map[]
    case Some(s) =>
      && s.eventId in chain && chain[s.eventId] == s
      && forall k | k in chain :: Precedes(chain[k], s)
  }

  predicate Precedes(a: RollingSummary, b: RollingSummary) {
    |a.covered| < |b.covered| || (|a.covered| == |b.covered| && a.eventId <= b.eventId)
  }

  /** The frontiers at which atoms end. */
  method LegalFrontiers(atoms: seq<Atom>) returns (frontiers: set<nat>)
    ensures forall n :: n in frontiers <==> OnBoundary(atoms, n)
  {
    frontiers := {};
    var total := 0;
    for i := 0 to |atoms|
      invariant total == |Flatten(atoms[..i])|
      invariant forall n :: n in frontiers <==> exists k | 1 <= k <= i :: |Flatten(atoms[..k])| == n
    {
      assert Front(atoms[..i + 1]) == atoms[..i];
      total := total + |atoms[i].items|;
      frontiers := frontiers + {total};
    }
  }

  /** `_valid_summary_chain` */
  method ValidSummaryChain(events: seq<Event>, atoms: seq<Atom>, rule: SummaryRule) returns (valid: Chain)
    ensures valid == ChainOf(events, atoms, rule)
  {
    var sourceIds := SourceIds(atoms);
    var frontiers := LegalFrontiers(atoms);
    valid := map[];
    for i := 0 to |events|
      invariant valid == ChainOf(events[..i], atoms, rule)
    {
      assert Front(events[..i + 1]) == events[..i];
      var e := events[i];
      if !e.body.Condensed? { continue; }
      var r := e.body.record;
      if r.previous.Some? && r.previous.value !in valid { continue; }
      var prior := CoveredBy(valid, r.previous);
      if r.newIds == [] { continue; }
      if || !FollowsIn(sourceIds, |prior|, r.newIds)
         || |prior| + |r.newIds| !in frontiers
         || r.fromSeq != r.newIds[0]
         || r.toSeq != Last(r.newIds)
         || r.digest != Sha256(r.newIds)
         || r.coveredCount != |prior| + |r.newIds|
         || r.frontier != Last(r.newIds)
         || r.version != ALGORITHM_VERSION
         || Strip(r.summary) == ""
         || rule.estimate(r.summary) > rule.maxTokens
      {
        continue;
      }
      valid := valid[e.id := RollingSummary(e.id, r.previous, prior + r.newIds, r.summary)];
    }
    assert events[..|events|] == events;
  }

  /** `select_rolling_summary` */
  method SelectRollingSummary(events: seq<Event>, atoms: seq<Atom>, rule: SummaryRule)
    returns (tip: Option<RollingSummary>)
    ensures IsTip(ChainOf(events, atoms, rule), tip)
  {
    var valid := ValidSummaryChain(events, atoms, rule);
    ChainMeaning(events, atoms, rule);
    tip := None;
    var left := valid.Keys;
    while left != {}
      invariant left <= valid.Keys
      invariant tip.None? ==> left == valid.Keys
      invariant tip.Some? ==> tip.value.eventId in valid && valid[tip.value.eventId] == tip.value
      invariant tip.Some? ==> forall k | k in valid && k !in left :: Precedes(valid[k], tip.value)
      decreases |left|
    {
      var k :| k in left;
      if tip.None? || !Precedes(valid[k], tip.value) { tip := Some(valid[k]); }
      left := left - {k};
    }
  }

  lemma {:induction false} TipIsUnique(chain: Chain, a: Option<RollingSummary>, b: Option<RollingSummary>)
    requires IsTip(chain, a) && IsTip(chain, b)
    ensures a == b
  {
    if a.Some? && b.Some? {
      assert Precedes(chain[a.value.eventId], b.value);
      assert Precedes(chain[b.value.eventId], a.value);
    }
  }

  lemma {:induction false} PrefixGrows(source: seq<nat>, prior: seq<nat>, ids: seq<nat>)
    requires prior <= source && FollowsIn(source, |prior|, ids)
    ensures prior + ids == source[..|prior| + |ids|]
  {
    assert source[..|prior| + |ids|] == source[..|prior|] + source[|prior|..|prior| + |ids|];
  }

  /** Every accepted summary covers a prefix of the flattened atoms that ends on an atom boundary. */
  lemma {:induction false} ChainMeaning(es: seq<Event>, atoms: seq<Atom>, rule: SummaryRule)
    ensures forall k | k in ChainOf(es, atoms, rule) :: CoversPrefix(ChainOf(es, atoms, rule)[k], k, atoms, rule)
  {
    if es != [] {
      ChainMeaning(Front(es), atoms, rule);
      var chain, e := ChainOf(Front(es), atoms, rule), Last(es);
      if e.body.Condensed? && Acceptable(chain, e.body.record, atoms, rule) {
        var r := e.body.record;
        PrefixGrows(SourceIds(atoms), CoveredBy(chain, r.previous), r.newIds);
      }
    }
  }

  ghost predicate CoversPrefix(s: RollingSummary, k: nat, atoms: seq<Atom>, rule: SummaryRule) {
    && s.eventId == k
    && 0 < |s.covered| <= |SourceIds(atoms)|
    && s.covered == SourceIds(atoms)[..|s.covered|]
    && OnBoundary(atoms, |s.covered|)
    && Strip(s.summary) != "" && rule.estimate(s.summary) <= rule.maxTokens
  }

  lemma {:induction false} FlattenAppend(a: seq<Atom>, b: seq<Atom>)
    ensures Flatten(a + b) == Flatten(a) + Flatten(b)
  {
    if b == [] {
      assert a + b == a;
    } else {
      FlattenAppend(a, Front(b));
      assert Front(a + b) == a + Front(b);
      assert Last(a + b) == Last(b);
    }
  }

  lemma {:induction false} FlattenPrefix(a: seq<Atom>, b: seq<Atom>)
    requires a <= b
    ensures Flatten(a) <= Flatten(b)
    ensures SourceIds(a) <= SourceIds(b)
  {
    assert b == a + b[|a|..];
    FlattenAppend(a, b[|a|..]);
  }

  lemma {:induction false} AcceptableIsStable(chain: Chain, chain': Chain, r: SummaryRecord, a: seq<Atom>, b: seq<Atom>, rule: SummaryRule)
    requires a <= b && Acceptable(chain, r, a, rule)
    requires forall k | k in chain :: k in chain' && chain'[k] == chain[k]
    ensures Acceptable(chain', r, b, rule)
  {
    hide Flatten, Strip;
    FlattenPrefix(a, b);
    var prior := |CoveredBy(chain, r.previous)|;
    assert SourceIds(b)[prior..prior + |r.newIds|] == SourceIds(a)[prior..prior + |r.newIds|];
    var k :| 1 <= k <= |a| && |Flatten(a[..k])| == prior + |r.newIds|;
    assert a[..k] == b[..k];
  }

  /** A chain's entries carry the numbers of events already in the log. */
  lemma {:induction false} ChainIdsBounded(es: seq<Event>, atoms: seq<Atom>, rule: SummaryRule)
    requires Written(es)
    ensures forall k | k in ChainOf(es, atoms, rule) :: 1 <= k <= |es|
  {
    if es != [] {
      ChainIdsBounded(Front(es), atoms, rule);
      WrittenSeq(es, |es| - 1);
    }
  }

  /** With atoms that only grew, every summary accepted before is still accepted, unchanged. */
  lemma {:induction false} ChainIsStable(
    es: seq<Event>, n: nat, a: seq<Atom>, b: seq<Atom>, rule: SummaryRule)
    requires Written(es) && n <= |es| && a <= b
    ensures forall k | k in ChainOf(es[..n], a, rule) ::
              k in ChainOf(es, b, rule) && ChainOf(es, b, rule)[k] == ChainOf(es[..n], a, rule)[k]
    decreases |es|
  {
    if es != [] {
      WrittenPrefix(es, |es| - 1);
      if n < |es| {
        ChainIsStable(Front(es), n, a, b, rule);
        assert Front(es)[..n] == es[..n];
        WrittenPrefix(es, n);
        ChainIdsBounded(es[..n], a, rule);
        WrittenSeq(es, |es| - 1);
      } else {
        assert es[..n] == es;
        ChainIsStable(Front(es), n - 1, a, b, rule);
        assert Front(es)[..n - 1] == Front(es);
        var chain, chain' := ChainOf(Front(es), a, rule), ChainOf(Front(es), b, rule);
        var e := Last(es);
        ChainIdsBounded(Front(es), a, rule);
        WrittenSeq(es, |es| - 1);
        if e.body.Condensed? && Acceptable(chain, e.body.record, a, rule) {
          AcceptableIsStable(chain, chain', e.body.record, a, b, rule);
        }
      }
    }
  }

  function Coverage(tip: Option<RollingSummary>): nat {
    if tip.Some? then |tip.value.covered| else 0
  }

  /** The selected coverage never decreases as a log with no response in progress grows. */
  lemma {:induction false} CoverageNeverDecreases(
    es: seq<Event>, n: nat, rule: SummaryRule, before: Option<RollingSummary>, after: Option<RollingSummary>)
    requires Good(es) && n <= |es| && NoOpenStep(es[..n])
    requires IsTip(ChainOf(es[..n], AtomsOf(es[..n]), rule), before)
    requires IsTip(ChainOf(es, AtomsOf(es), rule), after)
    ensures Coverage(before) <= Coverage(after)
  {
    AtomsAreStable(es, n);
    ChainIsStable(es, n, AtomsOf(es[..n]), AtomsOf(es), rule);
    if before.Some? {
      assert before.value.eventId in ChainOf(es, AtomsOf(es), rule);
    }
  }

  /** The record the condenser writes for `ids` on top of `previous`. */
  function RecordFor(previous: Option<RollingSummary>, ids: seq<nat>, summary: string): SummaryRecord
    requires ids != []
  {
    SummaryRecord(
      if previous.Some? then Some(previous.value.eventId) else None,
      ids[0], Last(ids), ids, Sha256(ids),
      Coverage(previous) + |ids|, Last(ids), ALGORITHM_VERSION, summary)
  }

  /** `ids` are the next events after `previous`, up to an atom boundary. */
  ghost predicate NextRun(atoms: seq<Atom>, previous: Option<RollingSummary>, ids: seq<nat>) {
    && ids != []
    && FollowsIn(SourceIds(atoms), Coverage(previous), ids)
    && OnBoundary(atoms, Coverage(previous) + |ids|)
  }

  /**
   Writer and reader agree: a record for the run planned at `es[..n]` is accepted in the good
   log `es` however much was appended in between, and its coverage exceeds its predecessor's.
   If no summary was appended in between and the plan built on the tip, it is the new tip.
   */
  lemma {:induction false} WriterReaderAgree(
    es: seq<Event>, n: nat, previous: Option<RollingSummary>, ids: seq<nat>, summary: string, e: Event, rule: SummaryRule)
    requires Good(es) && n <= |es| && NoOpenStep(es[..n])
    requires previous.Some? ==>
               var chain := ChainOf(es[..n], AtomsOf(es[..n]), rule);
               previous.value.eventId in chain && chain[previous.value.eventId] == previous.value
    requires NextRun(AtomsOf(es[..n]), previous, ids)
    requires Strip(summary) != "" && rule.estimate(summary) <= rule.maxTokens
    requires Stamped(es, e) && e.body == Condensed(RecordFor(previous, ids, summary))
    ensures Good(es + [e])
    ensures var chain := ChainOf(es + [e], AtomsOf(es + [e]), rule);
            && e.id in chain
            && |chain[e.id].covered| == Coverage(previous) + |ids| > Coverage(previous)
            && chain[e.id].summary == summary
            && (IsTip(ChainOf(es, AtomsOf(es), rule), previous) ==> IsTip(chain, Some(chain[e.id])))
  {
    var a, b := AtomsOf(es[..n]), AtomsOf(es);
    AtomsAreStable(es, n);
    ChainIsStable(es, n, a, b, rule);
    QuietAppend(es, e);
    FrontLast(es, e);
    var before, after := ChainOf(es[..n], a, rule), ChainOf(es, b, rule);
    var r := e.body.record;
    assert Acceptable(before, r, a, rule);
    AcceptableIsStable(before, after, r, a, b, rule);
    assert ChainOf(es + [e], b, rule) == Accept(after, e.id, r);
    ChainIdsBounded(es, b, rule);
  }
}
