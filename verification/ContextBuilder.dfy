/**
 The request context: which atoms are rendered raw, which are condensed, and what must fit.

 Byte lengths of encoded messages are parameters (`Measure`); everything computed from them,
 cuts, budgets and message order, is the program's.
 */
module ContextBuilder {
  import opened Options
  import opened SessionLog
  import opened Projector
  import opened SummaryChain

  datatype Message =
    | System(text: string)
    | User(text: string)
    | Memory(summary: string)
    | Assistant(text: string, calls: seq<Call>, reasoning: Option<string>)
    | Tool(callId: string, content: string)

  datatype Caps = Caps(
    contextLimit: int, generationReserve: int, continuationReserve: int, safetyMargin: int,
    maxEvents: nat, targetEvents: nat, softTokenRatio: real, targetTokenRatio: real,
    summaryMaxTokens: nat, condenserSafetyMargin: int, minimumProgress: real)
  {
    function UsableInputBudget(): int {
      contextLimit - generationReserve - continuationReserve - safetyMargin
    }
    function CondenserUsableInputBudget(): int {
      contextLimit - summaryMaxTokens - condenserSafetyMargin
    }
  }

  /** Encoded lengths in bytes, and the token estimates of parts that this model does not render. */
  datatype Measure = Measure(
    message: Message -> nat,
    condenserItem: Event -> nat,
    condenserFixed: nat,
    condenserSummary: string -> nat,
    summaryTokens: string -> nat,
    schemaTokens: nat)

  /** `ConservativeTokenEstimator.estimate` of a value encoded in `bytes` bytes. */
  function Tokens(bytes: nat): nat { (bytes + 2) / 3 + 8 }

  function Sum(m: Measure, messages: seq<Message>): nat {
    if messages == [] then 0 else m.message(messages[0]) + Sum(m, messages[1..])
  }

  /** A JSON array: brackets, elements and the commas between them. */
  function ArrayBytes(m: Measure, messages: seq<Message>): nat {
    2 + Sum(m, messages) + if messages == [] then 0 else |messages| - 1
  }

  function Estimate(m: Measure, messages: seq<Message>): nat { Tokens(ArrayBytes(m, messages)) }

  function EstimateOrZero(m: Measure, messages: seq<Message>): nat {
    if messages == [] then 0 else Estimate(m, messages)
  }

  /** `n` is a third of `bytes`, rounded up. */
  predicate Thirds(n: int, bytes: int) { 3 * (n - 1) < bytes <= 3 * n }

  /** An estimate is within a budget exactly when the bytes are within three times what is left of it after eight. */
  lemma {:induction false} TokensMeaning(bytes: nat, budget: int)
    ensures Thirds(Tokens(bytes) - 8, bytes)
    ensures Tokens(bytes) <= budget <==> bytes <= 3 * (budget - 8)
  {
  }

  /** Elements with commas between them, without the brackets around. */
  function Joined(encode: Message -> string, messages: seq<Message>): string {
    if messages == [] then ""
    else if |messages| == 1 then encode(messages[0])
    else encode(messages[0]) + "," + Joined(encode, messages[1..])
  }

  /** `ArrayBytes` is the length of the compact JSON array, for every encoding of its elements. */
  lemma {:induction false} ArrayBytesOfJson(m: Measure, encode: Message -> string, messages: seq<Message>)
    requires forall x :: |encode(x)| == m.message(x)
    ensures ArrayBytes(m, messages) == |"[" + Joined(encode, messages) + "]"|
  {
    if |messages| > 1 {
      ArrayBytesOfJson(m, encode, messages[1..]);
    } else if |messages| == 1 {
      assert Sum(m, messages[1..]) == 0;
    }
  }

  lemma {:induction false} SumAppend(m: Measure, a: seq<Message>, b: seq<Message>)
    ensures Sum(m, a + b) == Sum(m, a) + Sum(m, b)
  {
    if a == [] {
      assert a + b == b;
    } else {
      SumAppend(m, a[1..], b);
      assert (a + b)[1..] == a[1..] + b;
    }
  }

  /** Dropping messages never raises the estimate. */
  lemma {:induction false} EstimateOfSuffix(m: Measure, a: seq<Message>, b: seq<Message>)
    ensures EstimateOrZero(m, b) <= EstimateOrZero(m, a + b)
  {
    SumAppend(m, a, b);
  }

  // ---------------------------------------------------------------- atoms in order

  ghost predicate Increasing(ids: seq<nat>) { forall i, j | 0 <= i < j < |ids| :: ids[i] < ids[j] }

  /** What the projector guarantees once no response is in progress. */
  ghost predicate WellFormed(atoms: seq<Atom>) {
    && (forall a | a in atoms ::
          && a.items != []
          && a.id == GroupId(a.items)
          && if a.items[0].body.ToolCalls? then Answers(a.items)
             else |a.items| == 1 && !IsTerminal(a.items[0].body) && a.reasoning == None)
    && Increasing(SourceIds(atoms))
  }

  lemma {:induction false} ContextIdsIncrease(es: seq<Event>)
    requires Written(es)
    ensures Increasing(Ids(ContextEvents(es)))
    ensures forall e | e in ContextEvents(es) :: e.id <= |es| && e in es
  {
    if es != [] {
      WrittenPrefix(es, |es| - 1);
      ContextIdsIncrease(Front(es));
      WrittenSeq(es, |es| - 1);
      if InContext(Last(es).body) {
        var ids := Ids(ContextEvents(Front(es)));
        assert Ids(ContextEvents(es)) == ids + [Last(es).id];
        forall i | 0 <= i < |ids| ensures ids[i] < Last(es).id {
          assert ContextEvents(Front(es))[i] in ContextEvents(Front(es));
        }
      }
    }
  }

  lemma {:induction false} ProjectedAtomsAreWellFormed(es: seq<Event>)
    requires Good(es) && NoOpenStep(es)
    ensures WellFormed(AtomsOf(es))
  {
    CallAtomsAnswer(es);
    FlattenIsContiguous(es);
    ContextIdsIncrease(es);
    AtomsAreGroups(es);
  }

  function Offset(atoms: seq<Atom>, i: nat): nat
    requires i <= |atoms|
  {
    |Flatten(atoms[..i])|
  }

  lemma {:induction false} OffsetStep(atoms: seq<Atom>, i: nat)
    requires i < |atoms|
    ensures Offset(atoms, i + 1) == Offset(atoms, i) + |atoms[i].items|
  {
    assert Front(atoms[..i + 1]) == atoms[..i];
  }

  lemma {:induction false} OffsetMonotone(atoms: seq<Atom>, i: nat, j: nat)
    requires i <= j <= |atoms|
    ensures Offset(atoms, i) <= Offset(atoms, j) <= |Flatten(atoms)|
    ensures i < j && (forall a | a in atoms :: a.items != []) ==> Offset(atoms, i) < Offset(atoms, j)
    decreases j - i
  {
    FlattenPrefix(atoms[..j], atoms);
    if i < j {
      OffsetStep(atoms, j - 1);
      OffsetMonotone(atoms, i, j - 1);
      assert atoms[j - 1] in atoms;
    }
  }

  lemma {:induction false} ItemAt(atoms: seq<Atom>, i: nat, k: nat)
    requires i < |atoms| && k < |atoms[i].items|
    ensures Offset(atoms, i) + k < |Flatten(atoms)|
    ensures Flatten(atoms)[Offset(atoms, i) + k] == atoms[i].items[k]
    ensures SourceIds(atoms)[Offset(atoms, i) + k] == atoms[i].items[k].id
  {
    OffsetStep(atoms, i);
    FlattenPrefix(atoms[..i + 1], atoms);
    assert Flatten(atoms[..i + 1]) == Flatten(atoms[..i]) + atoms[i].items by {
      assert Front(atoms[..i + 1]) == atoms[..i];
    }
  }

  /** Items of earlier atoms come earlier in the log. */
  lemma {:induction false} ItemsInOrder(atoms: seq<Atom>, i: nat, k: nat, j: nat, l: nat)
    requires WellFormed(atoms) && i < j < |atoms| && k < |atoms[i].items| && l < |atoms[j].items|
    ensures atoms[i].items[k].id < atoms[j].items[l].id
  {
    ItemAt(atoms, i, k);
    ItemAt(atoms, j, l);
    OffsetStep(atoms, i);
    OffsetMonotone(atoms, i + 1, j);
  }

  predicate HoldsId(a: Atom, id: nat) { exists i | 0 <= i < |a.items| :: a.items[i].id == id }

  /** The position of the latest user message among the atoms. */
  ghost predicate AnchorAt(atoms: seq<Atom>, anchor: Event, i: nat) {
    && i < |atoms| && atoms[i].items == [anchor] && anchor.body.UserMessage?
    && forall j | i < j < |atoms| && atoms[j].items != [] :: !atoms[j].items[0].body.UserMessage?
  }

  /** The index of the last atom that is a user message; 0 when there is none. */
  function AnchorIndex(atoms: seq<Atom>): (r: nat)
    ensures atoms != [] ==> r < |atoms|
    ensures atoms == [] ==> r == 0
  {
    if atoms == [] then 0
    else if Last(atoms).items != [] && Last(atoms).items[0].body.UserMessage? then |atoms| - 1
    else AnchorIndex(Front(atoms))
  }

  lemma {:induction false} AnchorIndexIsLast(atoms: seq<Atom>, anchor: Event, i: nat)
    requires AnchorAt(atoms, anchor, i)
    ensures AnchorIndex(atoms) == i
  {
    if i < |atoms| - 1 { AnchorIndexIsLast(Front(atoms), anchor, i); }
  }

  /** `next(item for item in reversed(items) if item is a user message)` */
  method FindAnchor(atoms: seq<Atom>) returns (anchor: Option<Event>)
    requires WellFormed(atoms)
    ensures anchor.Some? ==> AnchorAt(atoms, anchor.value, AnchorIndex(atoms))
    ensures anchor.None? ==> forall a | a in atoms :: !a.items[0].body.UserMessage?
  {
    var items := Flatten(atoms);
    var n := |items|;
    while n > 0 && !items[n - 1].body.UserMessage?
      invariant 0 <= n <= |items|
      invariant forall i | n <= i < |items| :: !items[i].body.UserMessage?
    {
      n := n - 1;
    }
    if n == 0 {
      forall a | a in atoms ensures !a.items[0].body.UserMessage? {
        var i :| 0 <= i < |atoms| && atoms[i] == a;
        ItemAt(atoms, i, 0);
      }
      return None;
    }
    anchor := Some(items[n - 1]);
    ghost var i, k := LocateItem(atoms, n - 1);
    assert atoms[i] in atoms;
    forall j | i < j < |atoms| ensures !atoms[j].items[0].body.UserMessage? {
      assert atoms[j] in atoms;
      ItemAt(atoms, j, 0);
      OffsetStep(atoms, i);
      OffsetMonotone(atoms, i + 1, j);
    }
    AnchorIndexIsLast(atoms, anchor.value, i);
  }

  lemma {:induction false} LocateItem(atoms: seq<Atom>, n: nat) returns (i: nat, k: nat)
    requires n < |Flatten(atoms)|
    ensures i < |atoms| && k < |atoms[i].items| && n == Offset(atoms, i) + k
    ensures atoms[i].items[k] == Flatten(atoms)[n]
    decreases |atoms|
  {
    var front := Front(atoms);
    if n < |Flatten(front)| {
      i, k := LocateItem(front, n);
      assert front[..i] == atoms[..i];
    } else {
      i, k := |atoms| - 1, n - |Flatten(front)|;
      assert atoms[..i] == front;
    }
  }

  lemma {:induction false} OnlyAnchorHoldsItsId(atoms: seq<Atom>, anchor: Event, at: nat, i: nat)
    requires WellFormed(atoms) && AnchorAt(atoms, anchor, at) && i < |atoms|
    ensures HoldsId(atoms[i], anchor.id) <==> i == at
    ensures atoms[i].items != [] && (Last(atoms[i].items).id < anchor.id <==> i < at)
  {
    assert atoms[i] in atoms;
    var items := atoms[i].items;
    if i == at {
      assert items[0].id == anchor.id;
    } else {
      forall k | 0 <= k < |items| ensures if i < at then items[k].id < anchor.id else items[k].id > anchor.id {
        if i < at { ItemsInOrder(atoms, i, k, at, 0); } else { ItemsInOrder(atoms, at, 0, i, k); }
      }
    }
  }

  // ---------------------------------------------------------------- rendering

  function ToolMessages(items: seq<Event>): (r: seq<Message>)
    ensures |r| == |items|
    ensures forall i | 0 <= i < |r| && IsTerminal(items[i].body) :: r[i] == Tool(items[i].body.callId, items[i].body.content)
  {
    seq(|items|, i requires 0 <= i < |items| =>
      if IsTerminal(items[i].body) then Tool(items[i].body.callId, items[i].body.content) else Tool("", ""))
  }

  function TextOf(b: Body): string {
    match b
    case AssistantMessage(text, _) => text
    case TurnTerminated(text) => text
    case _ => ""
  }

  function RenderAtom(a: Atom, includeReasoning: bool): seq<Message>
    requires a.items != []
  {
    var first := a.items[0].body;
    if first.UserMessage? then [User(first.text)]
    else if first.ToolCalls? then
      [Assistant(first.text, first.calls, if includeReasoning then a.reasoning else None)]
      + ToolMessages(a.items[1..])
    else [Assistant(TextOf(first), [], None)]
  }

  function MessageCount(a: Atom): nat
    requires a.items != []
  {
    if a.items[0].body.ToolCalls? then |a.items| else 1
  }

  function Piece(a: Atom, anchor: Option<Event>, mandatory: Option<AtomId>): seq<Message>
    requires a.items != []
  {
    if anchor.Some? && HoldsId(a, anchor.value.id) then []
    else RenderAtom(a, mandatory == Some(a.id))
  }

  ghost predicate NonEmpty(atoms: seq<Atom>) { forall i | 0 <= i < |atoms| :: atoms[i].items != [] }

  function RenderHistory(atoms: seq<Atom>, anchor: Option<Event>, mandatory: Option<AtomId>): seq<Message>
    requires NonEmpty(atoms)
  {
    if atoms == [] then []
    else Piece(atoms[0], anchor, mandatory) + RenderHistory(atoms[1..], anchor, mandatory)
  }

  lemma {:induction false} RenderAppend(a: seq<Atom>, b: seq<Atom>, anchor: Option<Event>, mandatory: Option<AtomId>)
    requires NonEmpty(a) && NonEmpty(b)
    ensures NonEmpty(a + b)
    ensures RenderHistory(a + b, anchor, mandatory) ==
            RenderHistory(a, anchor, mandatory) + RenderHistory(b, anchor, mandatory)
  {
    hide Piece;
    if a == [] {
      assert a + b == b;
    } else {
      RenderAppend(a[1..], b, anchor, mandatory);
      assert (a + b)[0] == a[0] && (a + b)[1..] == a[1..] + b;
    }
  }

  /**
   The context as it should read: every raw atom rendered in log order, the latest user
   message in its own place.
   */
  function RenderInOrder(atoms: seq<Atom>, mandatory: Option<AtomId>): seq<Message>
    requires NonEmpty(atoms)
  {
    if atoms == [] then []
    else RenderAtom(atoms[0], mandatory == Some(atoms[0].id)) + RenderInOrder(atoms[1..], mandatory)
  }

  lemma {:induction false} RenderWithoutAnchor(atoms: seq<Atom>, anchor: Option<Event>, mandatory: Option<AtomId>)
    requires NonEmpty(atoms)
    requires anchor.Some? ==> forall i | 0 <= i < |atoms| :: !HoldsId(atoms[i], anchor.value.id)
    ensures RenderHistory(atoms, anchor, mandatory) == RenderInOrder(atoms, mandatory)
  {
    if atoms != [] {
      assert forall i | 0 <= i < |atoms[1..]| :: atoms[1..][i] == atoms[i + 1];
      RenderWithoutAnchor(atoms[1..], anchor, mandatory);
    }
  }

  lemma {:induction false} RenderLast(atoms: seq<Atom>, i: nat, anchor: Option<Event>, mandatory: Option<AtomId>)
    requires NonEmpty(atoms) && i < |atoms|
    ensures RenderHistory(atoms[..i + 1], anchor, mandatory) ==
            RenderHistory(atoms[..i], anchor, mandatory) + Piece(atoms[i], anchor, mandatory)
  {
    hide Piece;
    RenderAppend(atoms[..i], [atoms[i]], anchor, mandatory);
    assert atoms[..i + 1] == atoms[..i] + [atoms[i]];
  }

  /** `_split_history`: the number of messages that come before the anchor. */
  method PreCount(atoms: seq<Atom>, anchor: Event, ghost mandatory: Option<AtomId>, ghost cut: nat)
    returns (count: nat)
    requires NonEmpty(atoms) && cut <= |atoms|
    requires forall i | 0 <= i < |atoms| :: |RenderAtom(atoms[i], mandatory == Some(atoms[i].id))| == MessageCount(atoms[i])
    requires forall i | 0 <= i < cut :: Last(atoms[i].items).id < anchor.id && !HoldsId(atoms[i], anchor.id)
    requires forall i | cut <= i < |atoms| :: Last(atoms[i].items).id >= anchor.id
    ensures count == |RenderHistory(atoms[..cut], Some(anchor), mandatory)|
  {
    hide RenderAtom, MessageCount, HoldsId;
    count := 0;
    for i := 0 to |atoms|
      invariant count == |RenderHistory(atoms[..if i < cut then i else cut], Some(anchor), mandatory)|
    {
      hide RenderHistory;
      if i < cut { RenderLast(atoms, i, Some(anchor), mandatory); }
      if HoldsId(atoms[i], anchor.id) { continue; }
      if Last(atoms[i].items).id < anchor.id {
        count := count + MessageCount(atoms[i]);
      }
    }
  }

  lemma {:induction false} MessageCountIsRight(a: Atom, includeReasoning: bool)
    requires a.items != []
    ensures |RenderAtom(a, includeReasoning)| == MessageCount(a)
  {
  }

  lemma {:induction false} RenderedCalls(a: Atom, includeReasoning: bool)
    requires Answers(a.items)
    ensures var ms := RenderAtom(a, includeReasoning);
            && |ms| == |a.items| && ms[0].Assistant? && ms[0].calls == a.items[0].body.calls
            && forall i | 1 <= i < |ms| :: ms[i] == Tool(a.items[i].body.callId, a.items[i].body.content)
  {
    var ms := RenderAtom(a, includeReasoning);
    forall i | 1 <= i < |ms| ensures ms[i] == Tool(a.items[i].body.callId, a.items[i].body.content) {
      assert a.items[1..][i - 1] == a.items[i];
    }
  }

  /** A rendered call atom: the assistant message, then one tool message for each of its calls. */
  lemma {:induction false} CallsAnsweredInPlace(a: Atom, includeReasoning: bool)
    requires Answers(a.items)
    ensures var ms := RenderAtom(a, includeReasoning);
            && ms[0].Assistant? && ms[0].calls == a.items[0].body.calls
            && |ms| == 1 + |ms[0].calls|
            && (forall i | 1 <= i < |ms| :: ms[i].Tool? && ms[i].callId == a.items[i].body.callId)
            && (forall c | c in CallIds(ms[0].calls) :: exists i | 1 <= i < |ms| :: ms[i].callId == c)
            && (forall i, j | 1 <= i < j < |ms| :: ms[i].callId != ms[j].callId)
  {
    RenderedCalls(a, includeReasoning);
    hide RenderAtom;
    var ms := RenderAtom(a, includeReasoning);
    forall c | c in CallIds(ms[0].calls) ensures exists i | 1 <= i < |ms| :: ms[i].callId == c {
      var i :| 1 <= i < |a.items| && a.items[i].body.callId == c;
      assert ms[i].callId == c;
    }
  }

  /** What a rendered message or a log event says, without ids and reasoning. */
  datatype Line = Asked(text: string) | Replied(text: string, calls: seq<Call>) | Returned(callId: string, content: string) | Silent

  function MessageLine(message: Message): Line {
    match message
    case User(text) => Asked(text)
    case Assistant(text, calls, _) => Replied(text, calls)
    case Tool(callId, content) => Returned(callId, content)
    case System(_) => Silent
    case Memory(_) => Silent
  }

  function EventLine(e: Event): Line {
    match e.body
    case UserMessage(text, _) => Asked(text)
    case ToolCalls(text, _, calls) => Replied(text, calls)
    case ToolResult(callId, content) => Returned(callId, content)
    case ToolDenied(callId, content) => Returned(callId, content)
    case AssistantMessage(text, _) => Replied(text, [])
    case TurnTerminated(text) => Replied(text, [])
    case _ => Silent
  }

  function MessageLines(messages: seq<Message>): (r: seq<Line>)
    ensures |r| == |messages| && forall i | 0 <= i < |r| :: r[i] == MessageLine(messages[i])
  {
    seq(|messages|, i requires 0 <= i < |messages| => MessageLine(messages[i]))
  }

  function EventLines(events: seq<Event>): (r: seq<Line>)
    ensures |r| == |events| && forall i | 0 <= i < |r| :: r[i] == EventLine(events[i])
  {
    seq(|events|, i requires 0 <= i < |events| => EventLine(events[i]))
  }

  ghost predicate OneAtom(a: Atom) {
    && a.items != [] && InContext(a.items[0].body)
    && if a.items[0].body.ToolCalls? then Answers(a.items) else |a.items| == 1 && !IsTerminal(a.items[0].body)
  }

  /** A rendered atom says what its events say, in their order. */
  lemma {:induction false} AtomReads(a: Atom, includeReasoning: bool)
    requires OneAtom(a)
    ensures MessageLines(RenderAtom(a, includeReasoning)) == EventLines(a.items)
  {
    if a.items[0].body.ToolCalls? { RenderedCalls(a, includeReasoning); }
  }

  lemma {:induction false} AtomsRead(atoms: seq<Atom>, mandatory: Option<AtomId>)
    requires forall a | a in atoms :: OneAtom(a)
    ensures NonEmpty(atoms)
    ensures MessageLines(RenderInOrder(atoms, mandatory)) == EventLines(Flatten(atoms))
  {
    hide RenderAtom, OneAtom, MessageLine, EventLine;
    assert forall i | 0 <= i < |atoms| :: atoms[i] in atoms;
    AtomsHaveItems(atoms);
    if atoms != [] {
      AtomsRead(atoms[1..], mandatory);
      AtomReads(atoms[0], mandatory == Some(atoms[0].id));
      assert atoms == [atoms[0]] + atoms[1..];
      FlattenAppend([atoms[0]], atoms[1..]);
      FlattenOne(atoms[0]);
    }
  }

  lemma {:induction false} AtomsHaveItems(atoms: seq<Atom>)
    requires forall a | a in atoms :: OneAtom(a)
    ensures NonEmpty(atoms)
  {
    assert forall i | 0 <= i < |atoms| :: atoms[i] in atoms;
  }

  lemma {:induction false} FlattenOne(a: Atom)
    ensures Flatten([a]) == a.items
  {
    assert Front([a]) == [];
  }

  // ---------------------------------------------------------------- the view of a log

  predicate IsCandidate(a: Atom, turn: Option<nat>)
    requires a.items != []
  {
    a.items[0].turn == turn && a.items[0].body.ToolCalls?
  }

  function LastCandidate(atoms: seq<Atom>, turn: Option<nat>): (r: Option<nat>)
    requires NonEmpty(atoms)
    ensures r.Some? ==> r.value < |atoms| && IsCandidate(atoms[r.value], turn)
    ensures forall i | (if r.Some? then r.value + 1 else 0) <= i < |atoms| :: !IsCandidate(atoms[i], turn)
  {
    if atoms == [] then None
    else if IsCandidate(Last(atoms), turn) then Some(|atoms| - 1)
    else LastCandidate(Front(atoms), turn)
  }

  /** `_mandatory_atom`: the turn's latest call atom, if the model attached reasoning to it. */
  function MandatoryIndex(atoms: seq<Atom>, anchor: Option<Event>): (r: Option<nat>)
    requires NonEmpty(atoms)
    ensures r.Some? ==> r.value < |atoms| && atoms[r.value].reasoning.Some?
    ensures forall i | anchor.Some? && 0 <= i < |atoms| && IsCandidate(atoms[i], anchor.value.turn)
                       && (forall j | i < j < |atoms| :: !IsCandidate(atoms[j], anchor.value.turn)) ::
              r == if atoms[i].reasoning.Some? then Some(i) else None
  {
    if anchor.None? then None
    else
      var latest := LastCandidate(atoms, anchor.value.turn);
      if latest.Some? && atoms[latest.value].reasoning.Some? then latest else None
  }

  /** A summary that covers the mandatory atom is not used. */
  function UsedSummary(tip: Option<RollingSummary>, atoms: seq<Atom>, mandatory: Option<nat>): Option<RollingSummary>
    requires mandatory.Some? ==> mandatory.value < |atoms|
  {
    if tip.Some? && mandatory.Some? && |tip.value.covered| > Offset(atoms, mandatory.value) then None else tip
  }

  datatype View = View(
    atoms: seq<Atom>, anchor: Option<Event>, at: nat, mandatory: Option<nat>,
    tip: Option<RollingSummary>, summary: Option<RollingSummary>, from: nat)

  /** Every part of the view is what the log determines. */
  ghost predicate IsView(v: View, es: seq<Event>, rule: SummaryRule) {
    && v.atoms == AtomsOf(es) && WellFormed(v.atoms) && NonEmpty(v.atoms)
    && (v.anchor.Some? ==> AnchorAt(v.atoms, v.anchor.value, v.at))
    && (v.anchor.None? ==> forall a | a in v.atoms :: a.items != [] && !a.items[0].body.UserMessage?)
    && v.mandatory == MandatoryIndex(v.atoms, v.anchor)
    && IsTip(ChainOf(es, v.atoms, rule), v.tip)
    && v.summary == UsedSummary(v.tip, v.atoms, v.mandatory)
    && v.from <= |v.atoms| && Offset(v.atoms, v.from) == Coverage(v.summary)
  }

  function Uncovered(v: View): seq<Atom>
    requires v.from <= |v.atoms|
  {
    v.atoms[v.from..]
  }

  function MandatoryId(v: View): Option<AtomId>
    requires v.mandatory.Some? ==> v.mandatory.value < |v.atoms|
  {
    if v.mandatory.Some? then Some(v.atoms[v.mandatory.value].id) else None
  }

  /** The raw atoms before and after the latest user message, by position. */
  function Before(v: View): seq<Atom>
    requires v.from <= |v.atoms| && (v.anchor.Some? ==> v.at < |v.atoms|)
  {
    if v.anchor.None? then Uncovered(v) else if v.at < v.from then [] else v.atoms[v.from..v.at]
  }

  function After(v: View): seq<Atom>
    requires v.from <= |v.atoms| && (v.anchor.Some? ==> v.at < |v.atoms|)
  {
    if v.anchor.None? then [] else if v.at < v.from then Uncovered(v) else v.atoms[v.at + 1..]
  }

  function MemoryMessages(s: Option<RollingSummary>): seq<Message> {
    if s.Some? then [Memory(s.value.summary)] else []
  }

  function AnchorMessage(anchor: Option<Event>): seq<Message> {
    if anchor.Some? && anchor.value.body.UserMessage? then [User(anchor.value.body.text)] else []
  }

  /** The request as it should read. */
  ghost function Request(v: View, instructions: seq<Message>, transient: seq<Message>): seq<Message>
    requires v.from <= |v.atoms| && NonEmpty(v.atoms)
    requires v.anchor.Some? ==> v.at < |v.atoms|
    requires v.mandatory.Some? ==> v.mandatory.value < |v.atoms|
  {
    instructions + MemoryMessages(v.summary)
    + RenderInOrder(Before(v), MandatoryId(v)) + AnchorMessage(v.anchor) + RenderInOrder(After(v), MandatoryId(v))
    + transient
  }

  /** The partial answer of a truncated latest response is replayed after the history. */
  function LatestStep(es: seq<Event>, turn: Option<nat>): Option<Event> {
    if es == [] then None
    else if Last(es).turn == turn && IsStep(Last(es).body) then Some(Last(es))
    else LatestStep(Front(es), turn)
  }

  function TruncationPartial(es: seq<Event>, anchor: Option<Event>): seq<Message> {
    if anchor.None? then []
    else
      var latest := LatestStep(es, anchor.value.turn);
      if latest.Some? && latest.value.body.OutputTruncated?
      then [Assistant(latest.value.body.text, [], latest.value.body.reasoning)] else []
  }

  /** `es[i]` is a truncated response, and the turn has none after it. */
  ghost predicate TruncatedLast(es: seq<Event>, turn: Option<nat>, i: nat) {
    && i < |es| && es[i].turn == turn && es[i].body.OutputTruncated?
    && forall j | i < j < |es| && es[j].turn == turn :: !IsStep(es[j].body)
  }

  /** A partial answer is replayed exactly when the turn's latest response was truncated, and it is that one's text. */
  lemma {:induction false} PartialMeaning(es: seq<Event>, anchor: Option<Event>)
    ensures TruncationPartial(es, anchor) != [] ==> anchor.Some? && exists i :: TruncatedLast(es, anchor.value.turn, i)
    ensures anchor.Some? ==> forall i: nat | TruncatedLast(es, anchor.value.turn, i) ::
              TruncationPartial(es, anchor) == [Assistant(es[i].body.text, [], es[i].body.reasoning)]
  {
    if anchor.Some? && es != [] && !(Last(es).turn == anchor.value.turn && IsStep(Last(es).body)) {
      var front, turn := Front(es), anchor.value.turn;
      PartialMeaning(front, anchor);
      if i :| TruncatedLast(front, turn, i) { assert TruncatedLast(es, turn, i); }
      forall i: nat | TruncatedLast(es, turn, i) ensures TruncatedLast(front, turn, i) && front[i] == es[i] {
        assert i != |es| - 1;
      }
    } else if anchor.Some? && es != [] {
      var turn := anchor.value.turn;
      if Last(es).body.OutputTruncated? { assert TruncatedLast(es, turn, |es| - 1); }
      assert forall i: nat | TruncatedLast(es, turn, i) && i < |es| - 1 :: !IsStep(Last(es).body);
    }
  }

  /** `_atoms_after_coverage`, as the index of the first uncovered atom. */
  method AtomsAfterCoverage(atoms: seq<Atom>, covered: nat) returns (from: nat)
    requires NonEmpty(atoms)
    ensures from <= |atoms|
    ensures covered == 0 || OnBoundary(atoms, covered) ==> Offset(atoms, from) == covered
  {
    var consumed := 0;
    for i := 0 to |atoms|
      invariant consumed == Offset(atoms, i)
      invariant i > 0 ==> consumed < covered
    {
      OffsetStep(atoms, i);
      consumed := consumed + |atoms[i].items|;
      if consumed == covered { return i + 1; }
      if consumed > covered {
        if OnBoundary(atoms, covered) {
          var k :| 1 <= k <= |atoms| && |Flatten(atoms[..k])| == covered;
          if k <= i { OffsetMonotone(atoms, k, i); } else { OffsetMonotone(atoms, i + 1, k); }
        }
        return 0;
      }
    }
    if covered != 0 && OnBoundary(atoms, covered) {
      var k :| 1 <= k <= |atoms| && |Flatten(atoms[..k])| == covered;
      OffsetMonotone(atoms, k, |atoms|);
    }
    return if covered != 0 then |atoms| else 0;
  }

  method ViewOf(events: seq<Event>, rule: SummaryRule) returns (v: Option<View>)
    requires Written(events) && Started(events)
    ensures v.Some? <==> Accepted(events) && AllClosed(AtomsOf(events))
    ensures v.Some? ==> Good(events) && NoOpenStep(events) && IsView(v.value, events, rule)
  {
    var projection := ProjectContextEvents(events);
    if projection.Rejected? { return None; }
    var atoms := projection.atoms;
    if exists a | a in atoms :: !a.closed { return None; }
    AllClosedMeaning(events);
    ProjectedAtomsAreWellFormed(events);
    assert forall i | 0 <= i < |atoms| :: atoms[i] in atoms;
    var anchor := FindAnchor(atoms);
    var mandatory := MandatoryIndex(atoms, anchor);
    var tip := SelectRollingSummary(events, atoms, rule);
    ChainMeaning(events, atoms, rule);
    var summary := UsedSummary(tip, atoms, mandatory);
    var from := AtomsAfterCoverage(atoms, Coverage(summary));
    return Some(View(atoms, anchor, AnchorIndex(atoms), mandatory, tip, summary, from));
  }

  // ---------------------------------------------------------------- cuts

  /** What a condensation must achieve on the uncovered atoms. */
  datatype Goals = Goals(
    uncovered: seq<Atom>, anchor: Option<Event>, mandatory: Option<AtomId>, eligible: nat,
    need: nat, reserve: nat, target: nat, byEvents: bool, byTokens: bool)

  ghost predicate GoalsOk(g: Goals) { NonEmpty(g.uncovered) && g.eligible <= |g.uncovered| }

  function ProjectedTokens(m: Measure, g: Goals, k: nat): nat
    requires NonEmpty(g.uncovered) && k <= |g.uncovered|
  {
    g.reserve + EstimateOrZero(m, RenderHistory(g.uncovered[k..], g.anchor, g.mandatory))
  }

  ghost predicate Meets(m: Measure, g: Goals, k: nat)
    requires GoalsOk(g) && k <= g.eligible
  {
    && (g.byEvents ==> Offset(g.uncovered, k) >= g.need)
    && (g.byTokens ==> ProjectedTokens(m, g, k) <= g.target)
  }

  /** The least cut that meets every triggered goal, or all eligible atoms when none does. */
  ghost predicate IsDesiredCut(m: Measure, g: Goals, cut: nat)
    requires GoalsOk(g)
  {
    && cut <= g.eligible
    && (forall k | 1 <= k < cut :: !Meets(m, g, k))
    && (if exists k | 1 <= k <= g.eligible :: Meets(m, g, k) then cut >= 1 && Meets(m, g, cut) else cut == g.eligible)
  }

  /** A longer cut leaves less history. */
  lemma {:induction false} ProjectedTokensFall(m: Measure, g: Goals, j: nat, k: nat)
    requires GoalsOk(g) && j <= k <= |g.uncovered|
    ensures ProjectedTokens(m, g, k) <= ProjectedTokens(m, g, j)
    decreases k - j
  {
    if j < k {
      ProjectedTokensFall(m, g, j + 1, k);
      var rest := g.uncovered[j + 1..];
      assert g.uncovered[j..][1..] == rest;
      EstimateOfSuffix(m, Piece(g.uncovered[j], g.anchor, g.mandatory), RenderHistory(rest, g.anchor, g.mandatory));
    }
  }

  /** `_desired_atom_count` */
  method DesiredAtomCount(m: Measure, g: Goals) returns (cut: nat)
    requires GoalsOk(g) && (g.byEvents || g.byTokens)
    ensures IsDesiredCut(m, g, cut)
  {
    hide RenderHistory, IsDesiredCut;
    var eventCut := 0;
    if g.byEvents {
      var covered := 0;
      eventCut := g.eligible;
      var index := 1;
      while index <= g.eligible
        invariant 1 <= index <= g.eligible + 1 && eventCut == g.eligible
        invariant covered == Offset(g.uncovered, index - 1)
        invariant forall k | 1 <= k < index :: Offset(g.uncovered, k) < g.need
      {
        OffsetStep(g.uncovered, index - 1);
        covered := covered + |g.uncovered[index - 1].items|;
        if covered >= g.need { eventCut := index; break; }
        index := index + 1;
      }
    }
    var tokenCut := 0;
    if g.byTokens {
      tokenCut := g.eligible;
      var index := 1;
      while index <= g.eligible
        invariant 1 <= index <= g.eligible + 1 && tokenCut == g.eligible
        invariant forall k | 1 <= k < index :: ProjectedTokens(m, g, k) > g.target
      {
        var remaining := RenderHistory(g.uncovered[index..], g.anchor, g.mandatory);
        var projected := g.reserve + if remaining == [] then 0 else Estimate(m, remaining);
        if projected <= g.target { tokenCut := index; break; }
        index := index + 1;
      }
    }
    cut := if eventCut > tokenCut then eventCut else tokenCut;
    LaterOfTwoCuts(m, g, eventCut, tokenCut);
  }

  /** One goal's first cut: nothing shorter reaches it, and it does unless nothing does. */
  ghost predicate FirstByEvents(g: Goals, cut: nat)
    requires GoalsOk(g)
  {
    && cut <= g.eligible
    && (g.byEvents ==>
          && (forall k | 1 <= k < cut :: Offset(g.uncovered, k) < g.need)
          && (cut == g.eligible || (cut >= 1 && Offset(g.uncovered, cut) >= g.need)))
    && (!g.byEvents ==> cut == 0)
  }

  ghost predicate FirstByTokens(m: Measure, g: Goals, cut: nat)
    requires GoalsOk(g)
  {
    && cut <= g.eligible
    && (g.byTokens ==>
          && (forall k | 1 <= k < cut :: ProjectedTokens(m, g, k) > g.target)
          && (cut == g.eligible || (cut >= 1 && ProjectedTokens(m, g, cut) <= g.target)))
    && (!g.byTokens ==> cut == 0)
  }

  /** Both goals are monotone, so the later of their first cuts is the first to meet both. */
  lemma {:induction false} LaterOfTwoCuts(m: Measure, g: Goals, a: nat, b: nat)
    requires GoalsOk(g) && (g.byEvents || g.byTokens) && FirstByEvents(g, a) && FirstByTokens(m, g, b)
    ensures IsDesiredCut(m, g, if a > b then a else b)
  {
    var cut := if a > b then a else b;
    forall k | 1 <= k < cut ensures !Meets(m, g, k) {
    }
    if cut < g.eligible {
      OffsetMonotone(g.uncovered, a, cut);
      ProjectedTokensFall(m, g, b, cut);
      assert Meets(m, g, cut);
    }
    if k :| 1 <= k <= g.eligible && Meets(m, g, k) {
      OffsetMonotone(g.uncovered, k, g.eligible);
      ProjectedTokensFall(m, g, k, g.eligible);
      assert cut == g.eligible ==> Meets(m, g, cut);
    }
  }

  // ---------------------------------------------------------------- the condenser's input

  function ItemBytes(m: Measure, items: seq<Event>): nat {
    if items == [] then 0 else ItemBytes(m, Front(items)) + m.condenserItem(Last(items))
  }

  function CondenserTokens(m: Measure, atoms: seq<Atom>, summary: Option<RollingSummary>): nat {
    Tokens(m.condenserFixed + (if summary.Some? then m.condenserSummary(summary.value.summary) else 0)
           + ItemBytes(m, Flatten(atoms)))
  }

  lemma {:induction false} ItemBytesGrow(m: Measure, a: seq<Event>, b: seq<Event>)
    requires a <= b
    ensures ItemBytes(m, a) <= ItemBytes(m, b)
  {
    if |a| < |b| {
      ItemBytesGrow(m, a, Front(b));
    } else {
      assert a == b;
    }
  }

  /** The estimate of the condenser's input never falls as atoms are added. */
  lemma {:induction false} CondenserTokensGrow(m: Measure, atoms: seq<Atom>, j: nat, k: nat, summary: Option<RollingSummary>)
    requires j <= k <= |atoms|
    ensures CondenserTokens(m, atoms[..j], summary) <= CondenserTokens(m, atoms[..k], summary)
  {
    FlattenPrefix(atoms[..j], atoms[..k]);
    ItemBytesGrow(m, Flatten(atoms[..j]), Flatten(atoms[..k]));
  }

  /** `_largest_fitting_condenser_prefix`: the early break loses nothing. */
  method LargestFittingPrefix(m: Measure, atoms: seq<Atom>, summary: Option<RollingSummary>, budget: int)
    returns (count: nat, tokens: nat)
    ensures count <= |atoms|
    ensures count > 0 ==> tokens == CondenserTokens(m, atoms[..count], summary) <= budget
    ensures forall k | count < k <= |atoms| :: CondenserTokens(m, atoms[..k], summary) > budget
  {
    count, tokens := 0, 0;
    if budget <= 0 { return; }
    var end := 1;
    while end <= |atoms|
      invariant 1 <= end <= |atoms| + 1 && count == end - 1
      invariant count > 0 ==> tokens == CondenserTokens(m, atoms[..count], summary) <= budget
    {
      var candidate := CondenserTokens(m, atoms[..end], summary);
      if candidate > budget {
        forall k | end <= k <= |atoms| ensures CondenserTokens(m, atoms[..k], summary) > budget {
          CondenserTokensGrow(m, atoms, end, k, summary);
        }
        return;
      }
      count, tokens := end, candidate;
      end := end + 1;
    }
  }

  // ---------------------------------------------------------------- building a request

  datatype BudgetReport = BudgetReport(
    estimatedTokens: nat, usableTokens: int, fixedRequestTokens: nat, availableHistoryBudget: int,
    historyTokens: nat, softHistoryLimit: nat, targetHistoryTokens: nat, uncoveredEventCount: nat,
    chainTip: Option<nat>, anchor: Option<nat>, mandatory: Option<AtomId>)

  datatype Triggers = Triggers(events: bool, tokens: bool, hard: bool)

  datatype PlanId = PlanId(previous: Option<nat>, digest: Digest, expectedSeq: nat)

  datatype CondensationPlan = CondensationPlan(
    planId: PlanId, previous: Option<RollingSummary>, sourceIds: seq<nat>, sourceAtoms: seq<Atom>,
    expectedSeq: nat, turn: Option<nat>, triggers: Triggers, hard: bool,
    inputTokens: nat, requestTokensBefore: nat, desiredAtomCount: nat)

  datatype Reason = FixedSet | MinimumHistory | CondenserFixedInput | CondenserAtomTooLarge
                  | NoProgress | CyclesExhausted | RequestFailed | InvalidCompletion | NoSmallerAtom

  datatype BuildResult =
    | Ready(messages: seq<Message>, report: BudgetReport)
    | Required(plan: CondensationPlan, report: BudgetReport)
    | Exceeded(report: BudgetReport, reason: Reason)
    | Raised

  datatype Planning = Proposed(plan: CondensationPlan) | Nothing(reason: Reason)

  /** The arguments of one `build` call. */
  datatype BuildInput = BuildInput(
    caps: Caps, instructions: seq<Message>, transient: seq<Message>,
    suppressSoft: bool, planMaxAtoms: Option<int>)

  function Rule(m: Measure, caps: Caps): (r: SummaryRule)
    ensures forall text :: r.estimate(text) <= r.maxTokens <==> m.summaryTokens(text) <= caps.summaryMaxTokens
  {
    SummaryRule(m.summaryTokens, caps.summaryMaxTokens)
  }

  /** `max(0, int(ratio * n))` */
  function Scaled(ratio: real, n: int): nat {
    var x := ratio * n as real;
    if x <= 0.0 then 0 else x.Floor
  }

  function Max(a: int, b: int): int { if a > b then a else b }

  /** The index facts of a view, without the log it came from. */
  ghost predicate Indexed(v: View) {
    && NonEmpty(v.atoms)
    && v.from <= |v.atoms| && Offset(v.atoms, v.from) == Coverage(v.summary)
    && (v.anchor.Some? ==> v.at < |v.atoms|)
    && (v.mandatory.Some? ==> v.from <= v.mandatory.value < |v.atoms|)
  }

  lemma {:induction false} ViewIsIndexed(v: View, es: seq<Event>, rule: SummaryRule)
    requires IsView(v, es, rule)
    ensures Indexed(v)
  {
    if v.mandatory.Some? && v.from > v.mandatory.value {
      OffsetMonotone(v.atoms, v.mandatory.value, v.from);
    }
  }

  /** The number of uncovered atoms before the latest user message. */
  function Cut(v: View): nat { if v.at < v.from then 0 else v.at - v.from }

  lemma {:induction false} AnchorSplitsIds(v: View, es: seq<Event>, rule: SummaryRule)
    requires IsView(v, es, rule) && v.anchor.Some?
    ensures NonEmpty(Uncovered(v)) && Cut(v) <= |Uncovered(v)|
    ensures forall i | 0 <= i < |Uncovered(v)| ::
              && (Last(Uncovered(v)[i].items).id < v.anchor.value.id <==> i < Cut(v))
              && (HoldsId(Uncovered(v)[i], v.anchor.value.id) <==> v.from + i == v.at)
  {
    hide AtomsOf, ChainOf, IsTip, UsedSummary, WellFormed, HoldsId;
    var u := Uncovered(v);
    forall i | 0 <= i < |u|
      ensures u[i].items != []
      ensures Last(u[i].items).id < v.anchor.value.id <==> i < Cut(v)
      ensures HoldsId(u[i], v.anchor.value.id) <==> v.from + i == v.at
    {
      assert u[i] == v.atoms[v.from + i];
      OnlyAnchorHoldsItsId(v.atoms, v.anchor.value, v.at, v.from + i);
    }
  }

  lemma {:induction false} SkipAnchor(here: Atom, after: seq<Atom>, anchor: Event, mandatory: Option<AtomId>)
    requires NonEmpty(after) && here.items != [] && HoldsId(here, anchor.id)
    requires forall i | 0 <= i < |after| :: !HoldsId(after[i], anchor.id)
    ensures NonEmpty([here] + after)
    ensures RenderHistory([here] + after, Some(anchor), mandatory) == RenderInOrder(after, mandatory)
  {
    RenderWithoutAnchor(after, Some(anchor), mandatory);
    assert ([here] + after)[1..] == after;
  }

  /** A history that holds the anchor as one of its atoms. */
  lemma {:induction false} RenderAround(before: seq<Atom>, here: Atom, after: seq<Atom>, anchor: Event, mandatory: Option<AtomId>)
    requires NonEmpty(before) && NonEmpty(after) && here.items != [] && HoldsId(here, anchor.id)
    requires forall i | 0 <= i < |before| :: !HoldsId(before[i], anchor.id)
    requires forall i | 0 <= i < |after| :: !HoldsId(after[i], anchor.id)
    ensures NonEmpty(before + ([here] + after))
    ensures RenderHistory(before + ([here] + after), Some(anchor), mandatory) ==
            RenderInOrder(before, mandatory) + RenderInOrder(after, mandatory)
  {
    SkipAnchor(here, after, anchor, mandatory);
    RenderAppend(before, [here] + after, Some(anchor), mandatory);
    RenderWithoutAnchor(before, Some(anchor), mandatory);
  }

  /** The history in assembly order is the history by position, on both sides of the anchor. */
  ghost predicate Splits(v: View)
    requires Indexed(v)
  {
    var u, mandatory := Uncovered(v), MandatoryId(v);
    && NonEmpty(u)
    && RenderHistory(u, v.anchor, mandatory) ==
       RenderInOrder(Before(v), mandatory) + RenderInOrder(After(v), mandatory)
    && if v.anchor.Some? then
         && Cut(v) <= |u|
         && RenderHistory(u[..Cut(v)], v.anchor, mandatory) == RenderInOrder(Before(v), mandatory)
         && (forall i | 0 <= i < |u| :: Last(u[i].items).id < v.anchor.value.id <==> i < Cut(v))
         && (forall i | 0 <= i < Cut(v) :: !HoldsId(u[i], v.anchor.value.id))
       else After(v) == []
  }

  lemma {:induction false} SplitIsPositional(v: View, es: seq<Event>, rule: SummaryRule)
    requires IsView(v, es, rule)
    ensures Indexed(v) && Splits(v)
  {
    ViewIsIndexed(v, es, rule);
    if v.anchor.None? {
      NoAnchorSplits(v);
    } else {
      AnchorSplitsIds(v, es, rule);
      PositionsSplit(v, v.anchor.value);
    }
  }

  lemma {:induction false} NoAnchorSplits(v: View)
    requires Indexed(v) && v.anchor.None?
    ensures Splits(v)
  {
    RenderWithoutAnchor(Before(v), v.anchor, MandatoryId(v));
  }

  lemma {:induction false} NothingRendered(mandatory: Option<AtomId>)
    ensures RenderInOrder([], mandatory) == []
  {
  }

  /** A history whose atom `at` is the one that holds the anchor. */
  lemma {:induction false} RenderAroundAt(u: seq<Atom>, at: nat, anchor: Event, mandatory: Option<AtomId>)
    requires NonEmpty(u) && at < |u|
    requires forall i | 0 <= i < |u| :: HoldsId(u[i], anchor.id) <==> i == at
    ensures NonEmpty(u[..at]) && NonEmpty(u[at + 1..])
    ensures RenderHistory(u[..at], Some(anchor), mandatory) == RenderInOrder(u[..at], mandatory)
    ensures RenderHistory(u, Some(anchor), mandatory) ==
            RenderInOrder(u[..at], mandatory) + RenderInOrder(u[at + 1..], mandatory)
  {
    hide RenderHistory, RenderInOrder, HoldsId;
    assert u == u[..at] + ([u[at]] + u[at + 1..]);
    RenderWithoutAnchor(u[..at], Some(anchor), mandatory);
    RenderAround(u[..at], u[at], u[at + 1..], anchor, mandatory);
  }

  lemma {:induction false} PositionsSplit(v: View, anchor: Event)
    requires Indexed(v) && v.anchor == Some(anchor) && NonEmpty(Uncovered(v)) && Cut(v) <= |Uncovered(v)|
    requires forall i | 0 <= i < |Uncovered(v)| ::
              && (Last(Uncovered(v)[i].items).id < anchor.id <==> i < Cut(v))
              && (HoldsId(Uncovered(v)[i], anchor.id) <==> v.from + i == v.at)
    ensures Splits(v)
  {
    hide RenderHistory, RenderInOrder, HoldsId, MandatoryId;
    var u := Uncovered(v);
    if v.at < v.from {
      assert u[..0] == Before(v) && u == After(v);
      RenderWithoutAnchor(u, v.anchor, MandatoryId(v));
      RenderWithoutAnchor(u[..0], v.anchor, MandatoryId(v));
      NothingRendered(MandatoryId(v));
    } else {
      assert u[..Cut(v)] == Before(v) && u[Cut(v) + 1..] == After(v);
      RenderAroundAt(u, Cut(v), anchor, MandatoryId(v));
    }
  }

  lemma {:induction false} RenderPrefix(u: seq<Atom>, cut: nat, anchor: Option<Event>, mandatory: Option<AtomId>)
    requires NonEmpty(u) && cut <= |u|
    ensures RenderHistory(u[..cut], anchor, mandatory) <= RenderHistory(u, anchor, mandatory)
  {
    hide RenderHistory;
    RenderAppend(u[..cut], u[cut..], anchor, mandatory);
    assert u[..cut] + u[cut..] == u;
  }

  /** The budget report of a request, its fixed part and its history part. */
  function ReportFor(
    m: Measure, v: View, caps: Caps, request: seq<Message>, fixedPart: seq<Message>, history: seq<Message>): BudgetReport
    requires Indexed(v)
  {
    var fixed := Estimate(m, fixedPart) + m.schemaTokens;
    var available := caps.UsableInputBudget() - fixed;
    BudgetReport(
      Estimate(m, request) + m.schemaTokens, caps.UsableInputBudget(), fixed, available, EstimateOrZero(m, history),
      Scaled(caps.softTokenRatio, available), Scaled(caps.targetTokenRatio, available),
      |Flatten(Uncovered(v))|,
      if v.summary.Some? then Some(v.summary.value.eventId) else None,
      if v.anchor.Some? then Some(v.anchor.value.id) else None,
      MandatoryId(v))
  }

  /** The report measures the request that reads in order. */
  ghost predicate ReportMatches(m: Measure, v: View, input: BuildInput, partial: seq<Message>, r: BudgetReport) {
    && Indexed(v)
    && var transient := partial + input.transient;
    r == ReportFor(
      m, v, input.caps,
      Request(v, input.instructions, transient),
      input.instructions + AnchorMessage(v.anchor) + transient,
      MemoryMessages(v.summary) + RenderInOrder(Before(v), MandatoryId(v)) + RenderInOrder(After(v), MandatoryId(v)))
  }

  function TriggersOf(r: BudgetReport, caps: Caps): Triggers {
    Triggers(r.uncoveredEventCount > caps.maxEvents,
             r.historyTokens > r.softHistoryLimit,
             r.estimatedTokens > r.usableTokens)
  }

  function EligibleCount(v: View): nat
    requires Indexed(v)
  {
    if v.mandatory.Some? then v.mandatory.value - v.from else |v.atoms| - v.from
  }

  function GoalsOf(m: Measure, v: View, caps: Caps, r: BudgetReport): Goals
    requires Indexed(v)
  {
    var t := TriggersOf(r, caps);
    Goals(Uncovered(v), v.anchor, MandatoryId(v), EligibleCount(v),
          Max(1, r.uncoveredEventCount - caps.targetEvents),
          caps.summaryMaxTokens + Tokens(m.message(Memory(""))),
          r.targetHistoryTokens, t.events, t.tokens || t.hard)
  }

  /** The first `n` uncovered atoms. */
  function Run(v: View, n: nat): seq<Atom>
    requires v.from + n <= |v.atoms|
  {
    v.atoms[v.from..v.from + n]
  }

  /**
   What a plan promises: it condenses the longest run of leading uncovered atoms that fits the
   condenser, within the desired cut, and the run is the next one after the used summary.
   */
  ghost predicate PlanMatches(m: Measure, v: View, input: BuildInput, logSize: nat, p: CondensationPlan, r: BudgetReport)
    requires Indexed(v)
  {
    && 1 <= |p.sourceAtoms| <= p.desiredAtomCount <= EligibleCount(v)
    && p == PlanFor(v, |p.sourceAtoms|, p.desiredAtomCount, p.inputTokens, TriggersOf(r, input.caps), r.estimatedTokens, logSize)
    && NextRun(v.atoms, v.summary, p.sourceIds)
    && Desired(m, v, input, r, p.desiredAtomCount)
    && EnoughProgress(v, input.caps, r, p.desiredAtomCount) && CondenserHasRoom(m, v, input.caps)
    && LongestFit(m, v, |p.sourceAtoms|, p.desiredAtomCount, input.caps.CondenserUsableInputBudget())
    && p.inputTokens == CondenserTokens(m, Run(v, |p.sourceAtoms|), v.summary)
  }

  /** Why a wanted plan is not made. */
  ghost predicate NoPlan(m: Measure, v: View, input: BuildInput, r: BudgetReport, reason: Reason)
    requires Indexed(v)
  {
    exists n: nat :: Desired(m, v, input, r, n) && NoPlanFor(m, v, input.caps, r, n, reason)
  }

  ghost predicate NoPlanFor(m: Measure, v: View, caps: Caps, r: BudgetReport, n: nat, reason: Reason)
    requires Indexed(v)
  {
    && n <= EligibleCount(v)
    && match reason
       case MinimumHistory => n == 0 || !EnoughProgress(v, caps, r, n)
       case CondenserFixedInput => n > 0 && EnoughProgress(v, caps, r, n) && !CondenserHasRoom(m, v, caps)
       case CondenserAtomTooLarge =>
         && n > 0 && EnoughProgress(v, caps, r, n) && CondenserHasRoom(m, v, caps)
         && LongestFit(m, v, 0, n, caps.CondenserUsableInputBudget())
       case _ => false
  }

  /** `n` is the desired cut, or the cap that a retry sets on it. */
  ghost predicate Desired(m: Measure, v: View, input: BuildInput, r: BudgetReport, n: nat)
    requires Indexed(v)
  {
    exists cut :: IsDesiredCut(m, GoalsOf(m, v, input.caps, r), cut) && n == Capped(cut, input.planMaxAtoms)
  }

  /** Only a hard plan may condense a small share of the uncovered events. */
  predicate EnoughProgress(v: View, caps: Caps, r: BudgetReport, n: nat)
    requires Indexed(v) && n <= EligibleCount(v)
  {
    TriggersOf(r, caps).hard
    || |Flatten(Run(v, n))| as real / Max(1, r.uncoveredEventCount) as real >= caps.minimumProgress
  }

  /** The condenser's fixed input leaves room for history. */
  predicate CondenserHasRoom(m: Measure, v: View, caps: Caps) {
    CondenserTokens(m, [], v.summary) < caps.CondenserUsableInputBudget()
  }

  function Capped(cut: nat, planMaxAtoms: Option<int>): nat {
    if planMaxAtoms.Some? && Max(0, planMaxAtoms.value) < cut then Max(0, planMaxAtoms.value) else cut
  }

  /** `n` is the largest number of atoms, at most `desired`, that the condenser can take. */
  ghost predicate LongestFit(m: Measure, v: View, n: nat, desired: nat, budget: int)
    requires Indexed(v) && n <= desired <= EligibleCount(v)
  {
    && (n > 0 ==> CondenserTokens(m, Run(v, n), v.summary) <= budget)
    && forall k | n < k <= desired :: CondenserTokens(m, Run(v, k), v.summary) > budget
  }

  /** The plan for the first `n` uncovered atoms. */
  function PlanFor(
    v: View, n: nat, desired: nat, inputTokens: nat, t: Triggers, requestTokens: nat, logSize: nat): CondensationPlan
    requires Indexed(v) && v.from + n <= |v.atoms|
  {
    var ids := SourceIds(Run(v, n));
    CondensationPlan(
      PlanId(if v.summary.Some? then Some(v.summary.value.eventId) else None, Sha256(ids), logSize),
      v.summary, ids, Run(v, n), logSize,
      if v.anchor.Some? then v.anchor.value.turn else None,
      t, t.hard, inputTokens, requestTokens, desired)
  }

  lemma {:induction false} GoalsAreOk(m: Measure, v: View, caps: Caps, r: BudgetReport)
    requires Indexed(v)
    ensures GoalsOk(GoalsOf(m, v, caps, r))
  {
    hide TriggersOf, MandatoryId, Max, Tokens, Offset, Coverage;
    var u := Uncovered(v);
    assert forall i | 0 <= i < |u| :: u[i] == v.atoms[v.from + i];
  }

  lemma {:induction false} PrefixOfRun(v: View, desired: nat, k: nat)
    requires Indexed(v) && k <= desired && v.from + desired <= |v.atoms|
    ensures Run(v, desired)[..k] == Run(v, k)
  {
  }

  lemma {:induction false} MiddleIds(a: seq<Event>, b: seq<Event>, c: seq<Event>)
    ensures FollowsIn(Ids(a + b + c), |a|, Ids(b))
  {
    assert Ids(a + b + c)[|a|..|a| + |b|] == Ids(b);
  }

  lemma {:induction false} RunOfAtoms(atoms: seq<Atom>, from: nat, n: nat)
    requires from + n <= |atoms| && n >= 1 && NonEmpty(atoms)
    ensures var ids := SourceIds(atoms[from..from + n]);
            && ids != []
            && FollowsIn(SourceIds(atoms), Offset(atoms, from), ids)
            && OnBoundary(atoms, Offset(atoms, from) + |ids|)
  {
    hide Flatten, Ids, FollowsIn;
    var before, run, rest := atoms[..from], atoms[from..from + n], atoms[from + n..];
    assert before + run == atoms[..from + n];
    assert atoms[..from + n] + rest == atoms;
    FlattenAppend(before, run);
    FlattenAppend(atoms[..from + n], rest);
    MiddleIds(Flatten(before), Flatten(run), Flatten(rest));
    OffsetMonotone(atoms, from, from + n);
  }

  /** The next atoms after the used summary are a run the summary reader accepts. */
  lemma {:induction false} LeadingAtomsAreNextRun(v: View, n: nat)
    requires Indexed(v) && 1 <= n <= |v.atoms| - v.from
    ensures NextRun(v.atoms, v.summary, SourceIds(Run(v, n)))
  {
    RunOfAtoms(v.atoms, v.from, n);
  }

  /** The triggers ask for a plan: any of them, or only the hard one when soft ones are suppressed. */
  predicate Wanted(t: Triggers, suppressSoft: bool) { t.hard || (!suppressSoft && (t.events || t.tokens)) }

  /**
   What `build` decides.  A ready request fits and reads in order around the latest user message;
   no plan is wanted for it, or none can be made.  A plan is required when one is wanted and can be
   made.  A request is given up when its fixed part does not fit, or when the whole does not and
   no plan can be made.
   */
  ghost predicate BuildMatches(
    m: Measure, v: View, input: BuildInput, partial: seq<Message>, logSize: nat, r: BuildResult)
    requires Indexed(v) && !r.Raised?
  {
    && ReportMatches(m, v, input, partial, r.report)
    && var t := TriggersOf(r.report, input.caps);
    && var fixedFits := r.report.fixedRequestTokens < r.report.usableTokens;
    && match r
       case Ready(messages, report) =>
         && messages == Request(v, input.instructions, partial + input.transient)
         && fixedFits && report.estimatedTokens <= report.usableTokens
         && (Wanted(t, input.suppressSoft) ==> exists reason :: NoPlan(m, v, input, report, reason))
       case Required(plan, report) =>
         fixedFits && Wanted(t, input.suppressSoft) && PlanMatches(m, v, input, logSize, plan, report)
       case Exceeded(report, reason) =>
         if fixedFits then t.hard && NoPlan(m, v, input, report, reason) else reason == FixedSet
  }

  lemma {:induction false} DesiredCutIsUnique(m: Measure, g: Goals, a: nat, b: nat)
    requires GoalsOk(g) && IsDesiredCut(m, g, a) && IsDesiredCut(m, g, b)
    ensures a == b
  {
    hide Meets;
  }

  lemma {:induction false} DesiredIsUnique(m: Measure, v: View, input: BuildInput, r: BudgetReport, a: nat, b: nat)
    requires Indexed(v) && Desired(m, v, input, r, a) && Desired(m, v, input, r, b)
    ensures a == b
  {
    hide IsDesiredCut;
    GoalsAreOk(m, v, input.caps, r);
    var g := GoalsOf(m, v, input.caps, r);
    var x :| IsDesiredCut(m, g, x) && a == Capped(x, input.planMaxAtoms);
    var y :| IsDesiredCut(m, g, y) && b == Capped(y, input.planMaxAtoms);
    DesiredCutIsUnique(m, g, x, y);
  }

  lemma {:induction false} PlansAreEqual(
    m: Measure, v: View, input: BuildInput, logSize: nat, r: BudgetReport, p: CondensationPlan, q: CondensationPlan)
    requires Indexed(v)
    ensures PlanMatches(m, v, input, logSize, p, r) && PlanMatches(m, v, input, logSize, q, r) ==> p == q
  {
    hide Desired, EnoughProgress, CondenserHasRoom, CondenserTokens, TriggersOf, NextRun, Indexed, EligibleCount, PlanFor;
    forall a: nat, b: nat | Desired(m, v, input, r, a) && Desired(m, v, input, r, b) ensures a == b {
      DesiredIsUnique(m, v, input, r, a, b);
    }
  }

  /** A plan and a reason against one exclude each other. */
  lemma {:induction false} PlanOrReason(
    m: Measure, v: View, input: BuildInput, logSize: nat, r: BudgetReport, p: CondensationPlan, why: Reason)
    requires Indexed(v)
    ensures !(PlanMatches(m, v, input, logSize, p, r) && NoPlan(m, v, input, r, why))
  {
    hide Desired, EnoughProgress, CondenserHasRoom, CondenserTokens, TriggersOf, NextRun, Indexed, EligibleCount, PlanFor;
    forall a: nat, b: nat | Desired(m, v, input, r, a) && Desired(m, v, input, r, b) ensures a == b {
      DesiredIsUnique(m, v, input, r, a, b);
    }
  }

  lemma {:induction false} ReasonsAreEqual(m: Measure, v: View, input: BuildInput, r: BudgetReport, a: Reason, b: Reason)
    requires Indexed(v)
    ensures NoPlan(m, v, input, r, a) && NoPlan(m, v, input, r, b) ==> a == b
  {
    hide Desired, EnoughProgress, CondenserHasRoom, LongestFit, TriggersOf, Indexed, EligibleCount;
    forall x: nat, y: nat | Desired(m, v, input, r, x) && Desired(m, v, input, r, y) ensures x == y {
      DesiredIsUnique(m, v, input, r, x, y);
    }
  }

  /** `build` has exactly one right answer. */
  lemma {:induction false} BuildIsDetermined(
    m: Measure, v: View, input: BuildInput, partial: seq<Message>, logSize: nat, r: BuildResult, s: BuildResult)
    requires Indexed(v) && !r.Raised? && !s.Raised?
    requires BuildMatches(m, v, input, partial, logSize, r) && BuildMatches(m, v, input, partial, logSize, s)
    ensures r == s
  {
    hide PlanMatches, NoPlan, ReportFor, Request, Indexed;
    assert r.report == s.report;
    forall p, q { PlansAreEqual(m, v, input, logSize, r.report, p, q); }
    forall p, why { PlanOrReason(m, v, input, logSize, r.report, p, why); }
    forall why, other { ReasonsAreEqual(m, v, input, r.report, why, other); }
  }

  // ---------------------------------------------------------------- what the answer means for the caps and the messages

  /** `n` is the whole part of a share of `total`, and none of a negative share. */
  predicate WholePart(n: nat, share: real, total: int) {
    if share * total as real <= 0.0 then n == 0 else n as real <= share * total as real < n as real + 1.0
  }

  lemma {:induction false} ScaledMeaning(ratio: real, n: int)
    ensures WholePart(Scaled(ratio, n), ratio, n)
  {
  }

  /** The parts of a request: what is always sent, and what condensing can make smaller. */
  ghost predicate Parts(v: View, input: BuildInput, partial: seq<Message>, request: seq<Message>, fixed: seq<Message>, history: seq<Message>)
    requires Indexed(v)
  {
    var before, after := RenderInOrder(Before(v), MandatoryId(v)), RenderInOrder(After(v), MandatoryId(v));
    var memory, anchor, transient := MemoryMessages(v.summary), AnchorMessage(v.anchor), partial + input.transient;
    && request == input.instructions + memory + before + anchor + after + transient
    && fixed == input.instructions + anchor + transient
    && history == memory + before + after
  }

  /** Every figure of a report, from the messages and the caps. */
  ghost predicate Sized(m: Measure, v: View, input: BuildInput, partial: seq<Message>, r: BudgetReport)
    requires Indexed(v)
  {
    var caps := input.caps;
    && r.usableTokens == caps.contextLimit - caps.generationReserve - caps.continuationReserve - caps.safetyMargin
    && r.availableHistoryBudget == r.usableTokens - r.fixedRequestTokens
    && WholePart(r.softHistoryLimit, caps.softTokenRatio, r.availableHistoryBudget)
    && WholePart(r.targetHistoryTokens, caps.targetTokenRatio, r.availableHistoryBudget)
    && r.uncoveredEventCount == |Flatten(v.atoms[v.from..])|
    && (v.summary.None? ==> r.chainTip.None?) && (v.summary.Some? ==> r.chainTip == Some(v.summary.value.eventId))
    && (v.anchor.None? ==> r.anchor.None?) && (v.anchor.Some? ==> r.anchor == Some(v.anchor.value.id))
    && (v.mandatory.None? ==> r.mandatory.None?) && (v.mandatory.Some? ==> r.mandatory == Some(v.atoms[v.mandatory.value].id))
    && (forall request, fixed, history | Parts(v, input, partial, request, fixed, history) ::
          && Thirds(r.estimatedTokens - m.schemaTokens - 8, ArrayBytes(m, request))
          && Thirds(r.fixedRequestTokens - m.schemaTokens - 8, ArrayBytes(m, fixed))
          && (if history == [] then r.historyTokens == 0 else Thirds(r.historyTokens - 8, ArrayBytes(m, history))))
  }

  lemma {:induction false} ReportIsSized(m: Measure, v: View, input: BuildInput, partial: seq<Message>, r: BudgetReport)
    requires Indexed(v) && ReportMatches(m, v, input, partial, r)
    ensures Sized(m, v, input, partial, r)
  {
    hide RenderInOrder, Scaled, ArrayBytes, Flatten;
    ScaledMeaning(input.caps.softTokenRatio, r.availableHistoryBudget);
    ScaledMeaning(input.caps.targetTokenRatio, r.availableHistoryBudget);
    forall request, fixed, history | Parts(v, input, partial, request, fixed, history)
      ensures Thirds(Estimate(m, request) - 8, ArrayBytes(m, request)) && Thirds(Estimate(m, fixed) - 8, ArrayBytes(m, fixed))
      ensures Thirds(Estimate(m, history) - 8, ArrayBytes(m, history))
    {
      TokensMeaning(ArrayBytes(m, request), 0);
      TokensMeaning(ArrayBytes(m, fixed), 0);
      TokensMeaning(ArrayBytes(m, history), 0);
    }
  }

  /** The report measures the request, and counts the context events that no summary covers. */
  ghost predicate Measured(m: Measure, v: View, input: BuildInput, partial: seq<Message>, es: seq<Event>, r: BudgetReport)
    requires Indexed(v)
  {
    Sized(m, v, input, partial, r) && r.uncoveredEventCount + Coverage(v.summary) == |ContextEvents(es)|
  }

  lemma {:induction false} ReportIsMeasured(
    m: Measure, v: View, input: BuildInput, partial: seq<Message>, es: seq<Event>, r: BudgetReport)
    requires Good(es) && IsView(v, es, Rule(m, input.caps)) && ReportMatches(m, v, input, partial, r)
    ensures Measured(m, v, input, partial, es, r)
  {
    hide IsView, ContextEvents, Flatten, Sized, ReportFor, Request;
    ReportIsSized(m, v, input, partial, r);
    UncoveredEvents(v, es, Rule(m, input.caps));
    assert r.uncoveredEventCount == |Flatten(Uncovered(v))| by { SizedCount(m, v, input, partial, r); }
  }

  lemma {:induction false} SizedCount(m: Measure, v: View, input: BuildInput, partial: seq<Message>, r: BudgetReport)
    requires Indexed(v) && Sized(m, v, input, partial, r)
    ensures r.uncoveredEventCount == |Flatten(Uncovered(v))|
  {
    hide Parts, Flatten;
  }

  /**
   The decision, in the caps and the messages.  `room` is what the messages of a request may take.
   A request is given up for its fixed part exactly when that leaves no room.  Of the others, those
   that do not fit are exactly the ones given up or condensed by a hard plan.
   */
  ghost predicate Decides(m: Measure, v: View, input: BuildInput, partial: seq<Message>, r: BuildResult)
    requires Indexed(v) && !r.Raised?
  {
    var caps := input.caps;
    var room := caps.contextLimit - caps.generationReserve - caps.continuationReserve - caps.safetyMargin - m.schemaTokens;
    forall request, fixed, history | Parts(v, input, partial, request, fixed, history) ::
      && (Estimate(m, fixed) >= room <==> r.Exceeded? && r.reason == FixedSet)
      && (Estimate(m, fixed) < room ==> (Estimate(m, request) > room <==> r.Exceeded? || (r.Required? && r.plan.hard)))
      && (r.Ready? ==> r.messages == request && ArrayBytes(m, request) <= 3 * (room - 8))
  }

  /** Which limits the request is over, as the plan says, and that a plan that was wanted is there unless none could be made. */
  ghost predicate Triggered(m: Measure, v: View, input: BuildInput, r: BuildResult)
    requires Indexed(v) && !r.Raised?
  {
    var caps, report := input.caps, r.report;
    var many, long := report.uncoveredEventCount > caps.maxEvents, report.historyTokens > report.softHistoryLimit;
    && (r.Required? ==>
          && r.plan.triggers == Triggers(many, long, report.estimatedTokens > report.usableTokens)
          && r.plan.hard == r.plan.triggers.hard
          && (r.plan.hard || (!input.suppressSoft && (many || long))))
    && (r.Ready? && !input.suppressSoft && (many || long) ==> exists reason :: NoPlan(m, v, input, report, reason))
  }

  lemma {:induction false} BuildDecides(
    m: Measure, v: View, input: BuildInput, partial: seq<Message>, logSize: nat, r: BuildResult)
    requires Indexed(v) && !r.Raised? && BuildMatches(m, v, input, partial, logSize, r)
    ensures Decides(m, v, input, partial, r) && Triggered(m, v, input, r)
  {
    hide RenderInOrder, ArrayBytes, Desired, EnoughProgress, CondenserHasRoom, NextRun, LongestFit;
    forall request, fixed, history | Parts(v, input, partial, request, fixed, history)
      ensures request == Request(v, input.instructions, partial + input.transient)
    {
      TokensMeaning(ArrayBytes(m, request), r.report.usableTokens - m.schemaTokens);
    }
  }

  /** What a plan holds: the next context events of the log after the summary, in whole atoms. */
  ghost predicate Proposes(m: Measure, v: View, es: seq<Event>, p: CondensationPlan, r: BudgetReport)
    requires Indexed(v)
  {
    var covered, n, k := Coverage(v.summary), |p.sourceAtoms|, |p.sourceIds|;
    && 1 <= n <= p.desiredAtomCount && v.from + n <= |v.atoms| && p.sourceAtoms == v.atoms[v.from..v.from + n]
    && covered + k <= |ContextEvents(es)| && p.sourceIds == Ids(ContextEvents(es)[covered..covered + k])
    && p.previous == v.summary && p.expectedSeq == |es| && p.requestTokensBefore == r.estimatedTokens
    && p.turn == (if v.anchor.Some? then v.anchor.value.turn else None)
    && p.planId == PlanId(if v.summary.Some? then Some(v.summary.value.eventId) else None, Sha256(p.sourceIds), |es|)
    && Thirds(p.inputTokens - 8, CondenserBytes(m, p.sourceAtoms, v.summary))
  }

  lemma {:induction false} PlanProposes(m: Measure, v: View, input: BuildInput, es: seq<Event>, p: CondensationPlan, r: BudgetReport)
    requires Good(es) && IsView(v, es, Rule(m, input.caps)) && Indexed(v) && PlanMatches(m, v, input, |es|, p, r)
    ensures Proposes(m, v, es, p, r)
  {
    hide WellFormed, ChainOf, IsTip, UsedSummary, MandatoryIndex, Desired, EnoughProgress, CondenserHasRoom, LongestFit,
      ItemBytes, AtomsOf, ContextEvents, Flatten, Good, TriggersOf, OnBoundary, Ids;
    FlattenIsContiguous(es);
    NextIds(ContextEvents(es), Coverage(v.summary), p.sourceIds);
  }

  lemma {:induction false} NextIds(events: seq<Event>, covered: nat, ids: seq<nat>)
    requires FollowsIn(Ids(events), covered, ids)
    ensures covered + |ids| <= |events| && ids == Ids(events[covered..covered + |ids|])
  {
    assert Ids(events)[covered..covered + |ids|] == Ids(events[covered..covered + |ids|]);
  }

  /** Bytes of the condenser's input: the fixed part, the summary and the events. */
  ghost function CondenserBytes(m: Measure, atoms: seq<Atom>, summary: Option<RollingSummary>): nat {
    m.condenserFixed + ItemBytes(m, Flatten(atoms)) + match summary case None => 0 case Some(s) => m.condenserSummary(s.summary)
  }

  /** The condenser has room exactly when what is left of the context limit takes its fixed part and one token more. */
  lemma {:induction false} CondenserRoomMeaning(m: Measure, v: View, caps: Caps)
    ensures CondenserHasRoom(m, v, caps) <==>
            CondenserBytes(m, [], v.summary) <= 3 * (caps.contextLimit - caps.summaryMaxTokens - caps.condenserSafetyMargin - 9)
  {
  }

  /** Enough is condensed when the request must shrink, or the events are the least share of the uncovered ones. */
  lemma {:induction false} ProgressMeaning(v: View, caps: Caps, r: BudgetReport, n: nat)
    requires Indexed(v) && 1 <= n <= EligibleCount(v) && r.uncoveredEventCount == |Flatten(Uncovered(v))| > 0
    ensures EnoughProgress(v, caps, r, n) <==>
            r.estimatedTokens > r.usableTokens
            || |Flatten(Run(v, n))| as real >= caps.minimumProgress * r.uncoveredEventCount as real
  {
    hide Flatten;
    var part, all, least := |Flatten(Run(v, n))| as real, r.uncoveredEventCount as real, caps.minimumProgress;
    assert (part / all) * all == part;
  }

  /** `n` atoms may be condensed exactly when they end before the mandatory atom begins. */
  lemma {:induction false} EligibleMeaning(v: View, n: nat)
    requires Indexed(v) && v.from + n <= |v.atoms|
    requires v.mandatory == MandatoryIndex(v.atoms, AnchorOf(v.atoms))
    ensures n <= EligibleCount(v) <==> Offset(v.atoms, v.from + n) <= MandatoryLimit(v.atoms)
  {
    hide MandatoryIndex, AnchorOf, Flatten;
    assert forall a | a in v.atoms :: a.items != [];
    if v.mandatory.Some? {
      if v.from + n <= v.mandatory.value {
        OffsetMonotone(v.atoms, v.from + n, v.mandatory.value);
      } else {
        OffsetMonotone(v.atoms, v.mandatory.value, v.from + n);
      }
    } else {
      OffsetMonotone(v.atoms, v.from + n, |v.atoms|);
    }
  }

  /** What condensing `k` atoms leaves: few enough events, and little enough history beside the new summary. */
  ghost predicate LeavesLittle(m: Measure, v: View, caps: Caps, r: BudgetReport, k: nat)
    requires Indexed(v) && v.from + k <= |v.atoms|
  {
    var rest := v.atoms[v.from + k..];
    && NonEmpty(rest)
    && (r.uncoveredEventCount > caps.maxEvents ==> |Flatten(rest)| <= caps.targetEvents)
    && (r.historyTokens > r.softHistoryLimit || r.estimatedTokens > r.usableTokens ==>
          caps.summaryMaxTokens + Tokens(m.message(Memory("")))
          + EstimateOrZero(m, RenderHistory(rest, v.anchor, MandatoryId(v))) <= r.targetHistoryTokens)
  }

  /** A cut meets the goals exactly when it leaves that little. */
  lemma {:induction false} MeetsMeaning(m: Measure, v: View, caps: Caps, r: BudgetReport, k: nat)
    requires Indexed(v) && 1 <= k <= EligibleCount(v) && r.uncoveredEventCount == |Flatten(Uncovered(v))|
    ensures GoalsOk(GoalsOf(m, v, caps, r))
    ensures Meets(m, GoalsOf(m, v, caps, r), k) <==> LeavesLittle(m, v, caps, r, k)
  {
    hide Flatten, RenderHistory, EstimateOrZero, Tokens, MandatoryId, Offset, ProjectedTokens;
    GoalsAreOk(m, v, caps, r);
    CutsInTwo(v, k);
    RestTokens(m, v, caps, r, k);
  }

  lemma {:induction false} CutsInTwo(v: View, k: nat)
    requires Indexed(v) && 1 <= k && v.from + k <= |v.atoms|
    ensures NonEmpty(v.atoms[v.from + k..])
    ensures 1 <= Offset(Uncovered(v), k) == |Flatten(Uncovered(v))| - |Flatten(v.atoms[v.from + k..])|
  {
    hide Flatten;
    var u := Uncovered(v);
    assert u == u[..k] + v.atoms[v.from + k..];
    FlattenAppend(u[..k], v.atoms[v.from + k..]);
    assert forall i | 0 <= i < |u| :: u[i] == v.atoms[v.from + i];
    OffsetMonotone(u, 0, k);
  }

  lemma {:induction false} RestTokens(m: Measure, v: View, caps: Caps, r: BudgetReport, k: nat)
    requires Indexed(v) && GoalsOk(GoalsOf(m, v, caps, r)) && v.from + k <= |v.atoms| && NonEmpty(v.atoms[v.from + k..])
    ensures ProjectedTokens(m, GoalsOf(m, v, caps, r), k) ==
            caps.summaryMaxTokens + Tokens(m.message(Memory("")))
            + EstimateOrZero(m, RenderHistory(v.atoms[v.from + k..], v.anchor, MandatoryId(v)))
  {
    hide RenderHistory, EstimateOrZero, Tokens, MandatoryId;
    assert Uncovered(v)[k..] == v.atoms[v.from + k..];
  }

  /** A retry's cap is the least of the cut and what it allows. */
  lemma {:induction false} CappedMeaning(cut: nat, planMaxAtoms: Option<int>, k: nat)
    ensures k <= Capped(cut, planMaxAtoms) <==> k <= cut && (k == 0 || planMaxAtoms.None? || k <= planMaxAtoms.value)
  {
  }

  class ContextManager {
    const measure: Measure
    var lastBudgetReport: Option<BudgetReport>

    constructor (m: Measure)
      ensures measure == m && lastBudgetReport == None
    {
      measure := m;
      lastBudgetReport := None;
    }

    /** `ContextManager.build` on a log that the store wrote. */
    method Build(events: seq<Event>, input: BuildInput) returns (r: BuildResult, ghost v: View)
      requires Written(events) && Started(events)
      modifies this
      ensures r.Raised? <==> !(Accepted(events) && AllClosed(AtomsOf(events)))
      ensures r.Raised? ==> lastBudgetReport == old(lastBudgetReport)
      ensures !r.Raised? ==>
                && Good(events) && NoOpenStep(events)
                && IsView(v, events, Rule(measure, input.caps)) && Indexed(v)
                && BuildMatches(measure, v, input, TruncationPartial(events, v.anchor), |events|, r)
                && lastBudgetReport == Some(r.report)
                && Measured(measure, v, input, TruncationPartial(events, v.anchor), events, r.report)
                && Decides(measure, v, input, TruncationPartial(events, v.anchor), r)
                && Triggered(measure, v, input, r)
                && (r.Required? ==> Proposes(measure, v, events, r.plan, r.report))
      ensures r.Ready? ==>
                Estimate(measure, r.messages) + measure.schemaTokens
                <= input.caps.contextLimit - input.caps.generationReserve - input.caps.continuationReserve - input.caps.safetyMargin
    {
      var view := ViewOf(events, Rule(measure, input.caps));
      if view.None? {
        v := View([], None, 0, None, None, None, 0);
        return Raised, v;
      }
      v := view.value;
      SplitIsPositional(v, events, Rule(measure, input.caps));
      r := BuildFrom(view.value, input, TruncationPartial(events, view.value.anchor), |events|);
      lastBudgetReport := Some(r.report);
      BuildMeans(events, v, input, r);
    }

    /** What the answer means for the caps and the messages. */
    lemma {:induction false} BuildMeans(events: seq<Event>, v: View, input: BuildInput, r: BuildResult)
      requires Good(events) && IsView(v, events, Rule(measure, input.caps)) && Indexed(v) && !r.Raised?
      requires BuildMatches(measure, v, input, TruncationPartial(events, v.anchor), |events|, r)
      ensures Measured(measure, v, input, TruncationPartial(events, v.anchor), events, r.report)
      ensures Decides(measure, v, input, TruncationPartial(events, v.anchor), r)
      ensures Triggered(measure, v, input, r)
      ensures r.Required? ==> Proposes(measure, v, events, r.plan, r.report)
      ensures r.Ready? ==>
                Estimate(measure, r.messages) + measure.schemaTokens
                <= input.caps.contextLimit - input.caps.generationReserve - input.caps.continuationReserve - input.caps.safetyMargin
    {
      hide IsView, Good, Measured, Decides, Triggered, Proposes, Request, NoPlan, PlanMatches, Indexed, Wanted, ArrayBytes;
      var partial := TruncationPartial(events, v.anchor);
      ReportIsMeasured(measure, v, input, partial, events, r.report);
      BuildDecides(measure, v, input, partial, |events|, r);
      if r.Required? { PlanProposes(measure, v, input, events, r.plan, r.report); }
    }

    /** The part of `build` after the projection. */
    method BuildFrom(w: View, input: BuildInput, partial: seq<Message>, logSize: nat) returns (r: BuildResult)
      requires Indexed(w) && Splits(w)
      ensures !r.Raised? && BuildMatches(measure, w, input, partial, logSize, r)
      ensures Decides(measure, w, input, partial, r) && Triggered(measure, w, input, r)
      ensures Sized(measure, w, input, partial, r.report)
    {
      r := Decide(w, input, partial, logSize);
      hide *;
      BuildDecides(measure, w, input, partial, logSize, r);
      SizedMatch(w, input, partial, logSize, r);
    }

    lemma {:induction false} SizedMatch(w: View, input: BuildInput, partial: seq<Message>, logSize: nat, r: BuildResult)
      requires Indexed(w) && !r.Raised? && BuildMatches(measure, w, input, partial, logSize, r)
      ensures Sized(measure, w, input, partial, r.report)
    {
      hide Sized, Request, ReportFor, PlanMatches, NoPlan, Indexed;
      ReportIsSized(measure, w, input, partial, r.report);
    }

    /** The triggers, the plan, and the three ways to answer. */
    method Decide(w: View, input: BuildInput, partial: seq<Message>, logSize: nat) returns (r: BuildResult)
      requires Indexed(w) && Splits(w)
      ensures !r.Raised? && BuildMatches(measure, w, input, partial, logSize, r)
    {
      var messages, report := Assemble(w, input, partial);
      if report.fixedRequestTokens >= report.usableTokens { return Exceeded(report, FixedSet); }
      var t := TriggersOf(report, input.caps);
      if !(t.events || t.tokens || t.hard) || (input.suppressSoft && !t.hard) {
        return Ready(messages, report);
      }
      var plan := Plan(w, input, logSize, report);
      match plan {
        case Proposed(p) => return Required(p, report);
        case Nothing(reason) =>
          if t.hard { return Exceeded(report, reason); }
          return Ready(messages, report);
      }
    }

    /** The request messages in the program's assembly order, and their budget report. */
    method Assemble(w: View, input: BuildInput, partial: seq<Message>)
      returns (messages: seq<Message>, report: BudgetReport)
      requires Indexed(w) && Splits(w)
      ensures messages == Request(w, input.instructions, partial + input.transient)
      ensures ReportMatches(measure, w, input, partial, report) && Sized(measure, w, input, partial, report)
    {
      messages, report := Arrange(w, input, partial);
      hide *;
      ReportIsSized(measure, w, input, partial, report);
    }

    /** The parts in their order, and the report on them. */
    method Arrange(w: View, input: BuildInput, partial: seq<Message>)
      returns (messages: seq<Message>, report: BudgetReport)
      requires Indexed(w) && Splits(w)
      ensures messages == Request(w, input.instructions, partial + input.transient)
      ensures ReportMatches(measure, w, input, partial, report)
    {
      var transient := partial + input.transient;
      var history := RenderHistory(Uncovered(w), w.anchor, MandatoryId(w));
      var memory := MemoryMessages(w.summary);
      var pre, post := SplitHistory(w, history);
      assert memory + history == memory + pre + post;
      var anchorMessage := AnchorMessage(w.anchor);
      messages := input.instructions + memory + pre + anchorMessage + post + transient;
      report := ReportFor(
        measure, w, input.caps, messages, input.instructions + anchorMessage + transient, memory + history);
    }

    /** `_split_history`: the rendered history, cut in two at the latest user message. */
    method SplitHistory(w: View, history: seq<Message>) returns (pre: seq<Message>, post: seq<Message>)
      requires Indexed(w) && Splits(w) && history == RenderHistory(Uncovered(w), w.anchor, MandatoryId(w))
      ensures pre == RenderInOrder(Before(w), MandatoryId(w)) && post == RenderInOrder(After(w), MandatoryId(w))
      ensures history == pre + post
    {
      hide RenderHistory, RenderInOrder, MandatoryId, HoldsId;
      NothingRendered(MandatoryId(w));
      pre, post := history, [];
      if w.anchor.Some? {
        var uncovered := Uncovered(w);
        forall i | 0 <= i < |uncovered| { MessageCountIsRight(uncovered[i], MandatoryId(w) == Some(uncovered[i].id)); }
        var count := PreCount(uncovered, w.anchor.value, MandatoryId(w), Cut(w));
        RenderPrefix(uncovered, Cut(w), w.anchor, MandatoryId(w));
        pre, post := history[..count], history[count..];
      }
    }

    /** The part of `build` after the triggers: a plan, or the reason there is none. */
    method Plan(w: View, input: BuildInput, logSize: nat, report: BudgetReport) returns (r: Planning)
      requires Indexed(w) && report.uncoveredEventCount == |Flatten(Uncovered(w))|
      requires var t := TriggersOf(report, input.caps); t.events || t.tokens || t.hard
      ensures r.Proposed? ==> PlanMatches(measure, w, input, logSize, r.plan, report)
      ensures r.Nothing? ==> NoPlan(measure, w, input, report, r.reason)
    {
      hide Desired, EnoughProgress, CondenserHasRoom, CondenserTokens, LongestFit, TriggersOf, NextRun;
      var caps := input.caps;
      var desired := DesiredCount(w, input, report);
      if desired <= 0 || !EnoughProgress(w, caps, report, desired) {
        assert NoPlanFor(measure, w, caps, report, desired, MinimumHistory);
        return Nothing(MinimumHistory);
      }
      if !CondenserHasRoom(measure, w, caps) {
        assert NoPlanFor(measure, w, caps, report, desired, CondenserFixedInput);
        return Nothing(CondenserFixedInput);
      }
      var count, tokens := LongestRun(w, desired, caps);
      if count == 0 {
        assert NoPlanFor(measure, w, caps, report, desired, CondenserAtomTooLarge);
        return Nothing(CondenserAtomTooLarge);
      }
      LeadingAtomsAreNextRun(w, count);
      return Proposed(PlanFor(w, count, desired, tokens, TriggersOf(report, caps), report.estimatedTokens, logSize));
    }

    /** How many atoms a plan should condense. */
    method DesiredCount(w: View, input: BuildInput, report: BudgetReport) returns (desired: nat)
      requires Indexed(w)
      requires var t := TriggersOf(report, input.caps); t.events || t.tokens || t.hard
      ensures desired <= EligibleCount(w) && Desired(measure, w, input, report, desired)
    {
      GoalsAreOk(measure, w, input.caps, report);
      var cut := DesiredAtomCount(measure, GoalsOf(measure, w, input.caps, report));
      desired := Capped(cut, input.planMaxAtoms);
    }

    /** The longest run of the desired atoms that fits the condenser. */
    method LongestRun(w: View, desired: nat, caps: Caps) returns (count: nat, tokens: nat)
      requires Indexed(w) && desired <= EligibleCount(w)
      ensures count <= desired && LongestFit(measure, w, count, desired, caps.CondenserUsableInputBudget())
      ensures count > 0 ==> tokens == CondenserTokens(measure, Run(w, count), w.summary)
    {
      hide CondenserTokens;
      count, tokens := LargestFittingPrefix(measure, Run(w, desired), w.summary, caps.CondenserUsableInputBudget());
      forall k | count <= k <= desired ensures Run(w, desired)[..k] == Run(w, k) { PrefixOfRun(w, desired, k); }
    }
  }

  // ---------------------------------------------------------------- what a ready context looks like

  lemma {:induction false} EarlierAtoms(v: View, es: seq<Event>, rule: SummaryRule, j: nat, e: Event)
    requires IsView(v, es, rule) && v.anchor.Some? && j < |v.atoms| && j != v.at && e in v.atoms[j].items
    ensures if j < v.at then e.id < v.anchor.value.id else e.id > v.anchor.value.id
  {
    var k :| 0 <= k < |v.atoms[j].items| && v.atoms[j].items[k] == e;
    if j < v.at { ItemsInOrder(v.atoms, j, k, v.at, 0); } else { ItemsInOrder(v.atoms, v.at, 0, j, k); }
  }

  /** The raw part of a request: the uncovered atoms in log order, with the latest user message taken out. */
  lemma {:induction false} RawPartIsUncovered(v: View)
    requires Indexed(v)
    ensures if v.anchor.None? then Before(v) + After(v) == Uncovered(v)
            else Before(v) + (if v.at < v.from then [] else [v.atoms[v.at]]) + After(v) == Uncovered(v)
  {
  }

  /** Everything rendered before the latest user message is older than it. */
  lemma {:induction false} OlderBefore(v: View, es: seq<Event>, rule: SummaryRule, i: nat, e: Event)
    requires IsView(v, es, rule) && Indexed(v) && v.anchor.Some? && i < |Before(v)| && e in Before(v)[i].items
    ensures e.id < v.anchor.value.id
  {
    hide IsView;
    EarlierAtoms(v, es, rule, v.from + i, e);
  }

  /** Everything rendered after it is newer. */
  lemma {:induction false} NewerAfter(v: View, es: seq<Event>, rule: SummaryRule, i: nat, e: Event)
    requires IsView(v, es, rule) && Indexed(v) && v.anchor.Some? && i < |After(v)| && e in After(v)[i].items
    ensures e.id > v.anchor.value.id
  {
    hide IsView;
    EarlierAtoms(v, es, rule, if v.at < v.from then v.from + i else v.at + 1 + i, e);
  }

  lemma {:induction false} LinesAppend(a: seq<Message>, b: seq<Message>, x: seq<Event>, y: seq<Event>)
    ensures MessageLines(a + b) == MessageLines(a) + MessageLines(b)
    ensures EventLines(x + y) == EventLines(x) + EventLines(y)
  {
    hide MessageLine, EventLine;
  }

  /** The atoms of a view, its uncovered ones in particular, hold the conversation of the log. */
  lemma {:induction false} UncoveredEvents(v: View, es: seq<Event>, rule: SummaryRule)
    requires Good(es) && IsView(v, es, rule) && Indexed(v)
    ensures forall a | a in v.atoms :: OneAtom(a)
    ensures Coverage(v.summary) <= |ContextEvents(es)|
    ensures Flatten(Uncovered(v)) == ContextEvents(es)[Coverage(v.summary)..]
  {
    hide ChainOf, IsTip, UsedSummary, ContextEvents, OneAtom, MandatoryIndex, WellFormed, AtomsOf, Good;
    FlattenIsContiguous(es);
    AtomsOfConversation(v.atoms, es);
    FlattenAppend(v.atoms[..v.from], Uncovered(v));
    assert v.atoms[..v.from] + Uncovered(v) == v.atoms;
  }

  lemma {:induction false} AtomsOfConversation(atoms: seq<Atom>, es: seq<Event>)
    requires WellFormed(atoms) && Flatten(atoms) == ContextEvents(es)
    ensures forall a | a in atoms :: OneAtom(a)
  {
    hide ContextEvents, Answers, Flatten, InContext;
    forall a | a in atoms ensures OneAtom(a) {
      var i :| 0 <= i < |atoms| && atoms[i] == a;
      ItemAt(atoms, i, 0);
      ContextEventsAreInContext(es, a.items[0]);
    }
  }

  lemma {:induction false} ContextEventsAreInContext(es: seq<Event>, e: Event)
    requires e in ContextEvents(es)
    ensures InContext(e.body)
  {
    if !(InContext(Last(es).body) && e == Last(es)) { ContextEventsAreInContext(Front(es), e); }
  }

  /** The conversation in a request: the raw atoms, with the latest user message between them. */
  function RawPart(v: View): seq<Message>
    requires Indexed(v)
  {
    RenderInOrder(Before(v), MandatoryId(v)) + AnchorMessage(v.anchor) + RenderInOrder(After(v), MandatoryId(v))
  }

  /**
   The conversation in a request says, line by line, what the context events say that the summary
   does not cover; a latest user message that the summary covers comes before them.
   */
  lemma {:induction false} RawPartReads(v: View, es: seq<Event>, rule: SummaryRule)
    requires Good(es) && IsView(v, es, rule) && Indexed(v)
    ensures Coverage(v.summary) <= |ContextEvents(es)|
    ensures v.anchor.Some? ==> EventLine(v.anchor.value) == Asked(v.anchor.value.body.text)
    ensures MessageLines(RawPart(v)) ==
            (if v.anchor.Some? && v.at < v.from then [EventLine(v.anchor.value)] else [])
            + EventLines(ContextEvents(es)[Coverage(v.summary)..])
  {
    hide IsView, RenderInOrder, OneAtom, MessageLine, EventLine, ContextEvents, MandatoryId, AnchorMessage, RawPart;
    UncoveredEvents(v, es, rule);
    UncoveredParts(v);
    RawPartIsUncovered(v);
    AnchorReads(v, es, rule);
    if v.anchor.Some? && v.at >= v.from {
      FlattenOne(v.atoms[v.at]);
      PartsRead(Before(v), [v.atoms[v.at]], After(v), AnchorMessage(v.anchor), MandatoryId(v));
    } else {
      PartsRead(Before(v), [], After(v), [], MandatoryId(v));
      RawPartWithout(v);
    }
  }

  lemma {:induction false} UncoveredParts(v: View)
    requires Indexed(v) && forall a | a in v.atoms :: OneAtom(a)
    ensures forall a | a in Before(v) + After(v) :: OneAtom(a)
    ensures RawPart(v) == RenderInOrder(Before(v), MandatoryId(v)) + AnchorMessage(v.anchor) + RenderInOrder(After(v), MandatoryId(v))
  {
    hide OneAtom, RenderInOrder, AnchorMessage;
  }

  /** Without the latest user message, or with it in front. */
  lemma {:induction false} RawPartWithout(v: View)
    requires Indexed(v) && (v.anchor.Some? ==> v.at < v.from)
    requires NonEmpty(Before(v)) && NonEmpty(After(v))
    ensures MessageLines(RawPart(v)) ==
            MessageLines(AnchorMessage(v.anchor))
            + MessageLines(RenderInOrder(Before(v), MandatoryId(v)) + [] + RenderInOrder(After(v), MandatoryId(v)))
  {
    hide MessageLine, RenderAtom, MandatoryId;
  }

  lemma {:induction false} PartsRead(a: seq<Atom>, b: seq<Atom>, c: seq<Atom>, x: seq<Message>, mandatory: Option<AtomId>)
    requires (forall t | t in a + c :: OneAtom(t)) && MessageLines(x) == EventLines(Flatten(b))
    ensures NonEmpty(a) && NonEmpty(c)
    ensures MessageLines(RenderInOrder(a, mandatory) + x + RenderInOrder(c, mandatory)) == EventLines(Flatten(a + b + c))
  {
    hide RenderInOrder, OneAtom, Flatten, MessageLine, EventLine, NonEmpty;
    AtomsRead(a, mandatory);
    AtomsRead(c, mandatory);
    FlattenAppend(a, b);
    FlattenAppend(a + b, c);
    LinesAppend(RenderInOrder(a, mandatory), x, Flatten(a), Flatten(b));
    LinesAppend(RenderInOrder(a, mandatory) + x, RenderInOrder(c, mandatory), Flatten(a + b), Flatten(c));
  }

  lemma {:induction false} AnchorReads(v: View, es: seq<Event>, rule: SummaryRule)
    requires IsView(v, es, rule)
    ensures MessageLines(AnchorMessage(v.anchor)) == if v.anchor.Some? then [EventLine(v.anchor.value)] else []
    ensures v.anchor.Some? ==>
              v.at < |v.atoms| && v.atoms[v.at].items == [v.anchor.value]
              && EventLine(v.anchor.value) == Asked(v.anchor.value.body.text)
  {
    hide AtomsOf, ChainOf, IsTip, UsedSummary, MandatoryIndex, WellFormed;
  }

  predicate BlockAt(needle: seq<Message>, hay: seq<Message>, i: nat) {
    i + |needle| <= |hay| && hay[i..i + |needle|] == needle
  }

  /** `needle` occurs as a block in `hay`. */
  ghost predicate Block(needle: seq<Message>, hay: seq<Message>) { exists i :: BlockAt(needle, hay, i) }

  lemma {:induction false} AtomIsBlock(atoms: seq<Atom>, i: nat, mandatory: Option<AtomId>)
    requires NonEmpty(atoms) && i < |atoms|
    ensures Block(RenderAtom(atoms[i], mandatory == Some(atoms[i].id)), RenderInOrder(atoms, mandatory))
  {
    var before, rest := atoms[..i], atoms[i..];
    assert before + rest == atoms;
    RenderAppend(before, rest, None, mandatory);
    RenderWithoutAnchor(atoms, None, mandatory);
    assert RenderHistory(rest, None, mandatory) == Piece(rest[0], None, mandatory) + RenderHistory(rest[1..], None, mandatory);
    assert BlockAt(Piece(rest[0], None, mandatory), RenderInOrder(atoms, mandatory), |RenderHistory(before, None, mandatory)|);
  }

  /** Where the mandatory atom is rendered: among the atoms before or after the latest user message. */
  lemma {:induction false} MandatoryPosition(v: View, es: seq<Event>, rule: SummaryRule) returns (earlier: bool, i: nat)
    requires IsView(v, es, rule) && Indexed(v) && v.mandatory.Some?
    ensures var a := v.atoms[v.mandatory.value];
            && a.reasoning.Some? && a.items[0].body.ToolCalls?
            && (if earlier then i < |Before(v)| && Before(v)[i] == a else i < |After(v)| && After(v)[i] == a)
  {
    hide AtomsOf, ChainOf, IsTip, UsedSummary, WellFormed, HoldsId;
    var m := v.mandatory.value;
    assert v.atoms[m].items[0].body.ToolCalls?;
    assert m != v.at;
    earlier := m < v.at;
    i := if m < v.at || v.at < v.from then m - v.from else m - v.at - 1;
  }

  /** The atom is a block of the conversation, with its reasoning. */
  ghost predicate ShownWithReasoning(v: View, a: Atom)
    requires Indexed(v)
  {
    && a.items != [] && a.reasoning.Some?
    && var shown := RenderAtom(a, true);
    && shown != [] && shown[0].Assistant? && shown[0].reasoning == a.reasoning
    && (Block(shown, RenderInOrder(Before(v), MandatoryId(v))) || Block(shown, RenderInOrder(After(v), MandatoryId(v))))
  }

  /** The mandatory atom is raw in the request, reasoning included. */
  lemma {:induction false} MandatoryStaysRaw(v: View, es: seq<Event>, rule: SummaryRule)
    requires IsView(v, es, rule) && Indexed(v) && v.mandatory.Some?
    ensures ShownWithReasoning(v, v.atoms[v.mandatory.value])
  {
    hide IsView, RenderInOrder;
    var earlier, i := MandatoryPosition(v, es, rule);
    AtomIsBlock(if earlier then Before(v) else After(v), i, MandatoryId(v));
  }

  // ---------------------------------------------------------------- summaries over a whole run

  /** The latest user message of a log's atoms. */
  function AnchorOf(atoms: seq<Atom>): Option<Event> {
    if atoms == [] then None
    else
      var items := atoms[AnchorIndex(atoms)].items;
      if items != [] && items[0].body.UserMessage? then Some(items[0]) else None
  }

  /** How many items may be covered: those before the mandatory atom, or all. */
  ghost function MandatoryLimit(atoms: seq<Atom>): nat
    requires NonEmpty(atoms)
  {
    var mandatory := MandatoryIndex(atoms, AnchorOf(atoms));
    if mandatory.Some? then Offset(atoms, mandatory.value) else |Flatten(atoms)|
  }

  /** A primary event's turn is an earlier user message, or the event itself. */
  lemma {:induction false} TurnsAreEarlier(es: seq<Event>, i: nat)
    requires Written(es) && i < |es| && !IsDerived(es[i].body)
    ensures es[i].turn.Some? ==> es[i].turn.value <= es[i].id
    ensures es[i].body.UserMessage? ==> es[i].turn == Some(es[i].id)
  {
    WrittenPrefix(es, i);
    TurnAfterIsUser(es[..i]);
  }

  /** A good log's atoms hold events of the log. */
  lemma {:induction false} AtomEvents(es: seq<Event>, i: nat)
    requires Good(es) && i < |AtomsOf(es)|
    ensures NonEmpty(AtomsOf(es))
    ensures var e := AtomsOf(es)[i].items[0]; 1 <= e.id <= |es| && es[e.id - 1] == e
  {
    AtomsAreGroups(es);
    GroupHeads(es, i);
    var k :| 0 <= k < |es| && es[k] == Groups(es)[i][0];
    WrittenSeq(es, k);
  }

  lemma {:induction false} LastCandidateIsLast(atoms: seq<Atom>, turn: Option<nat>, i: nat)
    requires NonEmpty(atoms) && i < |atoms| && IsCandidate(atoms[i], turn)
    requires forall j | i < j < |atoms| :: !IsCandidate(atoms[j], turn)
    ensures LastCandidate(atoms, turn) == Some(i)
  {
    var r := LastCandidate(atoms, turn);
  }

  /** A later user message leaves every call atom of the earlier log out of its turn. */
  lemma {:induction false} NewTurnExcludesOldAtoms(es: seq<Event>, n: nat, i: nat, at: nat)
    requires Good(es) && n <= |es| && NoOpenStep(es[..n])
    requires i < |AtomsOf(es[..n])| <= at < |AtomsOf(es)|
    requires NonEmpty(AtomsOf(es)) && AtomsOf(es)[at].items[0].body.UserMessage?
    ensures !IsCandidate(AtomsOf(es)[i], AtomsOf(es)[at].items[0].turn)
  {
    var atoms := AtomsOf(es);
    AtomsAreStable(es, n);
    AtomsAreGroups(es);
    ProtocolHolds(es);
    AtomEvents(es, i);
    AtomEvents(es, at);
    var e, anchor := atoms[i].items[0], atoms[at].items[0];
    assert e.id < anchor.id;
    TurnsAreEarlier(es, anchor.id - 1);
    if e.body.ToolCalls? { TurnsAreEarlier(es, e.id - 1); }
  }

  /** The items that may be covered only grow with the log. */
  lemma {:induction false} MandatoryLimitGrows(es: seq<Event>, n: nat)
    requires Good(es) && n <= |es| && NoOpenStep(es[..n])
    ensures NonEmpty(AtomsOf(es[..n])) && NonEmpty(AtomsOf(es))
    ensures MandatoryLimit(AtomsOf(es[..n])) <= MandatoryLimit(AtomsOf(es))
  {
    GoodPrefix(es, n);
    AtomsAreGroups(es);
    AtomsAreGroups(es[..n]);
    AtomsAreStable(es, n);
    var a, b := AtomsOf(es[..n]), AtomsOf(es);
    FlattenPrefix(a, b);
    OffsetsAgree(a, b, |a|);
    var was, now := MandatoryIndex(a, AnchorOf(a)), MandatoryIndex(b, AnchorOf(b));
    if was.Some? { OffsetMonotone(a, was.value, |a|); }
    if now.Some? {
      if now.value >= |a| {
        OffsetMonotone(b, |a|, now.value);
      } else {
        MandatoryIsOld(es, n, now.value);
        OffsetsAgree(a, b, now.value);
      }
    }
  }

  lemma {:induction false} OffsetsAgree(a: seq<Atom>, b: seq<Atom>, i: nat)
    requires a <= b && i <= |a|
    ensures Offset(a, i) == Offset(b, i)
    ensures i == |a| ==> Offset(b, i) == |Flatten(a)|
  {
    assert a[..i] == b[..i];
    assert a[..|a|] == a;
  }

  /** A mandatory atom that the shorter log already had was mandatory there. */
  lemma {:induction false} MandatoryIsOld(es: seq<Event>, n: nat, m: nat)
    requires Good(es) && n <= |es| && NoOpenStep(es[..n])
    requires NonEmpty(AtomsOf(es[..n])) && NonEmpty(AtomsOf(es))
    requires MandatoryIndex(AtomsOf(es), AnchorOf(AtomsOf(es))) == Some(m) && m < |AtomsOf(es[..n])|
    ensures MandatoryIndex(AtomsOf(es[..n]), AnchorOf(AtomsOf(es[..n]))) == Some(m)
  {
    AtomsAreStable(es, n);
    var a, b := AtomsOf(es[..n]), AtomsOf(es);
    var at, anchor := AnchorIndex(b), AnchorOf(b).value;
    if at >= |a| {
      NewTurnExcludesOldAtoms(es, n, m, at);
    }
    AnchorIsOld(a, b);
    LastCandidateIsLast(a, anchor.turn, m);
  }

  lemma {:induction false} AnchorIsOld(a: seq<Atom>, b: seq<Atom>)
    requires a <= b && NonEmpty(b) && AnchorOf(b).Some? && AnchorIndex(b) < |a|
    ensures AnchorOf(a) == AnchorOf(b)
    decreases |b|
  {
    if |a| < |b| {
      assert a <= Front(b);
      if Last(b).items[0].body.UserMessage? {
        assert false;
      }
      assert AnchorIndex(b) == AnchorIndex(Front(b));
      AnchorIsOld(a, Front(b));
    } else {
      assert a == b;
    }
  }

  /**
   The record was planned on the log `log`, with no response in progress, from that log's chain
   and atoms, and stops short of the mandatory atom.
   */
  ghost predicate PlannedOn(log: seq<Event>, r: SummaryRecord, rule: SummaryRule) {
    && NoOpenStep(log)
    && NonEmpty(AtomsOf(log))
    && Acceptable(ChainOf(log, AtomsOf(log), rule), r, AtomsOf(log), rule)
    && r.coveredCount <= MandatoryLimit(AtomsOf(log))
  }

  /** `b` is no summary, or was planned on some prefix of `log`. */
  ghost predicate PlannedBody(log: seq<Event>, b: Body, rule: SummaryRule) {
    b.Condensed? ==> exists n | 0 <= n <= |log| :: PlannedOn(log[..n], b.record, rule)
  }

  /** Every summary in the log was planned on an earlier point of it. */
  ghost predicate Planned(es: seq<Event>, rule: SummaryRule) {
    es == [] || (Planned(Front(es), rule) && PlannedBody(Front(es), Last(es).body, rule))
  }

  lemma {:induction false} PlannedPrefix(es: seq<Event>, k: nat, rule: SummaryRule)
    requires Planned(es, rule) && k <= |es|
    ensures Planned(es[..k], rule)
    ensures k < |es| ==> PlannedBody(es[..k], es[k].body, rule)
    decreases |es|
  {
    if k == |es| {
      assert es[..k] == es;
    } else if k == |es| - 1 {
      assert es[..k] == Front(es);
    } else {
      PlannedPrefix(Front(es), k, rule);
      assert Front(es)[..k] == es[..k] && Front(es)[k] == es[k];
    }
  }

  /** The plan of the summary at `es[i]`. */
  lemma {:induction false} PlanOf(es: seq<Event>, i: nat, rule: SummaryRule) returns (n: nat)
    requires Planned(es, rule) && i < |es| && es[i].body.Condensed?
    ensures n <= i && PlannedOn(es[..n], es[i].body.record, rule)
  {
    hide PlannedOn, Planned;
    PlannedPrefix(es, i, rule);
    n :| 0 <= n <= i && PlannedOn(es[..i][..n], es[i].body.record, rule);
    assert es[..i][..n] == es[..n];
  }

  lemma {:induction false} PlannedAppend(es: seq<Event>, e: Event, rule: SummaryRule)
    requires Planned(es, rule) && PlannedBody(es, e.body, rule)
    ensures Planned(es + [e], rule)
  {
    FrontLast(es, e);
  }

  /** Each entry of a chain is the summary event of its number. */
  lemma {:induction false} ChainEntry(es: seq<Event>, atoms: seq<Atom>, rule: SummaryRule, k: nat)
    requires Written(es) && k in ChainOf(es, atoms, rule)
    ensures 1 <= k <= |es| && es[k - 1].body.Condensed?
    ensures |ChainOf(es, atoms, rule)[k].covered| == es[k - 1].body.record.coveredCount
  {
    hide Strip, FollowsIn, OnBoundary, SourceIds, Written;
    ChainIdsBounded(es, atoms, rule);
    WrittenPrefix(es, |es| - 1);
    WrittenSeq(es, |es| - 1);
    assert es[..|es| - 1] == Front(es);
    if k in ChainOf(Front(es), atoms, rule) {
      ChainIdsBounded(Front(es), atoms, rule);
      ChainEntry(Front(es), atoms, rule, k);
    }
  }

  /** Every planned summary is in the chain of every later good log. */
  lemma {:induction false} PlannedIsAccepted(es: seq<Event>, i: nat, n: nat, rule: SummaryRule)
    requires Good(es) && n <= i < |es| && es[i].body.Condensed? && PlannedOn(es[..n], es[i].body.record, rule)
    ensures es[i].id in ChainOf(es, AtomsOf(es), rule)
  {
    hide AtomsOf, Acceptable, ScanAll, NoOpenStep, MandatoryLimit;
    var a, b := AtomsOf(es[..n]), AtomsOf(es);
    AtomsAreStable(es, n);
    WrittenPrefix(es, i);
    ChainIsStable(es[..i], n, a, b, rule);
    assert es[..i][..n] == es[..n];
    AcceptableIsStable(ChainOf(es[..n], a, rule), ChainOf(es[..i], b, rule), es[i].body.record, a, b, rule);
    var upto := es[..i + 1];
    assert Front(upto) == es[..i] && Last(upto) == es[i];
    ChainIsStable(es, i + 1, b, b, rule);
  }

  /** A summary planned in a run is in the chain of the run's log. */
  lemma {:induction false} PlannedRunsAccept(es: seq<Event>, i: nat, rule: SummaryRule)
    requires Good(es) && Planned(es, rule) && i < |es| && es[i].body.Condensed?
    ensures es[i].id == i + 1 && i + 1 in ChainOf(es, AtomsOf(es), rule)
  {
    var n := PlanOf(es, i, rule);
    PlannedIsAccepted(es, i, n, rule);
    WrittenSeq(es, i);
  }

  /** No summary of a planned run covers the mandatory atom. */
  lemma {:induction false} PlannedRunsStayClear(es: seq<Event>, k: nat, rule: SummaryRule)
    requires Good(es) && Planned(es, rule) && k in ChainOf(es, AtomsOf(es), rule)
    ensures NonEmpty(AtomsOf(es))
    ensures |ChainOf(es, AtomsOf(es), rule)[k].covered| <= MandatoryLimit(AtomsOf(es))
  {
    hide AtomsOf, ChainOf, Acceptable, MandatoryLimit, Planned, NoOpenStep;
    AtomsAreGroups(es);
    ChainEntry(es, AtomsOf(es), rule, k);
    var n := PlanOf(es, k - 1, rule);
    MandatoryLimitGrows(es, n);
  }

  lemma {:induction false} ViewAnchor(v: View, es: seq<Event>, rule: SummaryRule)
    requires IsView(v, es, rule)
    ensures v.anchor == AnchorOf(v.atoms)
  {
    if v.anchor.Some? {
      AnchorIndexIsLast(v.atoms, v.anchor.value, v.at);
    } else if v.atoms != [] {
      assert v.atoms[AnchorIndex(v.atoms)] in v.atoms;
    }
  }

  /** So the builder always uses the tip: the fallback for a covered mandatory atom never triggers. */
  lemma {:induction false} TipIsUsed(v: View, es: seq<Event>, rule: SummaryRule)
    requires Good(es) && Planned(es, rule) && IsView(v, es, rule)
    ensures v.summary == v.tip
  {
    ViewAnchor(v, es, rule);
    if v.tip.Some? {
      PlannedRunsStayClear(es, v.tip.value.eventId, rule);
      MandatoryBounds(v.atoms, v.tip);
    }
  }

  lemma {:induction false} MandatoryBounds(atoms: seq<Atom>, tip: Option<RollingSummary>)
    requires NonEmpty(atoms) && Coverage(tip) <= MandatoryLimit(atoms)
    ensures UsedSummary(tip, atoms, MandatoryIndex(atoms, AnchorOf(atoms))) == tip
  {
  }

  /** Quiet and non-summary growth leaves the chain as it was. */
  lemma {:induction false} ChainWithoutNewSummaries(es: seq<Event>, n: nat, rule: SummaryRule)
    requires Good(es) && Planned(es, rule) && n <= |es| && NoOpenStep(es[..n])
    requires forall i | n <= i < |es| :: !es[i].body.Condensed?
    ensures ChainOf(es, AtomsOf(es), rule) == ChainOf(es[..n], AtomsOf(es[..n]), rule)
  {
    hide *;
    AtomsAreStable(es, n);
    StableMeans(es, n, rule);
    var before, after := ChainOf(es[..n], AtomsOf(es[..n]), rule), ChainOf(es, AtomsOf(es), rule);
    forall k | k in after ensures k in before { EntryIsOld(es, n, rule, k); }
  }

  lemma {:induction false} StableMeans(es: seq<Event>, n: nat, rule: SummaryRule)
    requires Good(es) && n <= |es| && AtomsOf(es[..n]) <= AtomsOf(es)
    ensures var before, after := ChainOf(es[..n], AtomsOf(es[..n]), rule), ChainOf(es, AtomsOf(es), rule);
            forall k | k in before :: k in after && after[k] == before[k]
  {
    hide AtomsOf, ChainOf;
    ChainIsStable(es, n, AtomsOf(es[..n]), AtomsOf(es), rule);
  }

  lemma {:induction false} GoodIsWritten(es: seq<Event>)
    requires Good(es)
    ensures Written(es)
  {
  }

  lemma {:induction false} EntryIsOld(es: seq<Event>, n: nat, rule: SummaryRule, k: nat)
    requires Good(es) && Planned(es, rule) && n <= |es|
    requires forall i | n <= i < |es| :: !es[i].body.Condensed?
    requires k in ChainOf(es, AtomsOf(es), rule)
    ensures k in ChainOf(es[..n], AtomsOf(es[..n]), rule)
  {
    hide *;
    GoodPrefix(es, n);
    GoodIsWritten(es);
    PlannedPrefix(es, n, rule);
    ChainEntry(es, AtomsOf(es), rule, k);
    assert k - 1 < n && es[..n][k - 1] == es[k - 1];
    PlannedRunsAccept(es[..n], k - 1, rule);
  }

  /**
   One condensation, end to end.  A plan built at `es[..n]` is written at the end of the good log
   `es`, however much other work was appended in between.  The next build accepts it: it is the
   new tip, it covers strictly more than the tip the plan was built on, and the run stays planned.
   */
  lemma {:induction false} CondensationAdvances(
    m: Measure, es: seq<Event>, n: nat, v: View, input: BuildInput, p: CondensationPlan, r: BudgetReport, summary: string, e: Event)
    requires var rule := Rule(m, input.caps);
             && Good(es) && n <= |es| && NoOpenStep(es[..n]) && Planned(es, rule)
             && (forall i | n <= i < |es| :: !es[i].body.Condensed?)
             && IsView(v, es[..n], rule) && Indexed(v) && PlanMatches(m, v, input, n, p, r)
             && Strip(summary) != "" && rule.estimate(summary) <= rule.maxTokens
    requires Stamped(es, e) && e.body == Condensed(RecordFor(p.previous, p.sourceIds, summary))
    ensures var rule := Rule(m, input.caps);
            && Good(es + [e]) && Planned(es + [e], rule)
            && var chain := ChainOf(es + [e], AtomsOf(es + [e]), rule);
            && e.id in chain && IsTip(chain, Some(chain[e.id]))
            && |chain[e.id].covered| == Coverage(v.tip) + |p.sourceIds| > Coverage(v.tip)
  {
    var rule := Rule(m, input.caps);
    GoodPrefix(es, n);
    PlannedPrefix(es, n, rule);
    TipIsUsed(v, es[..n], rule);
    ChainWithoutNewSummaries(es, n, rule);
    WriterReaderAgree(es, n, p.previous, p.sourceIds, summary, e, rule);
    PlanIsPlanned(m, es[..n], v, input, p, r, summary);
    PlannedAppend(es, e, rule);
  }

  lemma {:induction false} PlanIsPlanned(
    m: Measure, log: seq<Event>, v: View, input: BuildInput, p: CondensationPlan, r: BudgetReport, summary: string)
    requires var rule := Rule(m, input.caps);
             && NoOpenStep(log) && IsView(v, log, rule) && Indexed(v) && PlanMatches(m, v, input, |log|, p, r)
             && v.summary == v.tip
             && Strip(summary) != "" && rule.estimate(summary) <= rule.maxTokens
    ensures PlannedOn(log, RecordFor(p.previous, p.sourceIds, summary), Rule(m, input.caps))
  {
    hide AtomsOf, ChainOf, MandatoryLimit, GoalsOf, IsDesiredCut, LongestFit, Strip, WellFormed, MandatoryIndex;
    PlanStopsShort(m, log, v, input, p, r);
  }

  lemma {:induction false} PlanStopsShort(
    m: Measure, es: seq<Event>, v: View, input: BuildInput, p: CondensationPlan, r: BudgetReport)
    requires IsView(v, es, Rule(m, input.caps)) && Indexed(v) && PlanMatches(m, v, input, |es|, p, r)
    ensures Coverage(p.previous) + |p.sourceIds| <= MandatoryLimit(v.atoms)
  {
    ViewAnchor(v, es, Rule(m, input.caps));
    RunStopsShort(v, |p.sourceAtoms|);
  }

  lemma {:induction false} RunStopsShort(v: View, n: nat)
    requires Indexed(v) && n <= EligibleCount(v) && v.mandatory == MandatoryIndex(v.atoms, AnchorOf(v.atoms))
    ensures Coverage(v.summary) + |SourceIds(Run(v, n))| <= MandatoryLimit(v.atoms)
  {
    hide MandatoryIndex, AnchorOf, Flatten;
    assert v.atoms[..v.from] + Run(v, n) == v.atoms[..v.from + n];
    FlattenAppend(v.atoms[..v.from], Run(v, n));
    OffsetMonotone(v.atoms, v.from + n, if v.mandatory.Some? then v.mandatory.value else |v.atoms|);
    assert v.atoms[..|v.atoms|] == v.atoms;
  }
}
