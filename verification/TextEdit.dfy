/**
 The text part of `replace_text`: substring counting and replacement as Python's `str.count`
 and `str.replace` do them, and the newline adaptation of the patch texts.
 */
module TextEdit {
  predicate Has(s: string, t: string, i: nat) { i + |t| <= |s| && s[i..i + |t|] == t }

  /** `s.count(t)`: occurrences that do not overlap, found from the left. */
  function Count(s: string, t: string): nat
    requires t != ""
    decreases |s|
  {
    if |s| < |t| then 0
    else if s[..|t|] == t then 1 + Count(s[|t|..], t)
    else Count(s[1..], t)
  }

  /** `s.replace(t, r)` */
  function ReplaceAll(s: string, t: string, r: string): string
    requires t != ""
    decreases |s|
  {
    if |s| < |t| then s
    else if s[..|t|] == t then r + ReplaceAll(s[|t|..], t, r)
    else [s[0]] + ReplaceAll(s[1..], t, r)
  }

  /** `s.replace(t, r, 1)` */
  function ReplaceFirst(s: string, t: string, r: string): string
    requires t != ""
    decreases |s|
  {
    if |s| < |t| then s
    else if s[..|t|] == t then r + s[|t|..]
    else [s[0]] + ReplaceFirst(s[1..], t, r)
  }

  lemma {:induction false} HasShift(s: string, t: string, k: nat, i: nat)
    requires k <= |s|
    ensures Has(s[k..], t, i) <==> Has(s, t, k + i)
  {
    if k + i + |t| <= |s| { assert s[k..][i..i + |t|] == s[k + i..k + i + |t|]; }
  }

  lemma {:induction false} CountPositive(s: string, t: string, i: nat)
    requires t != "" && Has(s, t, i)
    ensures Count(s, t) >= 1
    decreases |s|
  {
    if s[..|t|] != t {
      assert i > 0;
      HasShift(s, t, 1, i - 1);
      CountPositive(s[1..], t, i - 1);
    }
  }

  lemma {:induction false} CountUnfolds(s: string, t: string)
    requires t != ""
    ensures |s| < |t| ==> Count(s, t) == 0
    ensures |s| >= |t| ==> Count(s, t) == if s[..|t|] == t then 1 + Count(s[|t|..], t) else Count(s[1..], t)
  {
  }

  /** The first occurrence: everything before it holds none, and counting goes on after it. */
  lemma {:induction false} FirstOccurrence(s: string, t: string) returns (at: nat)
    requires t != "" && Count(s, t) >= 1
    ensures Has(s, t, at) && at + |t| <= |s| && forall i: nat | i < at :: !Has(s, t, i)
    ensures Count(s, t) == 1 + Count(s[at + |t|..], t)
    decreases |s|
  {
    hide Has, Count;
    CountUnfolds(s, t);
    HasAtStart(s, t);
    if s[..|t|] == t {
      at := 0;
    } else {
      var rest := FirstOccurrence(s[1..], t);
      at := rest + 1;
      HasShift(s, t, 1, rest);
      HasMeans(s[1..], t, rest);
      DropTwice(s, 1, rest + |t|);
      forall i: nat | i < at ensures !Has(s, t, i) {
        if i > 0 { HasShift(s, t, 1, i - 1); }
      }
    }
  }

  lemma {:induction false} DropTwice(s: string, k: nat, m: nat)
    requires k + m <= |s|
    ensures s[k..][m..] == s[k + m..]
  {
  }

  lemma {:induction false} HasAtStart(s: string, t: string)
    requires |t| <= |s|
    ensures Has(s, t, 0) <==> s[..|t|] == t
  {
    assert s[0..0 + |t|] == s[..|t|];
  }

  /** `replace` with a limit of one rewrites the first occurrence. */
  lemma {:induction false} ReplacesFirst(s: string, t: string, r: string, at: nat)
    requires t != "" && Has(s, t, at) && forall i: nat | i < at :: !Has(s, t, i)
    ensures ReplaceFirst(s, t, r) == s[..at] + r + s[at + |t|..]
    decreases |s|
  {
    hide Has;
    HasMeans(s, t, at);
    HasAtStart(s, t);
    if at > 0 {
      assert !Has(s, t, 0);
      HasShift(s, t, 1, at - 1);
      forall i: nat | i < at - 1 ensures !Has(s[1..], t, i) { HasShift(s, t, 1, i); assert !Has(s, t, i + 1); }
      ReplacesFirst(s[1..], t, r, at - 1);
      RewriteFromHead(s, t, r, at);
    }
  }

  lemma {:induction false} RewriteFromHead(s: string, t: string, r: string, at: nat)
    requires 0 < at && at + |t| <= |s|
    ensures [s[0]] + (s[1..][..at - 1] + r + s[1..][at - 1 + |t|..]) == s[..at] + r + s[at + |t|..]
  {
    assert s[..at] == [s[0]] + s[1..][..at - 1];
    assert s[1..][at - 1 + |t|..] == s[at + |t|..];
  }

  lemma {:induction false} HasMeans(s: string, t: string, at: nat)
    requires Has(s, t, at)
    ensures at + |t| <= |s| && s == s[..at] + t + s[at + |t|..]
  {
  }

  /** `t` occurs first at `i`, and not again at or after its end. */
  ghost predicate CountedOnceAt(s: string, t: string, i: nat) {
    && Has(s, t, i)
    && (forall j: nat | j < i :: !Has(s, t, j))
    && (forall j: nat | j >= i + |t| :: !Has(s, t, j))
  }

  /** What a count of one means. */
  lemma {:induction false} CountOne(s: string, t: string)
    requires t != ""
    ensures Count(s, t) == 1 <==> exists i: nat :: CountedOnceAt(s, t, i)
  {
    hide Count, Has;
    if i: nat :| CountedOnceAt(s, t, i) {
      CountPositive(s, t, i);
    }
    if Count(s, t) >= 1 {
      var at := FirstOccurrence(s, t);
      if Count(s, t) == 1 {
        assert CountedOnceAt(s, t, at) by { forall j: nat | j >= at + |t| ensures !Has(s, t, j) {
          HasShift(s, t, at + |t|, j - at - |t|);
          if Has(s, t, j) { CountPositive(s[at + |t|..], t, j - at - |t|); }
        } }
      } else {
        var next := FirstOccurrence(s[at + |t|..], t);
        HasShift(s, t, at + |t|, next);
      }
    }
  }

  /** `s` holds `t` at one place only. */
  ghost predicate Unique(s: string, t: string) {
    exists i: nat :: Has(s, t, i) && forall j: nat | Has(s, t, j) :: j == i
  }

  /** No proper end of `t` is also a beginning of it. */
  ghost predicate Borderless(t: string) { forall k | 0 < k < |t| :: t[k..] != t[..|t| - k] }

  /**
   The edit promises a unique match but counts occurrences that do not overlap.  The count
   decides uniqueness for every text exactly when `t` cannot overlap itself.
   */
  lemma {:induction false} CountDecidesUniqueness(t: string)
    requires t != ""
    ensures Borderless(t) <==> forall s :: Count(s, t) == 1 <==> Unique(s, t)
  {
    hide Unique, Count;
    if Borderless(t) {
      forall s ensures Count(s, t) == 1 <==> Unique(s, t) { UniqueWhenBorderless(s, t); }
    } else {
      CountedOnceTwice(t);
    }
  }

  lemma {:induction false} CountedOnceTwice(t: string)
    requires t != "" && !Borderless(t)
    ensures exists s :: Count(s, t) == 1 && !Unique(s, t)
  {
    hide Count, Unique, Has;
    var k :| 0 < k < |t| && t[k..] == t[..|t| - k];
    OverlappingPair(t, k);
    var s := t[..k] + t;
    assert Count(s, t) == 1 && !Unique(s, t);
  }

  lemma {:induction false} OverlapIsBorder(s: string, t: string, i: nat, j: nat)
    requires Has(s, t, i) && Has(s, t, j)
    ensures i < j < i + |t| ==> !Borderless(t)
  {
    if i < j < i + |t| {
      var k := j - i;
      assert t[k..] == s[i..i + |t|][k..] == s[j..i + |t|];
      assert t[..|t| - k] == s[j..j + |t|][..|t| - k] == s[j..i + |t|];
    }
  }

  lemma {:induction false} UniqueWhenBorderless(s: string, t: string)
    requires t != "" && Borderless(t)
    ensures Count(s, t) == 1 <==> Unique(s, t)
  {
    CountOne(s, t);
    if Count(s, t) == 1 {
      var i: nat :| CountedOnceAt(s, t, i);
      forall j: nat | Has(s, t, j) ensures j == i { OverlapIsBorder(s, t, i, j); }
    }
    if Unique(s, t) {
      var i: nat :| Has(s, t, i) && forall j: nat | Has(s, t, j) :: j == i;
      assert CountedOnceAt(s, t, i);
    }
  }

  /** A text with a border `t`: counted once, present twice. */
  lemma {:induction false} OverlappingPair(t: string, k: nat)
    requires 0 < k < |t| && t[k..] == t[..|t| - k]
    ensures var s := t[..k] + t; Count(s, t) == 1 && Has(s, t, 0) && Has(s, t, k) && !Unique(s, t)
  {
    var s := t[..k] + t;
    assert t == t[..k] + t[k..];
    assert s[..|t|] == t[..k] + t[..|t| - k] == t;
    assert Has(s, t, 0) && Has(s, t, k);
    assert |s[|t|..]| == k;
    assert Count(s, t) == 1 + Count(s[|t|..], t);
  }

  // ---------------------------------------------------------------- newlines

  datatype Newline = Crlf | Lf | Cr

  function Chars(n: Newline): string {
    match n
    case Crlf => "\r\n"
    case Lf => "\n"
    case Cr => "\r"
  }

  predicate Contains(s: string, t: string) { exists i: nat | i <= |s| :: Has(s, t, i) }

  /** The newline styles that the program detects in a text. */
  function Styles(s: string): seq<Newline> {
    var bare := ReplaceAll(s, "\r\n", "");
    (if Contains(s, "\r\n") then [Crlf] else [])
    + (if Contains(bare, "\n") then [Lf] else [])
    + (if Contains(bare, "\r") then [Cr] else [])
  }

  function AdaptTo(text: string, n: Newline): string {
    ReplaceAll(ReplaceAll(ReplaceAll(text, "\r\n", "\n"), "\r", "\n"), "\n", Chars(n))
  }

  /** `_adapt_patch_newlines`: the patch follows a file that has a single newline style. */
  function Adapted(before: string, text: string): string {
    var styles := Styles(before);
    if |styles| == 1 then AdaptTo(text, styles[0]) else text
  }

  /** Every newline of the text has the style `n`. */
  predicate Follows(s: string, n: Newline) {
    match n
    case Crlf =>
      && (forall i | 0 <= i < |s| && s[i] == '\r' :: i + 1 < |s| && s[i + 1] == '\n')
      && (forall i | 0 <= i < |s| && s[i] == '\n' :: i > 0 && s[i - 1] == '\r')
    case Lf => '\r' !in s
    case Cr => '\n' !in s
  }

  lemma {:induction false} ContainsChar(s: string, c: char)
    ensures Contains(s, [c]) <==> c in s
  {
    if Contains(s, [c]) {
      var i: nat :| i <= |s| && Has(s, [c], i);
      assert s[i] == s[i..i + 1][0];
    }
    if c in s {
      var i :| 0 <= i < |s| && s[i] == c;
      assert Has(s, [c], i);
    }
  }

  lemma {:induction false} NothingToReplace(s: string, t: string, r: string)
    requires t != "" && !Contains(s, t)
    ensures ReplaceAll(s, t, r) == s
    decreases |s|
  {
    if |s| >= |t| {
      assert !Has(s, t, 0);
      forall i: nat | i <= |s[1..]| ensures !Has(s[1..], t, i) {
        HasShift(s, t, 1, i);
        if i + 1 <= |s| { assert !Has(s, t, i + 1); }
      }
      NothingToReplace(s[1..], t, r);
    }
  }

  /** A text whose bare part has no newline character left uses only CRLF. */
  lemma {:induction false} OnlyCrlf(s: string)
    requires '\n' !in ReplaceAll(s, "\r\n", "") && '\r' !in ReplaceAll(s, "\r\n", "")
    ensures Follows(s, Crlf)
    decreases |s|
  {
    if |s| >= 2 {
      if s[..2] == "\r\n" {
        OnlyCrlf(s[2..]);
        assert s == s[..2] + s[2..];
      } else {
        var rest := ReplaceAll(s[1..], "\r\n", "");
        assert s[0] == ([s[0]] + rest)[0];
        forall c | c in rest ensures c in [s[0]] + rest { }
        OnlyCrlf(s[1..]);
        assert s == [s[0]] + s[1..];
      }
    } else if |s| == 1 {
      assert s[0] in s;
    }
  }

  /** The single style that the program detects is the style of every newline of the text. */
  lemma {:induction false} DetectedStyle(s: string)
    requires |Styles(s)| == 1
    ensures Follows(s, Styles(s)[0])
  {
    var bare := ReplaceAll(s, "\r\n", "");
    ContainsChar(bare, '\n');
    ContainsChar(bare, '\r');
    if Contains(s, "\r\n") {
      OnlyCrlf(s);
    } else {
      NothingToReplace(s, "\r\n", "");
    }
  }

  /** A text that uses only CRLF has nothing of a newline left in its bare part. */
  lemma {:induction false} BareOfCrlf(s: string)
    requires Follows(s, Crlf)
    ensures '\n' !in ReplaceAll(s, "\r\n", "") && '\r' !in ReplaceAll(s, "\r\n", "")
    decreases |s|
  {
    assert |s| >= 2 ==> s[..2] == [s[0], s[1]];
    if |s| >= 2 && s[..2] == "\r\n" {
      assert s == "" + "\r\n" + s[2..];
      AroundFollows("", "\r\n", s[2..], Crlf);
      BareOfCrlf(s[2..]);
      assert ReplaceAll(s, "\r\n", "") == ReplaceAll(s[2..], "\r\n", "");
    } else if s != "" {
      assert s[0] != '\r' && s[0] != '\n';
      assert forall i | 0 <= i < |s[1..]| :: s[1..][i] == s[i + 1];
      BareOfCrlf(s[1..]);
      var rest := ReplaceAll(s[1..], "\r\n", "");
      assert ReplaceAll(s, "\r\n", "") == [s[0]] + rest || |s| == 1;
    }
  }

  lemma {:induction false} CrlfIsContained(s: string, i: nat)
    requires Follows(s, Crlf) && i < |s| && (s[i] == '\r' || s[i] == '\n')
    ensures Contains(s, "\r\n")
  {
    var at := if s[i] == '\r' then i else i - 1;
    assert s[at..at + 2] == "\r\n";
    assert Has(s, "\r\n", at);
  }

  /** A style is the only one detected exactly when the text has a newline and every one has that style. */
  lemma {:induction false} OneStyle(s: string, n: Newline)
    ensures Styles(s) == [n] <==> Follows(s, n) && ('\r' in s || '\n' in s)
    ensures Styles(s) == [] <==> '\r' !in s && '\n' !in s
  {
    hide Follows, ReplaceAll, Contains;
    if |Styles(s)| == 1 { DetectedStyle(s); }
    SomeNewline(s);
    if Follows(s, n) && ('\r' in s || '\n' in s) { FollowedIsDetected(s, n); }
  }

  lemma {:induction false} NoCrlf(s: string)
    ensures Contains(s, "\r\n") ==> '\r' in s && '\n' in s
  {
    if Contains(s, "\r\n") {
      var i: nat :| i <= |s| && Has(s, "\r\n", i);
      assert s[i] == s[i..i + 2][0] && s[i + 1] == s[i..i + 2][1];
    }
  }

  lemma {:induction false} FollowedIsDetected(s: string, n: Newline)
    requires Follows(s, n) && ('\r' in s || '\n' in s)
    ensures Styles(s) == [n]
  {
    hide ReplaceAll, Contains;
    var bare := ReplaceAll(s, "\r\n", "");
    ContainsChar(bare, '\n');
    ContainsChar(bare, '\r');
    if n.Crlf? {
      BareOfCrlf(s);
      var i :| 0 <= i < |s| && (s[i] == '\r' || s[i] == '\n');
      CrlfIsContained(s, i);
    } else {
      NoCrlf(s);
      NothingToReplace(s, "\r\n", "");
    }
  }

  /** Something is detected exactly when there is a newline. */
  lemma {:induction false} SomeNewline(s: string)
    ensures Styles(s) == [] <==> '\r' !in s && '\n' !in s
  {
    hide ReplaceAll, Contains;
    var bare := ReplaceAll(s, "\r\n", "");
    ContainsChar(bare, '\n');
    ContainsChar(bare, '\r');
    NoCrlf(s);
    if !Contains(s, "\r\n") { NothingToReplace(s, "\r\n", ""); }
  }

  lemma {:induction false} CharsAfterReplace(s: string, t: string, r: string, c: char)
    requires t != "" && c !in r && (c in t ==> |t| == 1)
    requires c in t || c !in s
    ensures c !in ReplaceAll(s, t, r)
    decreases |s|
  {
    if |s| >= |t| {
      if s[..|t|] == t {
        CharsAfterReplace(s[|t|..], t, r, c);
      } else {
        CharsAfterReplace(s[1..], t, r, c);
      }
    }
  }

  lemma {:induction false} LfToCrlf(s: string)
    requires '\r' !in s
    ensures Follows(ReplaceAll(s, "\n", "\r\n"), Crlf)
    decreases |s|
  {
    if |s| >= 1 {
      LfToCrlf(s[1..]);
      var rest := ReplaceAll(s[1..], "\n", "\r\n");
      if s[..1] == "\n" {
        var all := "\r\n" + rest;
        assert ReplaceAll(s, "\n", "\r\n") == all;
      } else {
        assert s[0] in s && [s[0]] == s[..1];
        var all := [s[0]] + rest;
        assert ReplaceAll(s, "\n", "\r\n") == all;
      }
    }
  }

  /** An adapted text follows the style it was adapted to. */
  lemma {:induction false} AdaptedFollows(text: string, n: Newline)
    ensures Follows(AdaptTo(text, n), n)
  {
    var one := ReplaceAll(text, "\r\n", "\n");
    var two := ReplaceAll(one, "\r", "\n");
    CharsAfterReplace(one, "\r", "\n", '\r');
    match n
    case Crlf => LfToCrlf(two);
    case Lf => CharsAfterReplace(two, "\n", "\n", '\r');
    case Cr => CharsAfterReplace(two, "\n", "\r", '\n');
  }

  // ---------------------------------------------------------------- what a text says, whatever its newlines

  /** A character, or the end of a line. */
  datatype Mark = Plain(c: char) | Break

  /** CRLF, a lone LF and a lone CR are one line end each. */
  function Reading(s: string): seq<Mark> {
    if s == "" then []
    else if |s| >= 2 && s[0] == '\r' && s[1] == '\n' then [Break] + Reading(s[2..])
    else [if s[0] == '\r' || s[0] == '\n' then Break else Plain(s[0])] + Reading(s[1..])
  }

  /** Marks written out with one newline. */
  function Spelled(marks: seq<Mark>, newline: string): string {
    if marks == [] then ""
    else (match marks[0] case Plain(c) => [c] case Break => newline) + Spelled(marks[1..], newline)
  }

  ghost predicate Readable(marks: seq<Mark>) { forall c | Plain(c) in marks :: c != '\r' && c != '\n' }

  lemma {:induction false} ReadingIsReadable(s: string)
    ensures Readable(Reading(s))
  {
    if |s| >= 2 && s[0] == '\r' && s[1] == '\n' {
      ReadingIsReadable(s[2..]);
    } else if s != "" {
      ReadingIsReadable(s[1..]);
    }
  }

  /** Spelling and reading are inverse. */
  lemma {:induction false} SpelledReads(marks: seq<Mark>, n: Newline)
    requires Readable(marks)
    ensures Reading(Spelled(marks, Chars(n))) == marks
  {
    if marks != [] {
      assert forall c | Plain(c) in marks[1..] :: Plain(c) in marks;
      SpelledReads(marks[1..], n);
      var rest := Spelled(marks[1..], Chars(n));
      var s := Spelled(marks, Chars(n));
      match marks[0] {
        case Plain(c) =>
          assert Plain(c) in marks;
          assert s == [c] + rest && s[1..] == rest;
        case Break =>
          if n.Crlf? {
            assert s == "\r\n" + rest && s[2..] == rest;
          } else {
            assert s == Chars(n) + rest && s[1..] == rest;
            if n.Cr? { NoLineFeed(marks[1..]); }
          }
      }
    }
  }

  lemma {:induction false} NoLineFeed(marks: seq<Mark>)
    requires Readable(marks)
    ensures '\n' !in Spelled(marks, "\r")
  {
    if marks != [] {
      assert forall c | Plain(c) in marks[1..] :: Plain(c) in marks;
      assert marks[0] in marks;
      NoLineFeed(marks[1..]);
    }
  }

  /** The first two replacements spell every line end as LF. */
  lemma {:induction false} NormalIsSpelled(s: string)
    ensures ReplaceAll(ReplaceAll(s, "\r\n", "\n"), "\r", "\n") == Spelled(Reading(s), "\n")
    decreases |s|
  {
    if |s| >= 2 && s[0] == '\r' && s[1] == '\n' {
      NormalIsSpelled(s[2..]);
      var rest := ReplaceAll(s[2..], "\r\n", "\n");
      assert s[..2] == "\r\n";
      assert ("\n" + rest)[1..] == rest;
    } else if s != "" {
      NormalIsSpelled(s[1..]);
      var rest := ReplaceAll(s[1..], "\r\n", "\n");
      assert |s| >= 2 ==> s[..2] != "\r\n" by { assert |s| >= 2 ==> s[..2] == [s[0], s[1]]; }
      assert ReplaceAll(s, "\r\n", "\n") == [s[0]] + rest;
      assert ([s[0]] + rest)[1..] == rest && ([s[0]] + rest)[..1] == [s[0]];
    }
  }

  /** The last one spells them in the style. */
  lemma {:induction false} RespelledAs(marks: seq<Mark>, newline: string)
    requires Readable(marks)
    ensures ReplaceAll(Spelled(marks, "\n"), "\n", newline) == Spelled(marks, newline)
  {
    if marks != [] {
      assert forall c | Plain(c) in marks[1..] :: Plain(c) in marks;
      RespelledAs(marks[1..], newline);
      var rest, s := Spelled(marks[1..], "\n"), Spelled(marks, "\n");
      assert s[1..] == rest && marks[0] in marks;
      assert s[..1] == [s[0]];
    }
  }

  /** An adapted text is the text's reading, spelled in the style: adapting changes no character and no line end. */
  lemma {:induction false} AdaptedIsSpelled(text: string, n: Newline)
    ensures AdaptTo(text, n) == Spelled(Reading(text), Chars(n))
    ensures Reading(AdaptTo(text, n)) == Reading(text)
  {
    hide ReplaceAll, Spelled, Reading;
    ReadingIsReadable(text);
    NormalIsSpelled(text);
    RespelledAs(Reading(text), Chars(n));
    SpelledReads(Reading(text), n);
  }

  lemma {:induction false} AdaptedReads(before: string, text: string)
    ensures Reading(Adapted(before, text)) == Reading(text)
    ensures Adapted(before, text) == if |Styles(before)| == 1 then Spelled(Reading(text), Chars(Styles(before)[0])) else text
  {
    hide Styles, AdaptTo, Reading, Spelled;
    if |Styles(before)| == 1 { AdaptedIsSpelled(text, Styles(before)[0]); }
  }

  /** Two texts read one after the other exactly when no CRLF is made where they meet. */
  lemma {:induction false} ReadingJoins(a: string, b: string)
    ensures Reading(a + b) == Reading(a) + Reading(b) <==>
            !(a != "" && b != "" && a[|a| - 1] == '\r' && b[0] == '\n')
    ensures |Reading(a + b)| <= |Reading(a)| + |Reading(b)|
    decreases |a|
  {
    if a == "" {
      assert a + b == b;
    } else if |a| >= 2 && a[0] == '\r' && a[1] == '\n' {
      ReadingJoins(a[2..], b);
      assert (a + b)[2..] == a[2..] + b;
      HeadStays([Break], Reading(a[2..] + b), Reading(a[2..]), Reading(b));
    } else if |a| == 1 && b != "" && a[0] == '\r' && b[0] == '\n' {
      assert (a + b)[2..] == b[1..];
      assert Reading(a) == [Break] + Reading(a[1..]) == [Break];
      assert Reading(b) == [Break] + Reading(b[1..]);
    } else {
      ReadingJoins(a[1..], b);
      assert (a + b)[1..] == a[1..] + b;
      var mark := if a[0] == '\r' || a[0] == '\n' then Break else Plain(a[0]);
      HeadStays([mark], Reading(a[1..] + b), Reading(a[1..]), Reading(b));
    }
  }

  lemma {:induction false} HeadStays(x: seq<Mark>, ab: seq<Mark>, a: seq<Mark>, b: seq<Mark>)
    ensures x + ab == x + a + b <==> ab == a + b
  {
    assert x + a + b == x + (a + b);
    assert (x + ab)[|x|..] == ab && (x + (a + b))[|x|..] == a + b;
  }

  /** Cutting out a block that follows the style leaves two parts that follow it. */
  lemma {:induction false} AroundFollows(pre: string, mid: string, post: string, n: Newline)
    requires mid != "" && Follows(mid, n) && Follows(pre + mid + post, n)
    ensures Follows(pre, n) && Follows(post, n)
  {
    var s := pre + mid + post;
    forall i | 0 <= i < |pre| ensures s[i] == pre[i] { }
    forall i | 0 <= i < |post| ensures s[|pre| + |mid| + i] == post[i] { }
    forall i | 0 <= i < |mid| ensures s[|pre| + i] == mid[i] { }
    if n.Crlf? {
      assert pre != "" ==> pre[|pre| - 1] == s[|pre| - 1] && s[|pre|] == mid[0];
      assert post != "" ==> post[0] == s[|pre| + |mid|] && s[|pre| + |mid| - 1] == mid[|mid| - 1];
    } else {
      var c := if n.Lf? then '\r' else '\n';
      assert forall x | x in pre || x in post :: x in s;
    }
  }

  lemma {:induction false} JoinFollows(a: string, b: string, n: Newline)
    requires Follows(a, n) && Follows(b, n)
    ensures Follows(a + b, n)
  {
    if n.Crlf? {
      var s := a + b;
      forall i | 0 <= i < |s| && s[i] == '\r' ensures i + 1 < |s| && s[i + 1] == '\n' {
        if i >= |a| { assert s[i] == b[i - |a|]; }
      }
      forall i | 0 <= i < |s| && s[i] == '\n' ensures i > 0 && s[i - 1] == '\r' {
        if i >= |a| { assert s[i] == b[i - |a|]; }
      }
    }
  }

  /** The text after a `replace_text` whose match is counted once. */
  function Edited(current: string, oldText: string, newText: string): (r: string)
    requires Adapted(current, oldText) != ""
  {
    ReplaceFirst(current, Adapted(current, oldText), Adapted(current, newText))
  }

  lemma {:induction false} AdaptsToStyle(before: string, text: string)
    requires |Styles(before)| == 1
    ensures Follows(Adapted(before, text), Styles(before)[0])
  {
    hide Styles, AdaptTo, Follows;
    AdaptedFollows(text, Styles(before)[0]);
  }

  /** An edit of a text with one newline style leaves that style everywhere. */
  lemma {:induction false} EditKeepsNewlines(current: string, oldText: string, newText: string)
    requires |Styles(current)| == 1 && Adapted(current, oldText) != ""
    requires Count(current, Adapted(current, oldText)) == 1
    ensures Follows(Edited(current, oldText, newText), Styles(current)[0])
  {
    hide Count, ReplaceFirst, Follows, Styles, Adapted, AdaptTo, Has;
    var n := Styles(current)[0];
    var t, r := Adapted(current, oldText), Adapted(current, newText);
    DetectedStyle(current);
    AdaptsToStyle(current, oldText);
    AdaptsToStyle(current, newText);
    var at := FirstOccurrence(current, t);
    ReplacesFirst(current, t, r, at);
    var pre, post := current[..at], current[at + |t|..];
    assert current == pre + t + post by { HasMeans(current, t, at); }
    AroundFollows(pre, t, post, n);
    JoinFollows(pre, r, n);
    JoinFollows(pre + r, post, n);
  }

  /**
   What an edit says: the text before its match, the new text and the text after it, line by line.
   The match says what the old text says, and with at most one newline style in the file nothing is
   made or lost where the parts meet.
   */
  lemma {:induction false} EditReads(current: string, oldText: string, newText: string) returns (at: nat)
    requires Adapted(current, oldText) != "" && Count(current, Adapted(current, oldText)) == 1
    ensures CountedOnceAt(current, Adapted(current, oldText), at)
    ensures Has(current, Adapted(current, oldText), at)
    ensures var pre, post := current[..at], current[at + |Adapted(current, oldText)|..];
            && current == pre + Adapted(current, oldText) + post
            && Edited(current, oldText, newText) == pre + Adapted(current, newText) + post
            && Reading(Adapted(current, oldText)) == Reading(oldText)
            && Reading(Adapted(current, newText)) == Reading(newText)
            && (|Styles(current)| <= 1 ==>
                  Reading(Edited(current, oldText, newText)) == Reading(pre) + Reading(newText) + Reading(post))
  {
    hide Count, ReplaceFirst, Styles, Adapted, AdaptTo, Has, Reading, Follows;
    var t, r := Adapted(current, oldText), Adapted(current, newText);
    CountOne(current, t);
    at :| CountedOnceAt(current, t, at);
    ReplacesFirst(current, t, r, at);
    HasMeans(current, t, at);
    AdaptedReads(current, oldText);
    AdaptedReads(current, newText);
    var pre, post := current[..at], current[at + |t|..];
    if |Styles(current)| == 1 {
      StyledPartsJoin(pre, t, r, post, current, oldText, newText);
    } else if Styles(current) == [] {
      PlainPartsJoin(pre, r, post, current);
    }
  }

  lemma {:induction false} StyledPartsJoin(
    pre: string, t: string, r: string, post: string, current: string, oldText: string, newText: string)
    requires |Styles(current)| == 1 && current == pre + t + post && t != ""
    requires t == Adapted(current, oldText) && r == Adapted(current, newText)
    ensures Reading(pre + r + post) == Reading(pre) + Reading(r) + Reading(post)
  {
    hide Styles, Adapted, Reading, Follows;
    var n := Styles(current)[0];
    DetectedStyle(current);
    AdaptsToStyle(current, oldText);
    AdaptsToStyle(current, newText);
    AroundFollows(pre, t, post, n);
    JoinFollows(pre, r, n);
    FollowersJoin(pre, r, n);
    FollowersJoin(pre + r, post, n);
  }

  lemma {:induction false} FollowersJoin(a: string, b: string, n: Newline)
    requires Follows(a, n) && Follows(b, n)
    ensures Reading(a + b) == Reading(a) + Reading(b)
  {
    hide Reading;
    ReadingJoins(a, b);
  }

  lemma {:induction false} PlainPartsJoin(pre: string, r: string, post: string, current: string)
    requires Styles(current) == [] && pre <= current && |post| <= |current| && post == current[|current| - |post|..]
    ensures Reading(pre + r + post) == Reading(pre) + Reading(r) + Reading(post)
  {
    hide Reading;
    SomeNewline(current);
    forall c | c in post ensures c in current { }
    forall c | c in pre ensures c in current { }
    ReadingJoins(pre, r);
    ReadingJoins(pre + r, post);
  }

  lemma {:induction false} ReplaceNonEmpty(s: string, t: string, r: string)
    requires s != "" && t != "" && r != ""
    ensures ReplaceAll(s, t, r) != ""
  {
  }

  /** A non-empty text stays non-empty when its newlines are adapted. */
  lemma {:induction false} AdaptedNonEmpty(before: string, text: string)
    requires text != ""
    ensures Adapted(before, text) != ""
  {
    forall n { AdaptToNonEmpty(text, n); }
  }

  lemma {:induction false} AdaptToNonEmpty(text: string, n: Newline)
    requires text != ""
    ensures AdaptTo(text, n) != ""
  {
    ReplaceNonEmpty(text, "\r\n", "\n");
    ReplaceNonEmpty(ReplaceAll(text, "\r\n", "\n"), "\r", "\n");
    ReplaceNonEmpty(ReplaceAll(ReplaceAll(text, "\r\n", "\n"), "\r", "\n"), "\n", Chars(n));
  }
}
