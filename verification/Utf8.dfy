/**
 The size of a text in UTF-8, against the bytes themselves.
 */
module Utf8 {
  /** How many bytes encode a character. */
  function CharBytes(c: char): nat {
    var n := c as int;
    if n < 0x80 then 1 else if n < 0x800 then 2 else if n < 0x10000 then 3 else 4
  }

  function Utf8Size(s: string): nat {
    if s == "" then 0 else Utf8Size(s[..|s| - 1]) + CharBytes(s[|s| - 1])
  }

  // ---------------------------------------------------------------- the bytes

  /** The lead byte that goes with each length, and six bits in every byte after it. */
  const LEADS: seq<nat> := [0x00, 0xc0, 0xe0, 0xf0]

  /** The last `k` bytes of a code point. */
  function Tail(n: nat, k: nat): seq<nat> { if k == 0 then [] else Tail(n / 64, k - 1) + [0x80 + n % 64] }

  /** What precedes them. */
  function Head(n: nat, k: nat): nat { if k == 0 then n else Head(n / 64, k - 1) }

  function Encoded(c: char): seq<nat> {
    var k := CharBytes(c) - 1;
    [LEADS[k] + Head(c as int, k)] + Tail(c as int, k)
  }

  function Bytes(s: string): seq<nat> {
    if s == "" then [] else Bytes(s[..|s| - 1]) + Encoded(s[|s| - 1])
  }

  /** The code point that tail bytes go on with, after `head`. */
  function Joined(head: nat, tail: seq<nat>): int {
    if tail == [] then head else 64 * Joined(head, tail[..|tail| - 1]) + tail[|tail| - 1] - 0x80
  }

  /** A lead byte tells the length. */
  function LengthOf(lead: nat): nat {
    if lead < 0x80 then 1 else if lead < 0xe0 then 2 else if lead < 0xf0 then 3 else 4
  }

  lemma {:induction false} TailJoins(n: nat, k: nat)
    ensures |Tail(n, k)| == k && Joined(Head(n, k), Tail(n, k)) == n
    ensures forall b | b in Tail(n, k) :: 0x80 <= b < 0xc0
  {
    if k > 0 { TailJoins(n / 64, k - 1); }
  }

  lemma {:induction false} HeadFits(n: nat)
    ensures n < 0x80 ==> Head(n, 0) == n
    ensures 0x80 <= n < 0x800 ==> 2 <= Head(n, 1) < 0x20
    ensures 0x800 <= n < 0x10000 ==> Head(n, 2) < 0x10
    ensures 0x10000 <= n < 0x110000 ==> Head(n, 3) < 0x08
  {
    HeadOfTwo(n);
    HeadOfTwo(n / 64);
  }

  lemma {:induction false} HeadOfTwo(n: nat)
    ensures Head(n, 1) == n / 64 && Head(n, 2) == n / 64 / 64
    ensures Head(n, 3) == Head(n / 64, 2)
  {
    assert Head(n, 2) == Head(n / 64, 1);
  }

  /**
   A character's bytes: as many as its size says, as the lead byte tells, and the character can be
   read back from them.  Only the NUL character has a zero byte.
   */
  lemma {:induction false} EncodedReads(c: char)
    ensures var b := Encoded(c);
            && |b| == CharBytes(c) == LengthOf(b[0])
            && Joined(b[0] - LEADS[|b| - 1], b[1..]) == c as int
            && (forall x | x in b :: x < 0x100 && (x == 0 <==> c == '\0'))
  {
    var n, k := c as int, CharBytes(c) - 1;
    HeadFits(n);
    TailJoins(n, k);
    assert Encoded(c)[1..] == Tail(n, k);
  }

  /** The size of a text is the number of its bytes. */
  lemma {:induction false} SizeIsBytes(s: string)
    ensures |Bytes(s)| == Utf8Size(s)
  {
    if s != "" {
      SizeIsBytes(s[..|s| - 1]);
      EncodedReads(s[|s| - 1]);
    }
  }

  lemma {:induction false} BytesAppend(a: string, b: string)
    ensures Bytes(a + b) == Bytes(a) + Bytes(b)
  {
    hide Encoded;
    if b == "" {
      assert a + b == a;
    } else {
      var front := b[..|b| - 1];
      BytesAppend(a, front);
      assert (a + b)[..|a + b| - 1] == a + front;
      assert Bytes(a) + Bytes(front) + Encoded(b[|b| - 1]) == Bytes(a) + (Bytes(front) + Encoded(b[|b| - 1]));
    }
  }

  /** A NUL among the first bytes is a NUL character that so few bytes precede. */
  lemma {:induction false} NulAmongFirst(s: string, window: nat)
    ensures (exists i | 0 <= i < |s| :: s[i] == '\0' && Utf8Size(s[..i]) < window) <==>
            exists j | 0 <= j < |Bytes(s)| && j < window :: Bytes(s)[j] == 0
  {
    if s != "" {
      var front, c := s[..|s| - 1], s[|s| - 1];
      NulAmongFirst(front, window);
      SizeIsBytes(front);
      EncodedReads(c);
      var n, b := |front|, Encoded(c);
      forall i | 0 <= i < n ensures s[..i] == front[..i] && s[i] == front[i] { }
      assert s[..n] == front && s[n] == c;
      forall j | 0 <= j < |Bytes(front)| ensures Bytes(s)[j] == Bytes(front)[j] { }
      forall j | |Bytes(front)| <= j < |Bytes(s)| ensures Bytes(s)[j] == 0 <==> c == '\0' {
        assert Bytes(s)[j] == b[j - |Bytes(front)|] && b[j - |Bytes(front)|] in b;
      }
      if c == '\0' { assert Bytes(s)[|Bytes(front)|] == 0; }
    }
  }
}
