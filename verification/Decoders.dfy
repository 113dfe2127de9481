/**
 Incremental decoders of the bundled HTTP client: lines and fixed-size chunks.  Each is compared
 with its batch form on the whole text, for every way of cutting the text into pieces.
 */
module Decoders {
  import opened Options

  // ---------------------------------------------------------------- lines

  predicate IsNewline(c: char) {
    var n := c as int;
    n in {0x0a, 0x0d, 0x0b, 0x0c, 0x1c, 0x1d, 0x1e, 0x85, 0x2028, 0x2029}
  }

  /** The length of the first line, without its newline. */
  function LineLength(s: string): (n: nat)
    ensures n <= |s| && forall i | 0 <= i < n :: !IsNewline(s[i])
    ensures n < |s| ==> IsNewline(s[n])
  {
    if s == "" || IsNewline(s[0]) then 0 else 1 + LineLength(s[1..])
  }

  /** The length of the newline at position `n`. */
  function NewlineLength(s: string, n: nat): (k: nat)
    requires n < |s|
    ensures 1 <= k && n + k <= |s|
    ensures IsNewline(s[n]) ==> IsNewline(s[n + k - 1])
  {
    if n + 1 < |s| && s[n] == '\r' && s[n + 1] == '\n' then 2 else 1
  }

  /** What follows the first line and its newline. */
  function AfterLine(s: string): (r: string)
    requires LineLength(s) < |s|
    ensures |r| < |s|
  {
    var n := LineLength(s);
    s[n + NewlineLength(s, n)..]
  }

  /** `str.splitlines` */
  function SplitLines(s: string): (r: seq<string>)
    ensures r == [] <==> s == ""
    decreases |s|
  {
    if s == "" then []
    else if LineLength(s) == |s| then [s]
    else [s[..LineLength(s)]] + SplitLines(AfterLine(s))
  }

  const NEWLINE_CHARS := "\n\r\U{00000b}\U{00000c}\U{00001c}\U{00001d}\U{00001e}\U{000085}\U{002028}\U{002029}"

  /** A newline: one of the characters, or CRLF; a CR before an LF is not one of its own. */
  predicate Ends(newline: string, rest: string) {
    newline == "\r\n" || (exists c :: newline == [c] && c in NEWLINE_CHARS && !(c == '\r' && rest != "" && rest[0] == '\n'))
  }

  /** What splitting means: each line up to its newline, and a last line without one. */
  lemma {:induction false} SplitsAtNewlines(line: string, newline: string, rest: string)
    requires forall c | c in line :: c !in NEWLINE_CHARS
    ensures Ends(newline, rest) ==> SplitLines(line + newline + rest) == [line] + SplitLines(rest)
    ensures line != "" ==> SplitLines(line) == [line]
  {
    hide SplitLines, IsNewline, NEWLINE_CHARS, LineLength, NewlineLength, AfterLine, Ends;
    UnbrokenLine(line);
    if Ends(newline, rest) {
      NewlineSpan(line, newline, rest);
      FirstOfTwo(line + newline + rest);
      assert (line + newline + rest)[..|line|] == line;
    }
    if line != "" { OnlyLine(line); }
  }

  lemma {:induction false} NewlineCharacters()
    ensures forall c :: IsNewline(c) <==> c in NEWLINE_CHARS
  {
    assert NEWLINE_CHARS == ['\n', '\r', 0x0b as char, 0x0c as char, 0x1c as char, 0x1d as char, 0x1e as char, 0x85 as char,
                             0x2028 as char, 0x2029 as char];
  }

  lemma {:induction false} UnbrokenLine(line: string)
    requires forall c | c in line :: c !in NEWLINE_CHARS
    ensures LineLength(line) == |line|
  {
    hide IsNewline, NEWLINE_CHARS;
    NewlineCharacters();
    forall i | 0 <= i < |line| ensures !IsNewline(line[i]) { assert line[i] in line; }
  }

  lemma {:induction false} OnlyLine(line: string)
    requires line != "" && LineLength(line) == |line|
    ensures SplitLines(line) == [line]
  {
  }

  lemma {:induction false} NewlineSpan(line: string, newline: string, rest: string)
    requires LineLength(line) == |line| && Ends(newline, rest)
    ensures LineLength(line + newline + rest) == |line| < |line + newline + rest|
    ensures AfterLine(line + newline + rest) == rest
  {
    hide IsNewline, NEWLINE_CHARS;
    NewlineCharacters();
    hide LineLength, NewlineLength, AfterLine;
    var s, tail := line + newline + rest, newline + rest;
    assert s == line + tail;
    LineLengthAppend(line, tail);
    StartsWithNewline(newline, rest);
    ShiftedLine(line, tail);
  }

  lemma {:induction false} StartsWithNewline(newline: string, rest: string)
    requires Ends(newline, rest)
    ensures LineLength(newline + rest) == 0 < |newline + rest| && AfterLine(newline + rest) == rest
  {
    hide IsNewline, NEWLINE_CHARS;
    NewlineCharacters();
    TwoCharacters();
    var s := newline + rest;
    assert s[0] == newline[0] && newline[0] in NEWLINE_CHARS;
    assert s[|newline|..] == rest;
    assert |newline| == 1 && rest != "" ==> s[1] == rest[0];
  }

  lemma {:induction false} TwoCharacters()
    ensures '\r' in NEWLINE_CHARS
  {
    assert NEWLINE_CHARS[1] == '\r';
  }

  /** The last line is still open. */
  predicate IsOpen(s: string) { s != "" && !IsNewline(s[|s| - 1]) }

  function JoinLines(a: seq<string>, open: bool, b: seq<string>): seq<string> {
    if open && a != [] && b != [] then a[..|a| - 1] + [a[|a| - 1] + b[0]] + b[1..] else a + b
  }

  /** The cut between two texts does not split a CRLF. */
  predicate CleanCut(a: string, b: string) { !(a != "" && a[|a| - 1] == '\r' && b != "" && b[0] == '\n') }

  lemma {:induction false} LineLengthAppend(a: string, b: string)
    ensures LineLength(a + b) == if LineLength(a) < |a| then LineLength(a) else |a| + LineLength(b)
  {
    if a == "" {
      assert a + b == b;
    } else if !IsNewline(a[0]) {
      LineLengthAppend(a[1..], b);
      assert (a + b)[1..] == a[1..] + b;
    }
  }

  /** Splitting a text cut anywhere but inside a CRLF: an open line goes on in the second part. */
  lemma {:induction false} SplitAppend(a: string, b: string)
    requires CleanCut(a, b)
    ensures SplitLines(a + b) == JoinLines(SplitLines(a), IsOpen(a), SplitLines(b))
    decreases |a|
  {
    if a == "" {
      assert a + b == b;
    } else if b == "" {
      assert a + b == a;
    } else if LineLength(a) == |a| {
      OpenAppend(a, b);
    } else {
      hide SplitLines;
      AfterAppend(a, b);
      SplitAppend(AfterLine(a), b);
      TerminatedAppend(a, b);
    }
  }

  /** `a` is one open line. */
  lemma {:induction false} OpenAppend(a: string, b: string)
    requires a != "" && b != "" && LineLength(a) == |a|
    ensures SplitLines(a) == [a] && IsOpen(a)
    ensures SplitLines(a + b) == JoinLines([a], true, SplitLines(b))
  {
    hide LineLength, NewlineLength, AfterLine;
    LineLengthAppend(a, b);
    var m := LineLength(b);
    if m == |b| {
      assert JoinLines([a], true, [b]) == [a + b];
    } else {
      assert (a + b)[..|a| + m] == a + b[..m];
      ShiftedLine(a, b);
      FirstOfTwo(a + b);
      FirstOfTwo(b);
      OpenJoin(a, b[..m], SplitLines(AfterLine(b)));
    }
  }

  lemma {:induction false} OpenJoin(a: string, first: string, rest: seq<string>)
    ensures JoinLines([a], true, [first] + rest) == [a + first] + rest
  {
    assert ([first] + rest)[1..] == rest;
    assert [a][..0] + [a + first] == [a + first];
  }

  lemma {:induction false} ShiftedLine(a: string, b: string)
    requires LineLength(b) < |b| && LineLength(a + b) == |a| + LineLength(b)
    ensures AfterLine(a + b) == AfterLine(b)
  {
    hide LineLength, NewlineLength;
    ShiftedNewline(a, b, LineLength(b));
  }

  lemma {:induction false} ShiftedNewline(a: string, b: string, m: nat)
    requires m < |b|
    ensures NewlineLength(a + b, |a| + m) == NewlineLength(b, m)
    ensures (a + b)[|a| + m + NewlineLength(b, m)..] == b[m + NewlineLength(b, m)..]
  {
  }

  lemma {:induction false} FirstOfTwo(s: string)
    requires LineLength(s) < |s|
    ensures SplitLines(s) == [s[..LineLength(s)]] + SplitLines(AfterLine(s))
  {
  }

  /** The first line of `a` is terminated: it is the first line of `a + b` too. */
  lemma {:induction false} AfterAppend(a: string, b: string)
    requires LineLength(a) < |a| && b != "" && CleanCut(a, b)
    ensures LineLength(a + b) == LineLength(a) && AfterLine(a + b) == AfterLine(a) + b
    ensures (a + b)[..LineLength(a)] == a[..LineLength(a)]
    ensures CleanCut(AfterLine(a), b)
    ensures AfterLine(a) == "" ==> !IsOpen(a)
    ensures AfterLine(a) != "" ==> IsOpen(AfterLine(a)) == IsOpen(a)
  {
    LineLengthAppend(a, b);
    var n := LineLength(a);
    assert NewlineLength(a + b, n) == NewlineLength(a, n);
    if AfterLine(a) == "" {
      assert n + NewlineLength(a, n) == |a|;
      assert IsNewline(a[|a| - 1]);
    }
  }

  lemma {:induction false} TerminatedAppend(a: string, b: string)
    requires LineLength(a) < |a| && b != "" && CleanCut(a, b)
    requires SplitLines(AfterLine(a) + b) == JoinLines(SplitLines(AfterLine(a)), IsOpen(AfterLine(a)), SplitLines(b))
    ensures SplitLines(a + b) == JoinLines(SplitLines(a), IsOpen(a), SplitLines(b))
  {
    hide SplitLines, LineLength, NewlineLength, AfterLine, IsOpen;
    AfterAppend(a, b);
    FirstOfTwo(a);
    FirstOfTwo(a + b);
    var x, y := SplitLines(AfterLine(a)), SplitLines(b);
    if AfterLine(a) == "" {
      assert AfterLine(a) + b == b;
    } else {
      PrependLine(a[..LineLength(a)], x, IsOpen(a), y);
    }
  }

  lemma {:induction false} PrependLine(line: string, x: seq<string>, open: bool, y: seq<string>)
    requires x != []
    ensures JoinLines([line] + x, open, y) == [line] + JoinLines(x, open, y)
  {
    var all := [line] + x;
    assert all[..|x|] == [line] + x[..|x| - 1];
    if open && y != [] {
      var joined := [x[|x| - 1] + y[0]];
      assert JoinLines(all, open, y) == all[..|x|] + joined + y[1..];
      Assoc([line], x[..|x| - 1], joined);
      Assoc([line], x[..|x| - 1] + joined, y[1..]);
    } else {
      Assoc([line], x, y);
    }
  }

  /** The last line of an open text is not empty, and it is the whole text if it is the only one. */
  lemma {:induction false} LastLineIsOpen(s: string)
    requires IsOpen(s)
    ensures SplitLines(s)[|SplitLines(s)| - 1] != ""
    ensures |SplitLines(s)| == 1 ==> SplitLines(s) == [s]
    decreases |s|
  {
    if LineLength(s) < |s| {
      assert LineLength(s) + NewlineLength(s, LineLength(s)) < |s|;
      LastLineIsOpen(AfterLine(s));
    }
  }

  function Concat(parts: seq<string>): string {
    if parts == [] then "" else Concat(parts[..|parts| - 1]) + parts[|parts| - 1]
  }

  lemma {:induction false} ConcatMore(parts: seq<string>, last: string)
    ensures Concat(parts + [last]) == Concat(parts) + last
  {
    assert (parts + [last])[..|parts|] == parts;
  }

  lemma {:induction false} ConcatOne(s: string)
    ensures Concat([s]) == s
  {
    ConcatMore([], s);
    assert [] + [s] == [s] && Concat([]) + s == s;
  }

  function Pending(buffer: seq<string>): seq<string> { if buffer == [] then [] else [Concat(buffer)] }

  /** `emitted` and the buffered line are the lines of `body`. */
  ghost predicate Split(body: string, buffer: seq<string>, emitted: seq<string>) {
    && (forall b | b in buffer :: b != "")
    && (buffer != [] <==> IsOpen(body))
    && SplitLines(body) == emitted + Pending(buffer)
  }

  /** The lines that a piece with a newline completes: with the buffered line in front. */
  function Completed(buffer: seq<string>, lines: seq<string>): (r: seq<string>)
    requires lines != []
    ensures |r| == |lines|
  {
    if buffer == [] then lines else [Concat(buffer) + lines[0]] + lines[1..]
  }

  /** The text after `body` goes on in the buffered line, if there is one. */
  lemma {:induction false} LinesAfter(body: string, buffer: seq<string>, emitted: seq<string>, text: string)
    requires Split(body, buffer, emitted) && text != "" && CleanCut(body, text)
    ensures SplitLines(body + text) == emitted + Completed(buffer, SplitLines(text))
    ensures IsOpen(body + text) == IsOpen(text)
  {
    hide SplitLines, Concat;
    SplitAppend(body, text);
    if buffer != [] {
      var a := SplitLines(body);
      assert a[..|a| - 1] == emitted && a[|a| - 1] == Concat(buffer);
    }
  }

  /** A piece without a newline only lengthens the buffered line. */
  lemma {:induction false} StillOpen(body: string, buffer: seq<string>, emitted: seq<string>, text: string)
    requires Split(body, buffer, emitted) && text != "" && CleanCut(body, text)
    requires IsOpen(text) && |SplitLines(text)| == 1
    ensures Split(body + text, buffer + [SplitLines(text)[0]], emitted)
  {
    hide SplitLines, Concat, IsOpen, CleanCut;
    LinesAfter(body, buffer, emitted, text);
    LastLineIsOpen(text);
    var line := SplitLines(text)[0];
    ConcatMore(buffer, line);
    ConcatOne(line);
    assert SplitLines(text) == [line];
    assert [Concat(buffer) + line] + [line][1..] == [Concat(buffer) + line];
    if buffer == [] { assert buffer + [line] == [line]; }
  }

  lemma {:induction false} LinesComplete(body: string, buffer: seq<string>, emitted: seq<string>, text: string)
    requires Split(body, buffer, emitted) && text != "" && CleanCut(body, text)
    ensures var all := Completed(buffer, SplitLines(text));
            if IsOpen(text) then Split(body + text, [all[|all| - 1]], emitted + all[..|all| - 1])
            else Split(body + text, [], emitted + all)
  {
    hide SplitLines, Concat, IsOpen, CleanCut, Completed;
    LinesAfter(body, buffer, emitted, text);
    var all := Completed(buffer, SplitLines(text));
    assert SplitLines(body + text) == emitted + all;
    DropLast(emitted, all);
    if IsOpen(text) {
      LastLineIsOpen(body + text);
      ConcatOne(all[|all| - 1]);
    }
  }

  lemma {:induction false} DropLast<T>(a: seq<T>, b: seq<T>)
    requires b != []
    ensures a + b == a + b[..|b| - 1] + [b[|b| - 1]] && (a + b)[|a + b| - 1] == b[|b| - 1]
    ensures a + b + [] == a + b
  {
  }

  lemma {:induction false} Assoc<T>(a: seq<T>, b: seq<T>, c: seq<T>)
    ensures a + b + c == a + (b + c)
  {
  }

  class LineDecoder {
    var buffer: seq<string>
    var trailingCr: bool
    /** The text decoded since the last flush, and the lines given out for it. */
    ghost var seen: string
    ghost var emitted: seq<string>

    ghost function Body(): string
      reads this
    {
      if trailingCr && seen != "" then seen[..|seen| - 1] else seen
    }

    ghost predicate Valid()
      reads this
    {
      (trailingCr <==> seen != "" && seen[|seen| - 1] == '\r') && Split(Body(), buffer, emitted)
    }

    constructor ()
      ensures Valid() && seen == "" && emitted == []
    {
      buffer, trailingCr, seen, emitted := [], false, "", [];
    }

    method Decode(input: string) returns (lines: seq<string>)
      requires Valid()
      modifies this
      ensures Valid() && seen == old(seen) + input && emitted == old(emitted) + lines
    {
      hide Split;
      var text := input;
      ghost var body := Body();
      ghost var all := seen + input;
      if trailingCr {
        text := "\r" + text;
        trailingCr := false;
      }
      assert all == body + text;
      assert CleanCut(body, text);
      if text != "" && text[|text| - 1] == '\r' {
        trailingCr := true;
        text := text[..|text| - 1];
      }
      assert body + text == if trailingCr then all[..|all| - 1] else all;
      seen := all;
      if text == "" {
        assert body + text == body;
        return [];
      }
      lines := Emit(body, text);
    }

    /** The part of `decode` after the carriage returns. */
    method Emit(ghost body: string, text: string) returns (lines: seq<string>)
      requires text != "" && CleanCut(body, text) && Split(body, buffer, emitted)
      modifies this`buffer, this`emitted
      ensures Split(body + text, buffer, emitted) && emitted == old(emitted) + lines
    {
      hide Split, SplitLines, IsOpen, CleanCut, Concat;
      var trailingNewline := IsNewline(text[|text| - 1]);
      OpenMeans(text);
      lines := SplitLines(text);
      if |lines| == 1 && !trailingNewline {
        StillOpen(body, buffer, emitted, text);
        buffer := buffer + [lines[0]];
        return [];
      }
      LinesComplete(body, buffer, emitted, text);
      if buffer != [] {
        lines := [Concat(buffer) + lines[0]] + lines[1..];
        buffer := [];
      }
      if !trailingNewline {
        buffer := [lines[|lines| - 1]];
        lines := lines[..|lines| - 1];
      }
      emitted := emitted + lines;
    }

    method Flush() returns (lines: seq<string>)
      requires Valid()
      modifies this
      ensures Valid() && seen == "" && emitted == []
      ensures old(emitted) + lines == SplitLines(old(seen))
    {
      hide SplitLines, Concat;
      if trailingCr {
        assert seen == Body() + "\r";
        LastReturn(Body(), buffer, emitted);
      }
      lines := if buffer == [] && !trailingCr then [] else [Concat(buffer)];
      buffer, trailingCr, seen, emitted := [], false, "", [];
    }
  }

  lemma {:induction false} OpenMeans(s: string)
    requires s != ""
    ensures IsOpen(s) == !IsNewline(s[|s| - 1])
  {
  }

  /** A pending carriage return ends the buffered line. */
  lemma {:induction false} LastReturn(body: string, buffer: seq<string>, emitted: seq<string>)
    requires Split(body, buffer, emitted)
    ensures SplitLines(body + "\r") == emitted + [Concat(buffer)]
  {
    assert LineLength("\r") == 0 && AfterLine("\r") == "" && SplitLines("\r") == [""];
    LinesAfter(body, buffer, emitted, "\r");
    assert Concat(buffer) + "" == Concat(buffer);
  }

  /** Streaming equals batch: decoding a text in any pieces and flushing gives its lines. */
  method DecodeAll(pieces: seq<string>) returns (lines: seq<string>)
    ensures lines == SplitLines(Concat(pieces))
  {
    var decoder := new LineDecoder();
    lines := [];
    for i := 0 to |pieces|
      invariant fresh(decoder) && decoder.Valid()
      invariant decoder.seen == Concat(pieces[..i]) && decoder.emitted == lines
    {
      var more := decoder.Decode(pieces[i]);
      assert pieces[..i + 1][..i] == pieces[..i];
      lines := lines + more;
    }
    assert pieces[..|pieces|] == pieces;
    var last := decoder.Flush();
    lines := lines + last;
  }

  // ---------------------------------------------------------------- fixed-size chunks

  /** Slices of `n` elements; the last one may be shorter. */
  function Slices<T>(s: seq<T>, n: nat): (r: seq<seq<T>>)
    requires n > 0
    ensures s != [] ==> r != []
    decreases |s|
  {
    if s == [] then [] else if |s| <= n then [s] else [s[..n]] + Slices(s[n..], n)
  }

  /** The full slices only, and what is left over. */
  function FullSlices<T>(s: seq<T>, n: nat): (r: seq<seq<T>>)
    requires n > 0
    ensures forall c | c in r :: |c| == n
    decreases |s|
  {
    if |s| < n then [] else [s[..n]] + FullSlices(s[n..], n)
  }

  function LeftOver<T>(s: seq<T>, n: nat): (r: seq<T>)
    requires n > 0
    ensures |r| < n
    decreases |s|
  {
    if |s| < n then s else LeftOver(s[n..], n)
  }

  function Join<T>(parts: seq<seq<T>>): seq<T> {
    if parts == [] then [] else parts[0] + Join(parts[1..])
  }

  lemma {:induction false} JoinCons<T>(x: seq<T>, rest: seq<seq<T>>)
    ensures Join([x] + rest) == x + Join(rest)
  {
    assert ([x] + rest)[1..] == rest;
  }

  lemma {:induction false} JoinAppend<T>(a: seq<seq<T>>, b: seq<seq<T>>)
    ensures Join(a + b) == Join(a) + Join(b)
  {
    if a == [] {
      assert a + b == b;
    } else {
      hide Join;
      JoinAppend(a[1..], b);
      assert a == [a[0]] + a[1..];
      Assoc([a[0]], a[1..], b);
      JoinCons(a[0], a[1..]);
      JoinCons(a[0], a[1..] + b);
      Assoc(a[0], Join(a[1..]), Join(b));
    }
  }

  /** The batch slices are the full ones and the left-over. */
  lemma {:induction false} SlicesAreFull<T>(s: seq<T>, n: nat)
    requires n > 0
    ensures Slices(s, n) == FullSlices(s, n) + (if LeftOver(s, n) == [] then [] else [LeftOver(s, n)])
    decreases |s|
  {
    if |s| >= n {
      SlicesAreFull(s[n..], n);
      if |s| == n { assert s[n..] == [] && s[..n] == s; }
    }
  }

  lemma {:induction false} JoinStep<T>(head: seq<T>, rest: seq<T>, full: seq<seq<T>>, left: seq<T>)
    requires Join(full) + left == rest
    ensures Join([head] + full) + left == head + rest
  {
    hide Join;
    JoinCons(head, full);
    Assoc(head, Join(full), left);
  }

  lemma {:induction false} SlicesStep<T>(s: seq<T>, n: nat)
    requires 0 < n <= |s|
    ensures FullSlices(s, n) == [s[..n]] + FullSlices(s[n..], n) && LeftOver(s, n) == LeftOver(s[n..], n)
    ensures s[..n] + s[n..] == s
  {
  }

  /** Nothing is lost or changed. */
  lemma {:induction false} SlicesConserve<T>(s: seq<T>, n: nat)
    requires n > 0
    ensures Join(FullSlices(s, n)) + LeftOver(s, n) == s
    decreases |s|
  {
    if |s| < n {
      assert Join<T>([]) + s == s;
    } else {
      hide *;
      SlicesStep(s, n);
      SlicesConserve(s[n..], n);
      JoinStep(s[..n], s[n..], FullSlices(s[n..], n), LeftOver(s[n..], n));
    }
  }

  lemma {:induction false} JoinOfSlices<T>(s: seq<T>, n: nat)
    requires n > 0
    ensures Join(Slices(s, n)) == s
  {
    SlicesConserve(s, n);
    SlicesAreFull(s, n);
    var tail := if LeftOver(s, n) == [] then [] else [LeftOver(s, n)];
    JoinAppend(FullSlices(s, n), tail);
    assert Join(tail) == LeftOver(s, n);
  }

  /** Slicing may go on from the left-over. */
  lemma {:induction false} SlicesGoOn<T>(a: seq<T>, b: seq<T>, n: nat)
    requires n > 0
    ensures FullSlices(a + b, n) == FullSlices(a, n) + FullSlices(LeftOver(a, n) + b, n)
    ensures LeftOver(a + b, n) == LeftOver(LeftOver(a, n) + b, n)
    decreases |a|
  {
    if |a| >= n {
      SlicesGoOn(a[n..], b, n);
      assert (a + b)[..n] == a[..n];
      assert (a + b)[n..] == a[n..] + b;
      Assoc([a[..n]], FullSlices(a[n..], n), FullSlices(LeftOver(a, n) + b, n));
    } else {
      assert [] + FullSlices(a + b, n) == FullSlices(a + b, n);
    }
  }

  /** `ByteChunker` and `TextChunker`: the same code over bytes and over characters. */
  class Chunker<T(==)> {
    var buffer: seq<T>
    const chunkSize: Option<nat>
    ghost var seen: seq<T>
    ghost var emitted: seq<seq<T>>

    ghost predicate Valid()
      reads this
    {
      match chunkSize
      case None => buffer == [] && Join(emitted) == seen
      case Some(n) => n > 0 && emitted == FullSlices(seen, n) && buffer == LeftOver(seen, n)
    }

    /** A chunk size of zero is an error of the caller: Python's `range` refuses it. */
    constructor (chunkSize: Option<nat>)
      requires chunkSize.Some? ==> chunkSize.value > 0
      ensures Valid() && this.chunkSize == chunkSize && seen == [] && emitted == []
    {
      this.chunkSize := chunkSize;
      buffer, seen, emitted := [], [], [];
    }

    method Decode(content: seq<T>) returns (chunks: seq<seq<T>>)
      requires Valid()
      modifies this
      ensures Valid() && seen == old(seen) + content && emitted == old(emitted) + chunks
      ensures chunkSize.Some? ==> forall c | c in chunks :: |c| == chunkSize.value
    {
      if chunkSize.None? {
        chunks := if content == [] then [] else [content];
        JoinAppend(emitted, chunks);
        assert Join(chunks) == content;
        seen, emitted := seen + content, emitted + chunks;
        return;
      }
      var n := chunkSize.value;
      SlicesGoOn(seen, content, n);
      buffer := buffer + content;
      SlicesAreFull(buffer, n);
      chunks := [];
      if |buffer| >= n {
        var all := Slices(buffer, n);
        LastSlice(buffer, n);
        if |all[|all| - 1]| == n {
          chunks, buffer := all, [];
        } else {
          chunks, buffer := all[..|all| - 1], all[|all| - 1];
        }
      }
      seen, emitted := seen + content, emitted + chunks;
    }

    method Flush() returns (chunks: seq<seq<T>>)
      requires Valid()
      modifies this
      ensures Valid() && seen == [] && emitted == []
      ensures Join(old(emitted) + chunks) == old(seen)
      ensures chunkSize.Some? ==> old(emitted) + chunks == Slices(old(seen), chunkSize.value)
    {
      if chunkSize.Some? {
        SlicesAreFull(seen, chunkSize.value);
        JoinOfSlices(seen, chunkSize.value);
      }
      chunks := if buffer == [] then [] else [buffer];
      assert chunkSize.None? ==> emitted + chunks == emitted;
      buffer, seen, emitted := [], [], [];
    }
  }

  /** The last slice is full exactly when nothing is left over. */
  lemma {:induction false} LastSlice<T>(s: seq<T>, n: nat)
    requires n > 0 && |s| >= n
    ensures var all := Slices(s, n);
            if LeftOver(s, n) == [] then |all[|all| - 1]| == n && all == FullSlices(s, n)
            else all[|all| - 1] == LeftOver(s, n) && all[..|all| - 1] == FullSlices(s, n)
  {
    SlicesAreFull(s, n);
    var full := FullSlices(s, n);
    if LeftOver(s, n) == [] { assert full[|full| - 1] in full; }
  }

  /** Streaming equals batch for chunks of a given size, and loses nothing for any setting. */
  method ChunkAll<T(==)>(pieces: seq<seq<T>>, chunkSize: Option<nat>) returns (chunks: seq<seq<T>>)
    requires chunkSize.Some? ==> chunkSize.value > 0
    ensures Join(chunks) == Join(pieces)
    ensures chunkSize.Some? ==> chunks == Slices(Join(pieces), chunkSize.value)
  {
    var chunker := new Chunker<T>(chunkSize);
    chunks := [];
    for i := 0 to |pieces|
      invariant fresh(chunker) && chunker.Valid() && chunker.chunkSize == chunkSize
      invariant chunker.seen == Join(pieces[..i]) && chunker.emitted == chunks
    {
      var more := chunker.Decode(pieces[i]);
      JoinAppend(pieces[..i], [pieces[i]]);
      assert pieces[..i + 1] == pieces[..i] + [pieces[i]];
      assert Join([pieces[i]]) == pieces[i];
      chunks := chunks + more;
    }
    assert pieces[..|pieces|] == pieces;
    var last := chunker.Flush();
    chunks := chunks + last;
  }
}
