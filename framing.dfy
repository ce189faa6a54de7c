/** Newline framing of the control channel's byte stream. A command (and an
    event) is the text between two line feeds; empty segments are skipped.
    `Scan` reads a stream byte by byte, carrying the unfinished line; its
    results `Lines` and `Tail` say what a stream means: the complete
    non-empty lines it holds, and the bytes after its last line feed, which
    wait for more input. The runtime's receive loop is proved against
    `Scan` in the channel module; here the meaning itself is shown to be
    independent of where the transport cut the stream into chunks. */
module Framing {

  /** Reading `s` after the unfinished line `line`: the lines completed
      (empty ones dropped) and the new unfinished line. */
  function Scan(line: string, s: string): (r: (seq<string>, string))
    ensures |r.1| <= |line| + |s|
    ensures |s| > 0 && s[|s| - 1] == '\n' ==> r.1 == ""
    decreases |s|
  {
    if |s| == 0 then ([], line)
    else if s[0] == '\n' then
      var r := Scan("", s[1..]);
      ((if |line| > 0 then [line] else []) + r.0, r.1)
    else Scan(line + [s[0]], s[1..])
  }

  /** The non-empty line-feed-terminated segments of `s`, in order. */
  function Lines(s: string): seq<string>
  {
    Scan("", s).0
  }

  /** The bytes after the last line feed of `s` (all of `s` if it has none). */
  function Tail(s: string): string
  {
    Scan("", s).1
  }

  /** Every line framed is non-empty and holds no line feed, and neither
      does the unfinished rest: an empty segment never becomes a command. */
  lemma {:induction false} ScanYieldsLines(line: string, s: string)
    requires '\n' !in line
    ensures forall i :: 0 <= i < |Scan(line, s).0| ==> |Scan(line, s).0[i]| > 0 && '\n' !in Scan(line, s).0[i]
    ensures '\n' !in Scan(line, s).1
    decreases |s|
  {
    if |s| > 0 {
      if s[0] == '\n' {
        ScanYieldsLines("", s[1..]);
      } else {
        ScanYieldsLines(line + [s[0]], s[1..]);
      }
    }
  }

  /** Bytes without a line feed only extend the unfinished line. */
  lemma {:induction false} ScanWithoutNewline(line: string, s: string)
    requires '\n' !in s
    ensures Scan(line, s) == ([], line + s)
    decreases |s|
  {
    if |s| > 0 {
      assert s[0] in s;
      assert '\n' !in s[1..] by {
        forall j | 0 <= j < |s[1..]| ensures s[1..][j] != '\n' {
          assert s[1..][j] == s[j + 1];
        }
      }
      ScanWithoutNewline(line + [s[0]], s[1..]);
      assert line + [s[0]] + s[1..] == line + s;
    } else {
      assert line + s == line;
    }
  }

  /** Scanning a text in two pieces: the lines of the first piece, then the
      lines the second piece completes from the unfinished line. */
  lemma {:induction false} ScanAppend(line: string, a: string, b: string)
    ensures var first := Scan(line, a);
      Scan(line, a + b) == (first.0 + Scan(first.1, b).0, Scan(first.1, b).1)
    decreases |a|
  {
    if |a| == 0 {
      assert a + b == b;
      assert Scan(line, a) == ([], line);
      assert [] + Scan(line, b).0 == Scan(line, b).0;
    } else {
      assert (a + b)[0] == a[0] && (a + b)[1..] == a[1..] + b;
      if a[0] == '\n' {
        ScanAppend("", a[1..], b);
        var done: seq<string> := if |line| > 0 then [line] else [];
        var s1 := Scan("", a[1..]);
        var s2 := Scan(s1.1, b);
        assert Scan(line, a) == (done + s1.0, s1.1);
        assert Scan(line, a + b) == (done + (s1.0 + s2.0), s2.1);
        assert done + (s1.0 + s2.0) == (done + s1.0) + s2.0;
      } else {
        ScanAppend(line + [a[0]], a[1..], b);
      }
    }
  }

  /** The step the receive loop takes at a line feed: if the chunk's first
      `i` bytes hold no line feed and byte `i` is one, the held bytes `p`
      and those `i` bytes form the next line (unless empty), and scanning
      continues after the line feed with nothing held. */
  lemma ScanAtNewline(p: string, cur: string, i: nat)
    requires i < |cur| && cur[i] == '\n' && '\n' !in cur[..i]
    ensures Scan(p, cur) ==
      ((if |p| + i > 0 then [p + cur[..i]] else []) + Scan("", cur[i + 1..]).0, Scan("", cur[i + 1..]).1)
  {
    ScanUpTo(p, cur, i);
    var rest := cur[i..];
    assert rest[0] == '\n' && rest[1..] == cur[i + 1..];
    ScanNewlineFirst(p + cur[..i], rest);
  }

  /** Scanning up to the first line feed only extends the unfinished line. */
  lemma ScanUpTo(p: string, cur: string, i: nat)
    requires i <= |cur| && '\n' !in cur[..i]
    ensures Scan(p, cur) == Scan(p + cur[..i], cur[i..])
  {
    var head := cur[..i];
    var rest := cur[i..];
    assert cur == head + rest;
    ScanWithoutNewline(p, head);
    ScanContinues(p, head, rest);
  }

  /** Bytes that complete no line leave the scan to continue from the
      line they extend. */
  lemma ScanContinues(line: string, a: string, b: string)
    requires Scan(line, a).0 == []
    ensures Scan(line, a + b) == Scan(Scan(line, a).1, b)
  {
    ScanAppend(line, a, b);
    assert [] + Scan(Scan(line, a).1, b).0 == Scan(Scan(line, a).1, b).0;
  }

  lemma ScanNewlineFirst(line: string, s: string)
    requires |s| > 0 && s[0] == '\n'
    ensures Scan(line, s) == ((if |line| > 0 then [line] else []) + Scan("", s[1..]).0, Scan("", s[1..]).1)
  {
  }

  /** The chunks held back between receptions, read as one text. */
  function Concat(chunks: seq<string>): string
  {
    if |chunks| == 0 then "" else Concat(chunks[..|chunks| - 1]) + chunks[|chunks| - 1]
  }

  lemma ConcatSnoc(chunks: seq<string>, c: string)
    ensures Concat(chunks + [c]) == Concat(chunks) + c
  {
    assert (chunks + [c])[..|chunks|] == chunks;
  }

  /** Chunks without line feeds join into a text without one. */
  lemma {:induction false} ConcatOneLine(chunks: seq<string>)
    requires forall k :: 0 <= k < |chunks| ==> '\n' !in chunks[k]
    ensures '\n' !in Concat(chunks)
  {
    if |chunks| > 0 {
      ConcatOneLine(chunks[..|chunks| - 1]);
    }
  }

  /** The receiver's state after each chunk in turn, starting empty: the
      commands queued so far and the bytes held back. */
  function FrameChunks(chunks: seq<string>): (seq<string>, string)
  {
    if |chunks| == 0 then ([], "")
    else
      var prev := FrameChunks(chunks[..|chunks| - 1]);
      var step := Scan(prev.1, chunks[|chunks| - 1]);
      (prev.0 + step.0, step.1)
  }

  /** Chunk-boundary independence: however the stream was cut into
      chunks, the commands are the non-empty lines of the whole stream and
      the held-back bytes are its tail after the last line feed. */
  lemma {:induction false} FramingIgnoresChunkBoundaries(chunks: seq<string>)
    ensures FrameChunks(chunks) == (Lines(Concat(chunks)), Tail(Concat(chunks)))
  {
    if |chunks| > 0 {
      var front := chunks[..|chunks| - 1];
      FramingIgnoresChunkBoundaries(front);
      ScanAppend("", Concat(front), chunks[|chunks| - 1]);
    }
  }

  /** Two ways of cutting the same stream frame identically. */
  lemma SameStreamSameCommands(xs: seq<string>, ys: seq<string>)
    requires Concat(xs) == Concat(ys)
    ensures FrameChunks(xs) == FrameChunks(ys)
  {
    FramingIgnoresChunkBoundaries(xs);
    FramingIgnoresChunkBoundaries(ys);
  }

  /** The text of a sequence of lines, each followed by a line feed. */
  function Terminated(lines: seq<string>): string
  {
    if |lines| == 0 then "" else lines[0] + "\n" + Terminated(lines[1..])
  }

  /** Writing non-empty one-line texts each followed by a line feed, and
      framing the result, gives back exactly those texts and holds nothing
      back: the line protocol round-trips. */
  lemma {:induction false} FramingRecoversLines(lines: seq<string>)
    requires forall i :: 0 <= i < |lines| ==> |lines[i]| > 0 && '\n' !in lines[i]
    ensures Lines(Terminated(lines)) == lines
    ensures Tail(Terminated(lines)) == ""
  {
    if |lines| > 0 {
      var l := lines[0];
      var rest := Terminated(lines[1..]);
      FramingRecoversLines(lines[1..]);
      assert Terminated(lines) == l + ("\n" + rest);
      ScanAppend("", l, "\n" + rest);
      ScanWithoutNewline("", l);
      assert "" + l == l;
      assert ("\n" + rest)[0] == '\n' && ("\n" + rest)[1..] == rest;
    }
  }
}
