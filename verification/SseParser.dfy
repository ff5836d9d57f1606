/**
 Parsing of server-sent events from text that arrives in arbitrary chunks: after each chunk the
 unfinished rest is kept and put in front of the next one.
 */
module SseParser {
  import opened Common

  datatype Frame = Frame(id: Option<string>, event: Option<string>, data: string)

  datatype Parsed = Parsed(frames: seq<Frame>, remainder: string)

  // ---- Line ends ----

  /** Every CR LF becomes LF; a lone CR stays. */
  function NormalizeEnds(s: string): string {
    if s == "" then ""
    else if |s| >= 2 && s[0] == '\r' && s[1] == '\n' then "\n" + NormalizeEnds(s[2..])
    else [s[0]] + NormalizeEnds(s[1..])
  }

  /** No CR LF pair. */
  predicate NoCrLf(s: string) {
    forall i :: 0 <= i < |s| - 1 ==> !(s[i] == '\r' && s[i + 1] == '\n')
  }

  /** No CR CR LF triple. */
  predicate NoCrCrLf(s: string) {
    forall i :: 0 <= i < |s| - 2 ==> !(s[i] == '\r' && s[i + 1] == '\r' && s[i + 2] == '\n')
  }

  // ---- Cutting at blank lines ----

  /** `source.split('\n\n')`: the finished chunks and the last one; `open` is the chunk being read. */
  function Cut(open: string, s: string): (seq<string>, string)
    decreases s
  {
    if s == "" then ([], open)
    else if |s| >= 2 && s[0] == '\n' && s[1] == '\n' then
      var rest := Cut("", s[2..]);
      ([open] + rest.0, rest.1)
    else Cut(open + [s[0]], s[1..])
  }

  // ---- One chunk ----

  datatype Fields = Fields(id: Option<string>, event: Option<string>, data: seq<string>)

  function IndexOfColon(s: string): (i: nat)
    ensures i <= |s|
    ensures i < |s| ==> s[i] == ':'
    ensures forall j :: 0 <= j < i ==> s[j] != ':'
  {
    if s == "" || s[0] == ':' then 0 else 1 + IndexOfColon(s[1..])
  }

  function DropSpace(s: string): string {
    if s != "" && s[0] == ' ' then s[1..] else s
  }

  function ReadLine(acc: Fields, line: string): Fields {
    if line == "" || line[0] == ':' then acc
    else
      var i := IndexOfColon(line);
      var field := line[..i];
      var value := if i == |line| then "" else DropSpace(line[i + 1..]);
      if field == "id" then acc.(id := Some(value))
      else if field == "event" then acc.(event := Some(value))
      else if field == "data" then acc.(data := acc.data + [value])
      else acc
  }

  function ReadLines(acc: Fields, lines: seq<string>): Fields {
    if lines == [] then acc else ReadLine(ReadLines(acc, lines[..|lines| - 1]), lines[|lines| - 1])
  }

  /** `s.split('\n')`; `open` is the line being read. */
  function Lines(open: string, s: string): (r: seq<string>)
    ensures r != []
    decreases s
  {
    if s == "" then [open]
    else if s[0] == '\n' then [open] + Lines("", s[1..])
    else Lines(open + [s[0]], s[1..])
  }

  function JoinLines(lines: seq<string>): string {
    if lines == [] then ""
    else if |lines| == 1 then lines[0]
    else lines[0] + "\n" + JoinLines(lines[1..])
  }

  const NO_FIELDS := Fields(None, None, [])

  /** The frame of a chunk, if it has any data line. */
  function ChunkFrames(chunk: string): seq<Frame> {
    var f := ReadLines(NO_FIELDS, Lines("", chunk));
    if f.data == [] then [] else [Frame(f.id, f.event, JoinLines(f.data))]
  }

  function AllFrames(chunks: seq<string>): seq<Frame> {
    if chunks == [] then [] else ChunkFrames(chunks[0]) + AllFrames(chunks[1..])
  }

  function ParseSse(source: string): Parsed {
    var cut := Cut("", NormalizeEnds(source));
    Parsed(AllFrames(cut.0), cut.1)
  }

  /** The lines of one chunk, as the inner loop reads them. */
  method ReadChunk(lines: seq<string>) returns (f: Fields)
    ensures f == ReadLines(NO_FIELDS, lines)
  {
    var id: Option<string>, event: Option<string>, data: seq<string> := None, None, [];
    for j := 0 to |lines|
      invariant Fields(id, event, data) == ReadLines(NO_FIELDS, lines[..j])
    {
      assert lines[..j + 1][..j] == lines[..j];
      var line := lines[j];
      if line == "" || line[0] == ':' { continue; }
      var separator := IndexOfColon(line);
      var field := line[..separator];
      var value := if separator == |line| then "" else DropSpace(line[separator + 1..]);
      if field == "id" { id := Some(value); }
      if field == "event" { event := Some(value); }
      if field == "data" { data := data + [value]; }
    }
    assert lines[..|lines|] == lines;
    f := Fields(id, event, data);
  }

  /** `parseSseFrames` with its loops over chunks and lines. */
  method ParseSseFrames(source: string) returns (frames: seq<Frame>, remainder: string)
    ensures Parsed(frames, remainder) == ParseSse(source)
  {
    var cut := Cut("", NormalizeEnds(source));
    var chunks := cut.0;
    remainder := cut.1;
    frames := [];
    var i := 0;
    while i < |chunks|
      invariant 0 <= i <= |chunks|
      invariant frames + AllFrames(chunks[i..]) == AllFrames(chunks)
    {
      var f := ReadChunk(Lines("", chunks[i]));
      AllFramesUnfold(chunks, i, frames);
      if f.data != [] {
        frames := frames + [Frame(f.id, f.event, JoinLines(f.data))];
      }
      i := i + 1;
    }
    assert chunks[|chunks|..] == [];
  }

  lemma {:induction false} AllFramesUnfold(chunks: seq<string>, i: nat, before: seq<Frame>)
    requires i < |chunks|
    ensures before + AllFrames(chunks[i..]) == (before + ChunkFrames(chunks[i])) + AllFrames(chunks[i + 1..])
    ensures before + [] == before
  {
    assert chunks[i..][1..] == chunks[i + 1..];
  }

  // ---- Feeding chunk by chunk ----

  /** Feeds one more chunk behind the remainder of what was read before. */
  function Feed(before: Parsed, chunk: string): Parsed {
    var next := ParseSse(before.remainder + chunk);
    Parsed(before.frames + next.frames, next.remainder)
  }

  function FeedAll(chunks: seq<string>): Parsed {
    if chunks == [] then Parsed([], "") else Feed(FeedAll(chunks[..|chunks| - 1]), chunks[|chunks| - 1])
  }

  lemma {:induction false} FeedNext(chunks: seq<string>, chunk: string)
    ensures FeedAll(chunks + [chunk]) == Feed(FeedAll(chunks), chunk)
  {
    assert (chunks + [chunk])[..|chunks|] == chunks;
  }

  function Concat(chunks: seq<string>): string {
    if chunks == [] then "" else Concat(chunks[..|chunks| - 1]) + chunks[|chunks| - 1]
  }

  // ---- Normalisation and concatenation ----

  /** A CR LF pair lies across the seam. */
  predicate SplitPair(a: string, b: string) {
    a != "" && b != "" && a[|a| - 1] == '\r' && b[0] == '\n'
  }

  lemma {:induction false} NormalizeConcat(a: string, b: string)
    requires !SplitPair(a, b)
    ensures NormalizeEnds(a + b) == NormalizeEnds(a) + NormalizeEnds(b)
    decreases a
  {
    if a == "" {
      assert a + b == b && NormalizeEnds(a) + NormalizeEnds(b) == NormalizeEnds(b);
    } else if |a| >= 2 && a[0] == '\r' && a[1] == '\n' {
      assert (a + b)[2..] == a[2..] + b;
      NormalizeConcat(a[2..], b);
      assert "\n" + (NormalizeEnds(a[2..]) + NormalizeEnds(b)) == ("\n" + NormalizeEnds(a[2..])) + NormalizeEnds(b);
    } else {
      assert (a + b)[1..] == a[1..] + b;
      assert |a + b| >= 2 ==> (a + b)[1] == if |a| >= 2 then a[1] else b[0];
      NormalizeConcat(a[1..], b);
      assert [a[0]] + (NormalizeEnds(a[1..]) + NormalizeEnds(b)) == ([a[0]] + NormalizeEnds(a[1..])) + NormalizeEnds(b);
    }
  }

  lemma {:induction false} NormalizeFixed(s: string)
    requires NoCrLf(s)
    ensures NormalizeEnds(s) == s
  {
    if s != "" {
      assert !(|s| >= 2 && s[0] == '\r' && s[1] == '\n');
      forall i | 0 <= i < |s[1..]| - 1 ensures !(s[1..][i] == '\r' && s[1..][i + 1] == '\n') {
        assert s[1..][i] == s[i + 1];
      }
      NormalizeFixed(s[1..]);
    }
  }

  lemma {:induction false} NormalizeFirst(s: string)
    requires NormalizeEnds(s) != "" && NormalizeEnds(s)[0] == '\n'
    ensures (s[0] == '\n') || (|s| >= 2 && s[0] == '\r' && s[1] == '\n')
  {
  }

  /** Without CR CR LF one pass removes every CR LF. */
  lemma {:induction false} NormalizeRemoves(s: string)
    requires NoCrCrLf(s)
    ensures NoCrLf(NormalizeEnds(s))
  {
    if s == "" {
    } else if |s| >= 2 && s[0] == '\r' && s[1] == '\n' {
      assert forall i :: 0 <= i < |s[2..]| ==> s[2..][i] == s[i + 2];
      NormalizeRemoves(s[2..]);
    } else {
      var t := s[1..];
      assert forall i :: 0 <= i < |t| ==> t[i] == s[i + 1];
      NormalizeRemoves(t);
      var n := NormalizeEnds(t);
      if n != "" && n[0] == '\n' {
        NormalizeFirst(t);
        assert t[0] == s[1] && (|t| >= 2 ==> t[1] == s[2]);
      }
      assert NormalizeEnds(s) == [s[0]] + n;
    }
  }

  /** The last character survives, except that a final CR LF leaves LF. */
  lemma {:induction false} NormalizeLast(s: string)
    requires s != ""
    ensures NormalizeEnds(s) != "" && NormalizeEnds(s)[|NormalizeEnds(s)| - 1] == s[|s| - 1]
  {
    if |s| >= 2 && s[0] == '\r' && s[1] == '\n' {
      if |s| > 2 { NormalizeLast(s[2..]); }
    } else if |s| > 1 {
      NormalizeLast(s[1..]);
    }
  }

  // ---- Cutting and concatenation ----

  predicate NoBlankLine(s: string) {
    forall i :: 0 <= i < |s| - 1 ==> !(s[i] == '\n' && s[i + 1] == '\n')
  }

  /** Text without a blank line only grows the open chunk. */
  lemma {:induction false} CutOpen(open: string, s: string, t: string)
    requires NoBlankLine(s)
    requires s != "" && t != "" ==> !(s[|s| - 1] == '\n' && t[0] == '\n')
    ensures Cut(open, s + t) == Cut(open + s, t)
    decreases s
  {
    if s == "" {
      assert s + t == t && open + s == open;
    } else {
      assert (s + t)[1..] == s[1..] + t;
      assert (open + [s[0]]) + s[1..] == open + s;
      assert forall i :: 0 <= i < |s[1..]| ==> s[1..][i] == s[i + 1];
      assert !(|s + t| >= 2 && (s + t)[0] == '\n' && (s + t)[1] == '\n') by {
        if |s| >= 2 { assert (s + t)[1] == s[1]; } else { assert |s + t| >= 2 ==> (s + t)[1] == t[0]; }
      }
      CutOpen(open + [s[0]], s[1..], t);
    }
  }

  /** The unfinished chunk holds no blank line and ends as the text does. */
  lemma {:induction false} CutLeavesNoBlankLine(open: string, x: string)
    requires NoBlankLine(open)
    requires open != "" && x != "" ==> !(open[|open| - 1] == '\n' && x[0] == '\n')
    ensures NoBlankLine(Cut(open, x).1)
    decreases x
  {
    if x != "" {
      if |x| >= 2 && x[0] == '\n' && x[1] == '\n' {
        CutLeavesNoBlankLine("", x[2..]);
      } else {
        CutLeavesNoBlankLine(open + [x[0]], x[1..]);
      }
    }
  }

  /**
   Cutting a longer text goes on where cutting the shorter one stopped: the finished chunks stay,
   and the open chunk is the beginning of the rest.
   */
  lemma {:induction false} CutConcat(open: string, x: string, y: string)
    requires NoBlankLine(open)
    requires open != "" && x + y != "" ==> !(open[|open| - 1] == '\n' && (x + y)[0] == '\n')
    ensures Cut(open, x + y) == (Cut(open, x).0 + Cut("", Cut(open, x).1 + y).0, Cut("", Cut(open, x).1 + y).1)
    decreases x
  {
    if x == "" {
      assert x + y == y;
      CutResume(open, y);
      assert [] + Cut("", open + y).0 == Cut("", open + y).0;
    } else if |x| >= 2 && x[0] == '\n' && x[1] == '\n' {
      assert (x + y)[2..] == x[2..] + y;
      CutConcat("", x[2..], y);
      var first, rest := Cut("", x[2..]), Cut("", Cut("", x[2..]).1 + y);
      assert [open] + (first.0 + rest.0) == ([open] + first.0) + rest.0;
    } else if |x| == 1 && x[0] == '\n' && y != "" && y[0] == '\n' {
      assert x + y == "\n" + y && x[1..] == "";
      CutResume2(open, y);
      var rest := Cut("", (open + "\n") + y);
      assert [] + rest.0 == rest.0;
    } else {
      assert (x + y)[1..] == x[1..] + y;
      var wider := open + [x[0]];
      CutConcat(wider, x[1..], y);
    }
  }

  lemma {:induction false} CutResume(open: string, y: string)
    requires NoBlankLine(open)
    requires open != "" && y != "" ==> !(open[|open| - 1] == '\n' && y[0] == '\n')
    ensures Cut(open, y) == Cut("", open + y)
  {
    CutOpen("", open, y);
    assert "" + open == open;
  }

  lemma {:induction false} CutResume2(open: string, y: string)
    requires NoBlankLine(open) && (open != "" ==> open[|open| - 1] != '\n')
    requires y != "" && y[0] == '\n'
    ensures Cut(open, "\n" + y) == Cut("", (open + "\n") + y)
  {
    CutOpen("", open, "\n" + y);
    assert "" + open == open;
    assert open + ("\n" + y) == (open + "\n") + y;
  }

  /** The unfinished chunk is the end of the text. */
  lemma {:induction false} RemainderIsSuffix(open: string, s: string)
    ensures var r := Cut(open, s).1;
      |r| <= |open + s| && (open + s)[|open + s| - |r|..] == r
    decreases s
  {
    if s != "" {
      if |s| >= 2 && s[0] == '\n' && s[1] == '\n' {
        RemainderIsSuffix("", s[2..]);
        assert "" + s[2..] == s[2..];
      } else {
        assert (open + [s[0]]) + s[1..] == open + s;
        RemainderIsSuffix(open + [s[0]], s[1..]);
      }
    }
  }

  /** What a suffix inherits. */
  lemma {:induction false} SuffixFacts(n: string, r: string)
    requires NoCrLf(n) && |r| <= |n| && n[|n| - |r|..] == r
    ensures NoCrLf(r)
    ensures r != "" ==> n != "" && r[|r| - 1] == n[|n| - 1]
  {
    assert forall i :: 0 <= i < |r| ==> r[i] == n[|n| - |r| + i];
  }

  /** The remainder of normalised text is normalised, holds no blank line and ends as the text does. */
  lemma {:induction false} RemainderIsPlain(n: string, r: string)
    requires NoCrLf(n) && r == Cut("", n).1
    ensures NoCrLf(r) && NoBlankLine(r) && NormalizeEnds(r) == r
    ensures r != "" ==> n != "" && r[|r| - 1] == n[|n| - 1]
  {
    WholeRemainderIsSuffix(n, r);
    SuffixFacts(n, r);
    NormalizeFixed(r);
    CutLeavesNoBlankLine("", n);
  }

  lemma {:induction false} WholeRemainderIsSuffix(n: string, r: string)
    requires r == Cut("", n).1
    ensures |r| <= |n| && n[|n| - |r|..] == r
  {
    RemainderIsSuffix("", n);
    assert "" + n == n;
  }

  lemma {:induction false} AllFramesConcat(a: seq<string>, b: seq<string>)
    ensures AllFrames(a + b) == AllFrames(a) + AllFrames(b)
  {
    if a == [] {
      assert a + b == b;
    } else {
      assert (a + b)[1..] == a[1..] + b;
      AllFramesConcat(a[1..], b);
    }
  }

  // ---- Chunk invariance ----

  /** Feeding the rest after `a` gives what parsing everything at once gives. */
  predicate Resumes(a: string, b: string) {
    Feed(ParseSse(a), b) == ParseSse(a + b)
  }

  /** When the normal forms line up, cutting resumes and so does parsing. */
  lemma {:induction false} ResumeFromNormalForms(a: string, b: string, n: string, tail: string)
    requires NoCrLf(n)
    requires NormalizeEnds(a + b) == n + tail
    requires var before := ParseSse(a).remainder;
      NormalizeEnds(before + b) == Cut("", n).1 + tail && AllFrames(Cut("", n).0) == ParseSse(a).frames
    ensures Resumes(a, b)
  {
    CutConcat("", n, tail);
    var first := Cut("", n);
    AllFramesConcat(first.0, Cut("", first.1 + tail).0);
  }

  /** A CR left alone at the end of the text stays at the end of the remainder. */
  lemma {:induction false} TrailingCr(n: string, r: string)
    requires NoCrLf(n) && r == Cut("", n).1
    ensures Cut("", n + "\r") == (Cut("", n).0, r + "\r")
  {
    RemainderIsPlain(n, r);
    CutConcat("", n, "\r");
    CutOpen("", r, "\r");
    assert "" + r == r && "\r"[1..] == "";
    assert Cut(r, "\r") == ([], r + "\r");
    assert Cut("", n).0 + [] == Cut("", n).0;
  }

  lemma {:induction false} NormalizeAtPair(a: string, b: string)
    ensures NormalizeEnds(a + ("\r\n" + b)) == NormalizeEnds(a) + ("\n" + NormalizeEnds(b))
  {
    NormalizeConcat(a, "\r\n" + b);
    assert ("\r\n" + b)[2..] == b;
  }

  lemma {:induction false} NormalizeBeforeCr(a: string)
    ensures NormalizeEnds(a + "\r") == NormalizeEnds(a) + "\r"
  {
    NormalizeConcat(a, "\r");
    assert NormalizeEnds("\r") == "\r";
  }

  /** The seam lies between CR and LF. */
  lemma {:induction false} SplitInsidePair(front: string, back: string)
    requires NoCrCrLf(front + "\r\n" + back)
    ensures Resumes(front + "\r", "\n" + back)
  {
    var a, b, n, tail := front + "\r", "\n" + back, NormalizeEnds(front), "\n" + NormalizeEnds(back);
    assert NoCrCrLf(front) by {
      assert forall i :: 0 <= i < |front| ==> (front + "\r\n" + back)[i] == front[i];
    }
    NormalizeRemoves(front);
    NormalizeBeforeCr(front);
    NormalizeAtPair(front, back);
    var r := Cut("", n).1;
    TrailingCr(n, r);
    RemainderIsPlain(n, r);
    NormalizeAtPair(r, back);
    SeamMoves(front, r, back);
    ResumeFromNormalForms(a, b, n, tail);
  }

  lemma {:induction false} SeamMoves(front: string, r: string, back: string)
    ensures (front + "\r") + ("\n" + back) == front + ("\r\n" + back)
    ensures (r + "\r") + ("\n" + back) == r + ("\r\n" + back)
  {
  }

  /** The seam lies anywhere else. */
  lemma {:induction false} SplitOutsidePair(a: string, b: string)
    requires NoCrCrLf(a) && !SplitPair(a, b)
    ensures Resumes(a, b)
  {
    var n := NormalizeEnds(a);
    var r := Cut("", n).1;
    NormalizeRemoves(a);
    NormalizeConcat(a, b);
    RemainderIsPlain(n, r);
    if a != "" { NormalizeLast(a); }
    NormalizeConcat(r, b);
    ResumeFromNormalForms(a, b, n, NormalizeEnds(b));
  }

  /** A single split anywhere in text without CR CR LF, even between CR and LF. */
  lemma {:induction false} SplitAnywhere(a: string, b: string)
    requires NoCrCrLf(a + b)
    ensures Resumes(a, b)
  {
    if SplitPair(a, b) {
      var front, back := a[..|a| - 1], b[1..];
      assert a == front + "\r" && b == "\n" + back && a + b == front + "\r\n" + back;
      SplitInsidePair(front, back);
    } else {
      assert forall i :: 0 <= i < |a| ==> (a + b)[i] == a[i];
      SplitOutsidePair(a, b);
    }
  }

  /** Any number of chunks: the frames and the remainder are those of the whole text. */
  lemma {:induction false} ChunkInvariance(chunks: seq<string>)
    requires NoCrCrLf(Concat(chunks))
    ensures FeedAll(chunks) == ParseSse(Concat(chunks))
  {
    if chunks != [] {
      var init, last := chunks[..|chunks| - 1], chunks[|chunks| - 1];
      assert forall i :: 0 <= i < |Concat(init)| ==> Concat(chunks)[i] == Concat(init)[i];
      assert NoCrCrLf(Concat(init));
      ChunkInvariance(init);
      SplitAnywhere(Concat(init), last);
    }
  }

  /** Right after CR CR LF the remainder ends in CR LF, and reading it again shortens it. */
  lemma {:induction false} CrCrLfBreaksResumption(a: string)
    requires |a| >= 3 && a[|a| - 3..] == "\r\r\n"
    ensures !Resumes(a, "")
  {
    var front := a[..|a| - 3];
    var m := NormalizeEnds(front);
    var r := Cut("", m).1;
    assert a == front + "\r\r\n";
    NormalizeConcat(front, "\r\r\n");
    assert NormalizeEnds("\r\r\n") == "\r\n" by {
      assert "\r\r\n"[1..] == "\r\n" && "\r\n"[2..] == "";
    }
    CutConcat("", m, "\r\n");
    CutLeavesNoBlankLine("", m);
    CutCrLf(r);
    assert a + "" == a && (r + "\r\n") + "" == r + "\r\n";
    RereadShrinks(r);
  }

  lemma {:induction false} CutCrLf(r: string)
    requires NoBlankLine(r)
    ensures Cut("", r + "\r\n").1 == r + "\r\n"
  {
    CutOpen("", r, "\r\n");
    assert "" + r == r;
    assert "\r\n"[1..] == "\n" && "\n"[1..] == "";
    assert (r + "\r") + "\n" == r + "\r\n";
    assert Cut(r + "\r", "\n") == Cut((r + "\r") + "\n", "");
  }

  lemma {:induction false} RereadShrinks(r: string)
    ensures |ParseSse(r + "\r\n").remainder| < |r + "\r\n"|
  {
    NormalizeConcat(r, "\r\n");
    assert NormalizeEnds("\r\n") == "\n" by { assert "\r\n"[2..] == ""; }
    var n := NormalizeEnds(r + "\r\n");
    RemainderIsSuffix("", n);
    assert "" + n == n;
    NormalizeShrinks(r);
  }

  lemma {:induction false} NormalizeShrinks(s: string)
    ensures |NormalizeEnds(s)| <= |s|
  {
    if s != "" {
      if |s| >= 2 && s[0] == '\r' && s[1] == '\n' { NormalizeShrinks(s[2..]); } else { NormalizeShrinks(s[1..]); }
    }
  }

  /**
   The exact condition: every beginning of a text can be split anywhere without changing the
   result if and only if the text contains no CR CR LF.
   */
  lemma {:induction false} ResumptionExactlyWithoutCrCrLf(text: string)
    ensures (forall a, b :: a + b <= text ==> Resumes(a, b)) <==> NoCrCrLf(text)
  {
    if NoCrCrLf(text) {
      forall a, b | a + b <= text ensures Resumes(a, b) {
        assert forall i :: 0 <= i < |a + b| ==> text[i] == (a + b)[i];
        SplitAnywhere(a, b);
      }
    } else {
      var i :| 0 <= i < |text| - 2 && text[i] == '\r' && text[i + 1] == '\r' && text[i + 2] == '\n';
      BreaksBehind(text, i);
      assert text[..i + 3] + "" <= text;
    }
  }

  lemma {:induction false} BreaksBehind(text: string, i: nat)
    requires i < |text| - 2 && text[i] == '\r' && text[i + 1] == '\r' && text[i + 2] == '\n'
    ensures !Resumes(text[..i + 3], "")
  {
    var a := text[..i + 3];
    assert a[|a| - 3..] == "\r\r\n";
    CrCrLfBreaksResumption(a);
  }

  // ---- Writing frames and reading them back ----

  predicate OneLine(s: string) {
    '\n' !in s && '\r' !in s
  }

  /** A frame the server can write: id and event are single lines, the data holds no CR. */
  predicate Writable(f: Frame) {
    && (f.id.Some? ==> OneLine(f.id.value))
    && (f.event.Some? ==> OneLine(f.event.value))
    && '\r' !in f.data
  }

  function WriteLine(name: string, value: string): string {
    name + ": " + value
  }

  function FieldLine(name: string, value: Option<string>): seq<string> {
    if value.Some? then [WriteLine(name, value.value)] else []
  }

  function DataLines(lines: seq<string>): seq<string> {
    Map((line: string) => WriteLine("data", line), lines)
  }

  /** The lines of a frame: event, id, and one data line for every line of the data. */
  function FrameLines(f: Frame): seq<string> {
    FieldLine("event", f.event) + FieldLine("id", f.id) + DataLines(Lines("", f.data))
  }

  function Encode(frames: seq<Frame>): string {
    if frames == [] then "" else JoinLines(FrameLines(frames[0])) + ("\n\n" + Encode(frames[1..]))
  }

  /** Every line is written out in full: no line is empty or broken. */
  predicate FullLines(lines: seq<string>) {
    forall i :: 0 <= i < |lines| ==> lines[i] != "" && OneLine(lines[i])
  }

  lemma {:induction false} LinesOf(open: string, s: string)
    requires '\n' !in open && '\r' !in open + s
    ensures forall i :: 0 <= i < |Lines(open, s)| ==> OneLine(Lines(open, s)[i])
    ensures JoinLines(Lines(open, s)) == open + s
    decreases s
  {
    if s == "" {
      assert open + s == open;
    } else if s[0] == '\n' {
      LinesOf("", s[1..]);
      var rest := Lines("", s[1..]);
      assert ([open] + rest)[1..] == rest && "" + s[1..] == s[1..];
      assert open + "\n" + s[1..] == open + s;
    } else {
      assert (open + [s[0]]) + s[1..] == open + s;
      LinesOf(open + [s[0]], s[1..]);
    }
  }

  lemma {:induction false} LineThen(open: string, line: string, tail: string)
    requires '\n' !in line
    ensures Lines(open, line + tail) == Lines(open + line, tail)
    decreases line
  {
    if line == "" {
      assert line + tail == tail && open + line == open;
    } else {
      assert (line + tail)[1..] == line[1..] + tail;
      assert (open + [line[0]]) + line[1..] == open + line;
      LineThen(open + [line[0]], line[1..], tail);
    }
  }

  /** Splitting joined lines gives the lines back. */
  lemma {:induction false} LinesOfJoin(lines: seq<string>)
    requires lines != [] && forall i :: 0 <= i < |lines| ==> OneLine(lines[i])
    ensures Lines("", JoinLines(lines)) == lines
  {
    var tail := if |lines| == 1 then "" else "\n" + JoinLines(lines[1..]);
    assert JoinLines(lines) == lines[0] + tail;
    LineThen("", lines[0], tail);
    assert "" + lines[0] == lines[0];
    if |lines| > 1 {
      LinesOfJoin(lines[1..]);
      assert tail[1..] == JoinLines(lines[1..]);
      assert lines == [lines[0]] + lines[1..];
    }
  }

  /** Joined full lines hold no blank line, no CR, and neither begin nor end with a line end. */
  lemma {:induction false} JoinedIsPlain(lines: seq<string>)
    requires lines != [] && FullLines(lines)
    ensures var s := JoinLines(lines);
      s != "" && s[0] != '\n' && s[|s| - 1] != '\n' && '\r' !in s && NoBlankLine(s)
  {
    if |lines| > 1 {
      JoinedIsPlain(lines[1..]);
      var rest := JoinLines(lines[1..]);
      var s := lines[0] + "\n" + rest;
      assert s[|s| - 1] == rest[|rest| - 1] && s[0] == lines[0][0];
      forall i | 0 <= i < |s| - 1 ensures !(s[i] == '\n' && s[i + 1] == '\n') {
        if i > |lines[0]| { assert s[i] == rest[i - |lines[0]| - 1] && s[i + 1] == rest[i - |lines[0]|]; }
      }
    }
  }

  lemma {:induction false} FrameLinesAreFull(f: Frame)
    requires Writable(f)
    ensures FrameLines(f) != [] && FullLines(FrameLines(f))
  {
    assert "" + f.data == f.data;
    LinesOf("", f.data);
  }

  lemma {:induction false} ReadField(acc: Fields, name: string, value: string)
    requires name in {"event", "id", "data"}
    ensures ReadLine(acc, WriteLine(name, value)) ==
      if name == "id" then acc.(id := Some(value))
      else if name == "event" then acc.(event := Some(value))
      else acc.(data := acc.data + [value])
  {
    SplitAtColon(name, " " + value);
    assert WriteLine(name, value) == name + ":" + (" " + value);
    assert (" " + value)[1..] == value;
  }

  lemma {:induction false} SplitAtColon(name: string, rest: string)
    requires ':' !in name
    ensures var line := name + ":" + rest;
      IndexOfColon(line) == |name| && line[..|name|] == name && line[|name| + 1..] == rest
  {
    var line := name + ":" + rest;
    assert line[|name|] == ':' && forall j :: 0 <= j < |name| ==> line[j] == name[j];
  }

  lemma {:induction false} ReadOneMore(acc: Fields, written: seq<string>, last: string, before: Fields)
    requires written != [] && written[|written| - 1] == WriteLine("data", last)
    requires before == ReadLines(acc, written[..|written| - 1])
    ensures ReadLines(acc, written) == before.(data := before.data + [last])
  {
    ReadField(before, "data", last);
  }

  lemma {:induction false} ReadData(acc: Fields, lines: seq<string>)
    ensures ReadLines(acc, DataLines(lines)) == acc.(data := acc.data + lines)
  {
    if lines == [] {
      assert acc.data + lines == acc.data;
    } else {
      var init, last := lines[..|lines| - 1], lines[|lines| - 1];
      var written := DataLines(lines);
      assert written == DataLines(init) + [WriteLine("data", last)];
      assert written[..|written| - 1] == DataLines(init);
      ReadData(acc, init);
      ReadOneMore(acc, written, last, acc.(data := acc.data + init));
      assert (acc.data + init) + [last] == acc.data + lines;
    }
  }

  lemma {:induction false} ReadLinesConcat(acc: Fields, a: seq<string>, b: seq<string>)
    ensures ReadLines(acc, a + b) == ReadLines(ReadLines(acc, a), b)
  {
    if b == [] {
      assert a + b == a;
    } else {
      assert (a + b)[..|a + b| - 1] == a + b[..|b| - 1];
      ReadLinesConcat(acc, a, b[..|b| - 1]);
    }
  }

  lemma {:induction false} ReadOptional(acc: Fields, name: string, value: Option<string>)
    requires name in {"event", "id"}
    ensures ReadLines(acc, FieldLine(name, value)) ==
      if value.None? then acc else if name == "id" then acc.(id := value) else acc.(event := value)
  {
    if value.Some? {
      assert FieldLine(name, value)[..0] == [];
      ReadField(acc, name, value.value);
    }
  }

  /** One written frame is read back. */
  lemma {:induction false} ChunkOfFrame(f: Frame)
    requires Writable(f)
    ensures ChunkFrames(JoinLines(FrameLines(f))) == [f]
  {
    var lines := Lines("", f.data);
    FrameLinesAreFull(f);
    LinesOfJoin(FrameLines(f));
    ReadLinesConcat(NO_FIELDS, FieldLine("event", f.event) + FieldLine("id", f.id), DataLines(lines));
    ReadLinesConcat(NO_FIELDS, FieldLine("event", f.event), FieldLine("id", f.id));
    ReadOptional(NO_FIELDS, "event", f.event);
    ReadOptional(Fields(None, f.event, []), "id", f.id);
    ReadData(Fields(f.id, f.event, []), lines);
    LinesOf("", f.data);
    assert "" + f.data == f.data && [] + lines == lines;
  }

  lemma {:induction false} EncodedHasNoCr(frames: seq<Frame>)
    requires forall i :: 0 <= i < |frames| ==> Writable(frames[i])
    ensures '\r' !in Encode(frames)
  {
    if frames != [] {
      FrameLinesAreFull(frames[0]);
      JoinedIsPlain(FrameLines(frames[0]));
      EncodedHasNoCr(frames[1..]);
    }
  }

  /** Cutting at the blank line behind a chunk without one. */
  lemma {:induction false} CutChunk(chunk: string, rest: string)
    requires NoBlankLine(chunk) && chunk != "" && chunk[|chunk| - 1] != '\n'
    ensures Cut("", chunk + ("\n\n" + rest)) == ([chunk] + Cut("", rest).0, Cut("", rest).1)
  {
    CutOpen("", chunk, "\n\n" + rest);
    assert "" + chunk == chunk && ("\n\n" + rest)[2..] == rest;
  }

  lemma {:induction false} CutOfEncoded(frames: seq<Frame>)
    requires forall i :: 0 <= i < |frames| ==> Writable(frames[i])
    ensures AllFrames(Cut("", Encode(frames)).0) == frames && Cut("", Encode(frames)).1 == ""
  {
    if frames != [] {
      var chunk, rest := JoinLines(FrameLines(frames[0])), Encode(frames[1..]);
      FrameLinesAreFull(frames[0]);
      JoinedIsPlain(FrameLines(frames[0]));
      CutChunk(chunk, rest);
      CutOfEncoded(frames[1..]);
      ChunkOfFrame(frames[0]);
      FramesOfCut(chunk, Cut("", rest).0, frames);
    }
  }

  lemma {:induction false} FramesOfCut(chunk: string, cut: seq<string>, frames: seq<Frame>)
    requires frames != [] && ChunkFrames(chunk) == [frames[0]] && AllFrames(cut) == frames[1..]
    ensures AllFrames([chunk] + cut) == frames
  {
    assert ([chunk] + cut)[1..] == cut;
    assert frames == [frames[0]] + frames[1..];
  }

  lemma {:induction false} ParseOfEncoded(frames: seq<Frame>)
    requires forall i :: 0 <= i < |frames| ==> Writable(frames[i])
    ensures ParseSse(Encode(frames)) == Parsed(frames, "")
  {
    EncodedHasNoCr(frames);
    NormalizeFixed(Encode(frames));
    CutOfEncoded(frames);
  }

  /**
   Round trip over the wire: whatever frames are written, and however far and in whatever chunks
   the text arrives, what has been read is a beginning of what was written; once all has arrived
   it is all of it, with nothing left over.
   */
  lemma {:induction false} WireRoundTrip(frames: seq<Frame>, chunks: seq<string>)
    requires forall i :: 0 <= i < |frames| ==> Writable(frames[i])
    requires Concat(chunks) <= Encode(frames)
    ensures FeedAll(chunks).frames <= frames
    ensures Concat(chunks) == Encode(frames) ==> FeedAll(chunks) == Parsed(frames, "")
  {
    EncodedHasNoCr(frames);
    ParseOfEncoded(frames);
    BeginningIsRead(Encode(frames), Concat(chunks));
    ChunkInvariance(chunks);
  }

  lemma {:induction false} BeginningIsRead(whole: string, read: string)
    requires '\r' !in whole && read <= whole
    ensures '\r' !in read && ParseSse(read).frames <= ParseSse(whole).frames
  {
    var later := whole[|read|..];
    assert read + later == whole;
    assert forall i :: 0 <= i < |read| ==> read[i] == whole[i];
    assert NoCrCrLf(whole);
    SplitAnywhere(read, later);
  }
}
