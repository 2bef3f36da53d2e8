// Truncating tool output to a number of lines and bytes
// (grain-agent-harness/src/truncate.rs), from the front or from the back; when not even the
// last line fits, to the longest part of it that starts on a character boundary.
module Truncate {
  import opened Messages
  import opened Bytes

  const DEFAULT_MAX_LINES := 2000
  const DEFAULT_MAX_BYTES := 50 * 1024

  datatype TruncatedBy = ByLines | ByBytes

  datatype TruncationOptions = TruncationOptions(maxLines: Option<nat>, maxBytes: Option<nat>)

  datatype TruncationResult = TruncationResult(
    content: seq<byte>,
    truncated: bool,
    truncatedBy: Option<TruncatedBy>,
    totalLines: nat,
    totalBytes: nat,
    outputLines: nat,
    outputBytes: nat,
    lastLinePartial: bool,
    firstLineExceedsLimit: bool)

  function MaxLines(o: TruncationOptions): nat { if o.maxLines.Some? then o.maxLines.value else DEFAULT_MAX_LINES }

  function MaxBytes(o: TruncationOptions): nat { if o.maxBytes.Some? then o.maxBytes.value else DEFAULT_MAX_BYTES }

  lemma LimitsAreAsAsked(o: TruncationOptions)
    ensures MaxLines(o) == 2000 || o.maxLines == Some(MaxLines(o))
    ensures MaxBytes(o) == 51200 || o.maxBytes == Some(MaxBytes(o))
    ensures o.maxLines.Some? ==> MaxLines(o) == o.maxLines.value
    ensures o.maxBytes.Some? ==> MaxBytes(o) == o.maxBytes.value
  {
  }

  // --- Lines ---

  function Split(content: seq<byte>): (lines: seq<seq<byte>>)
    ensures lines != []
    ensures forall line :: line in lines ==> NEWLINE !in line
  {
    if content == [] then [[]]
    else
      var rest := Split(content[1..]);
      if content[0] == NEWLINE then [[]] + rest else [[content[0]] + rest[0]] + rest[1..]
  }

  function Join(lines: seq<seq<byte>>): seq<byte> {
    if lines == [] then []
    else if |lines| == 1 then lines[0]
    else lines[0] + [NEWLINE] + Join(lines[1..])
  }

  lemma {:induction false} SplitJoins(content: seq<byte>)
    ensures Join(Split(content)) == content
    decreases |content|
  {
    if content != [] {
      SplitJoins(content[1..]);
      JoinFirst(content[0], Split(content[1..]));
      assert content == [content[0]] + content[1..];
    }
  }

  // Putting one byte in front, as `Split` does.
  lemma JoinFirst(b: byte, rest: seq<seq<byte>>)
    requires rest != []
    ensures Join(if b == NEWLINE then [[]] + rest else [[b] + rest[0]] + rest[1..]) == [b] + Join(rest)
  {
    if b == NEWLINE {
      assert ([[]] + rest)[1..] == rest;
    } else {
      assert ([[b] + rest[0]] + rest[1..])[1..] == rest[1..];
    }
  }

  lemma {:induction false} JoinLast(lines: seq<seq<byte>>, line: seq<byte>)
    requires lines != []
    ensures Join(lines + [line]) == Join(lines) + [NEWLINE] + line
    decreases |lines|
  {
    var all := lines + [line];
    if |lines| == 1 {
      assert all[1..] == [line];
    } else {
      JoinLast(lines[1..], line);
      assert all[1..] == lines[1..] + [line];
    }
  }

  // A longer run of leading lines, or of trailing ones, is no shorter in bytes.
  lemma {:induction false} HeadGrows(lines: seq<seq<byte>>, j: nat, k: nat)
    requires 0 < j <= k <= |lines|
    ensures |Join(lines[..j])| <= |Join(lines[..k])|
    decreases k
  {
    if j < k {
      HeadGrows(lines, j, k - 1);
      JoinLast(lines[..k - 1], lines[k - 1]);
      assert lines[..k] == lines[..k - 1] + [lines[k - 1]];
    }
  }

  lemma {:induction false} TailGrows(lines: seq<seq<byte>>, j: nat, k: nat)
    requires k <= j < |lines|
    ensures |Join(lines[j..])| <= |Join(lines[k..])|
    decreases j - k
  {
    if k < j {
      TailGrows(lines, j, k + 1);
      assert lines[k..][1..] == lines[k + 1..];
    }
  }

  // --- From the head ---

  // The most leading lines that fit both limits.
  ghost predicate IsLongestHead(lines: seq<seq<byte>>, k: nat, maxLines: nat, maxBytes: nat) {
    && k <= |lines| && k <= maxLines
    && |Join(lines[..k])| <= maxBytes
    && forall j :: k < j <= |lines| && j <= maxLines ==> |Join(lines[..j])| > maxBytes
  }

  method TruncateHead(content: seq<byte>, options: TruncationOptions) returns (r: TruncationResult)
    ensures r.totalLines == |Split(content)| && r.totalBytes == |content|
    ensures r.outputBytes == |r.content| && !r.lastLinePartial
    ensures IsLongestHead(Split(content), r.outputLines, MaxLines(options), MaxBytes(options))
    ensures r.content == Join(Split(content)[..r.outputLines])
    ensures r.truncated <==> r.content != content || r.outputLines < |Split(content)|
    ensures r.truncatedBy.Some? <==> r.truncated
    ensures r.firstLineExceedsLimit <==> |Split(content)[0]| > MaxBytes(options)
    ensures r.truncated && !r.firstLineExceedsLimit ==> (r.truncatedBy == Some(ByLines) <==> r.outputLines == MaxLines(options))
    ensures r.firstLineExceedsLimit ==> r.truncatedBy == Some(ByBytes) && r.outputLines == 0
  {
    var maxLines, maxBytes := MaxLines(options), MaxBytes(options);
    var lines := Split(content);
    var total := |lines|;
    SplitJoins(content);
    assert lines[..total] == lines;
    HeadsNoLonger(lines);
    if total <= maxLines && |content| <= maxBytes {
      return TruncationResult(content, false, None, total, |content|, total, |content|, false, false);
    }
    if |lines[0]| > maxBytes {
      return TruncationResult([], true, Some(ByBytes), total, |content|, 0, 0, false, true);
    }
    var kept, byteCount, cause := KeepHead(lines, maxLines, maxBytes);
    if |kept| >= maxLines && byteCount <= maxBytes {
      cause := ByLines;
    }
    r := TruncationResult(Join(kept), true, Some(cause), total, |content|, |kept|, |Join(kept)|, false, false);
  }

  lemma HeadsNoLonger(lines: seq<seq<byte>>)
    requires lines != []
    ensures forall j :: 0 < j <= |lines| ==> |lines[0]| <= |Join(lines[..j])| <= |Join(lines[..|lines|])|
  {
    forall j | 0 < j <= |lines|
      ensures |lines[0]| <= |Join(lines[..j])| <= |Join(lines[..|lines|])|
    {
      assert lines[..1] == [lines[0]];
      HeadGrows(lines, 1, j);
      HeadGrows(lines, j, |lines|);
    }
  }

  method KeepHead(lines: seq<seq<byte>>, maxLines: nat, maxBytes: nat)
    returns (kept: seq<seq<byte>>, byteCount: nat, cause: TruncatedBy)
    requires lines != []
    ensures |kept| <= |lines| && kept == lines[..|kept|] && byteCount == |Join(kept)|
    ensures IsLongestHead(lines, |kept|, maxLines, maxBytes)
    ensures cause == ByBytes <==> |kept| < |lines| && |kept| < maxLines
  {
    kept, byteCount, cause := [], 0, ByLines;
    var i := 0;
    while i < |lines| && i < maxLines
      invariant i <= |lines| && i <= maxLines && kept == lines[..i]
      invariant byteCount == |Join(kept)| <= maxBytes && cause == ByLines
    {
      var lineBytes := |lines[i]| + if i > 0 then 1 else 0;
      assert lines[..i + 1] == lines[..i] + [lines[i]];
      if i > 0 {
        JoinLast(lines[..i], lines[i]);
      }
      assert |Join(lines[..i + 1])| == byteCount + lineBytes;
      if byteCount + lineBytes > maxBytes {
        cause := ByBytes;
        LongerHeadsExceed(lines, i + 1, maxBytes);
        break;
      }
      kept, byteCount := kept + [lines[i]], byteCount + lineBytes;
      i := i + 1;
    }
  }

  lemma LongerHeadsExceed(lines: seq<seq<byte>>, k: nat, maxBytes: nat)
    requires 0 < k <= |lines| && |Join(lines[..k])| > maxBytes
    ensures forall j :: k <= j <= |lines| ==> |Join(lines[..j])| > maxBytes
  {
    forall j | k <= j <= |lines|
      ensures |Join(lines[..j])| > maxBytes
    {
      HeadGrows(lines, k, j);
    }
  }

  // --- From the tail ---

  // Lines without the empty one after a final newline.
  function TailLines(content: seq<byte>): (lines: seq<seq<byte>>)
    ensures lines != []
  {
    var lines := Split(content);
    if |lines| > 1 && lines[|lines| - 1] == [] then lines[..|lines| - 1] else lines
  }

  // The most trailing lines that fit both limits, from line k on.
  ghost predicate IsLongestTail(lines: seq<seq<byte>>, k: nat, maxLines: nat, maxBytes: nat) {
    && k <= |lines| && |lines| - k <= maxLines
    && |Join(lines[k..])| <= maxBytes
    && forall j :: 0 <= j < k && |lines| - j <= maxLines ==> |Join(lines[j..])| > maxBytes
  }

  // UTF-8 continuation bytes (RFC 3629, section 3) do not start a character.
  predicate IsCharBoundary(s: seq<byte>, i: nat)
    requires i <= |s|
  {
    i == 0 || i == |s| || !(128 <= s[i] < 192)
  }

  // Continuation bytes are those whose two highest bits are 10.
  lemma CharBoundaryIff(s: seq<byte>, i: nat)
    requires i < |s|
    ensures IsCharBoundary(s, i) <==> i == 0 || s[i] as int / 64 != 2
  {
  }

  ghost predicate IsLongestSuffix(s: seq<byte>, start: nat, maxBytes: nat) {
    && start <= |s| && |s| - start <= maxBytes
    && IsCharBoundary(s, start)
    && forall i :: 0 <= i < start && IsCharBoundary(s, i) ==> |s| - i > maxBytes
  }

  method TruncateStrToBytesFromEnd(s: seq<byte>, maxBytes: nat) returns (out: seq<byte>)
    ensures |out| <= |s| && out == s[|s| - |out|..]
    ensures IsLongestSuffix(s, |s| - |out|, maxBytes)
  {
    if maxBytes == 0 {
      return [];
    }
    var from := |s|;
    while from > 0
      invariant 0 <= from <= |s| && |s| - from <= maxBytes && IsCharBoundary(s, from)
    {
      var prev := from - 1;
      while prev > 0 && !IsCharBoundary(s, prev)
        invariant prev < from
        invariant forall i :: prev < i < from ==> !IsCharBoundary(s, i)
      {
        prev := prev - 1;
      }
      if |s| - prev > maxBytes {
        break;
      }
      from := prev;
    }
    out := s[from..];
  }

  // What is kept are the longest trailing lines, or a suffix of the last line when not even
  // that line fits. With a limit of zero lines nothing is kept, and one line is reported.
  method TruncateTail(content: seq<byte>, options: TruncationOptions) returns (r: TruncationResult, ghost k: nat)
    ensures r.totalLines == |TailLines(content)| && r.totalBytes == |content| && r.outputBytes == |r.content|
    ensures r.truncated <==> |TailLines(content)| > MaxLines(options) || |content| > MaxBytes(options)
    ensures r.truncatedBy.Some? <==> r.truncated
    ensures !r.truncated ==> r.content == content && r.outputLines == r.totalLines && !r.lastLinePartial
    ensures r.truncated ==> IsCutTail(TailLines(content), MaxLines(options), MaxBytes(options), r, k)
  {
    var maxLines, maxBytes := MaxLines(options), MaxBytes(options);
    var lines := TailLines(content);
    var total := |lines|;
    k := 0;
    if total <= maxLines && |content| <= maxBytes {
      var whole := TruncationResult(content, false, None, total, |content|, total, |content|, false, false);
      LastLineFits(content);
      return whole, k;
    }
    r, k := CutTail(content, options);
  }

  // What is over a limit is cut behind some line, or within the last.
  ghost predicate IsCutTail(lines: seq<seq<byte>>, maxLines: nat, maxBytes: nat, r: TruncationResult, k: nat) {
    && IsLongestTail(lines, k, maxLines, maxBytes) && lines != []
    && (r.lastLinePartial <==> maxLines > 0 && |Last(lines)| > maxBytes)
    && (!r.lastLinePartial ==> r.content == Join(lines[k..]) && r.outputLines == if k < |lines| then |lines| - k else 1)
    && (r.lastLinePartial ==>
      && |r.content| <= |Last(lines)| && r.content == Last(lines)[|Last(lines)| - |r.content|..] && r.outputLines == 1
      && IsLongestSuffix(Last(lines), |Last(lines)| - |r.content|, maxBytes))
    && (r.truncatedBy == Some(ByBytes) <==> k > 0 && |lines| - k < maxLines)
  }

  method CutTail(content: seq<byte>, options: TruncationOptions) returns (r: TruncationResult, ghost k: nat)
    requires |TailLines(content)| > MaxLines(options) || |content| > MaxBytes(options)
    ensures r.totalLines == |TailLines(content)| && r.totalBytes == |content| && r.outputBytes == |r.content|
    ensures r.truncated && r.truncatedBy.Some?
    ensures IsCutTail(TailLines(content), MaxLines(options), MaxBytes(options), r, k)
  {
    var maxLines, maxBytes := MaxLines(options), MaxBytes(options);
    var lines := TailLines(content);
    var total := |lines|;
    var from, byteCount, cause := KeepTail(lines, maxLines, maxBytes);
    k := from;
    if total - from >= maxLines && byteCount <= maxBytes {
      cause := ByLines;
    }
    if from == total && maxLines > 0 {
      var partial := TruncateStrToBytesFromEnd(lines[total - 1], maxBytes);
      return TruncationResult(partial, true, Some(cause), total, |content|, 1, |partial|, true, false), k;
    }
    var output := Join(lines[from..]);
    CountJoined(lines[from..]);
    if from < total {
      TailGrows(lines, total - 1, from);
      assert lines[total - 1..] == [Last(lines)];
    }
    r := TruncationResult(output, true, Some(cause), total, |content|, Newlines(output) + 1, |output|, false, false);
  }

  function Last(lines: seq<seq<byte>>): seq<byte>
    requires lines != []
  {
    lines[|lines| - 1]
  }

  function Newlines(s: seq<byte>): nat {
    if s == [] then 0 else (if s[0] == NEWLINE then 1 else 0) + Newlines(s[1..])
  }

  lemma {:induction false} NewlinesAppend(a: seq<byte>, b: seq<byte>)
    ensures Newlines(a + b) == Newlines(a) + Newlines(b)
    decreases |a|
  {
    if a == [] {
      assert a + b == b;
    } else {
      assert (a + b)[1..] == a[1..] + b;
      NewlinesAppend(a[1..], b);
    }
  }

  lemma {:induction false} NoNewlines(s: seq<byte>)
    requires NEWLINE !in s
    ensures Newlines(s) == 0
    decreases |s|
  {
    if s != [] {
      NoNewlines(s[1..]);
    }
  }

  // The reported line count is the number of lines joined.
  lemma {:induction false} CountJoined(lines: seq<seq<byte>>)
    requires forall line :: line in lines ==> NEWLINE !in line
    ensures Newlines(Join(lines)) + 1 == if lines == [] then 1 else |lines|
    decreases |lines|
  {
    if lines != [] {
      NoNewlines(lines[0]);
      if |lines| > 1 {
        CountJoined(lines[1..]);
        NewlinesAppend(lines[0] + [NEWLINE], Join(lines[1..]));
        NewlinesAppend(lines[0], [NEWLINE]);
        assert Newlines([NEWLINE]) == 1;
      }
    }
  }

  lemma TailJoins(content: seq<byte>)
    ensures content == Join(TailLines(content)) || content == Join(TailLines(content)) + [NEWLINE]
  {
    var lines := Split(content);
    SplitJoins(content);
    if |lines| > 1 && lines[|lines| - 1] == [] {
      var front := lines[..|lines| - 1];
      JoinLast(front, []);
      assert lines == front + [[]];
    }
  }

  lemma LastLineFits(content: seq<byte>)
    ensures |Last(TailLines(content))| <= |content|
  {
    var lines := TailLines(content);
    TailJoins(content);
    TailGrows(lines, |lines| - 1, 0);
    assert lines[|lines| - 1..] == [Last(lines)] && lines[0..] == lines;
  }

  method KeepTail(lines: seq<seq<byte>>, maxLines: nat, maxBytes: nat)
    returns (from: nat, byteCount: nat, cause: TruncatedBy)
    requires lines != []
    ensures from <= |lines| && byteCount == |Join(lines[from..])|
    ensures IsLongestTail(lines, from, maxLines, maxBytes)
    ensures cause == ByBytes <==> from > 0 && |lines| - from < maxLines
    ensures from == |lines| && maxLines > 0 <==> maxLines > 0 && |Last(lines)| > maxBytes
  {
    from, byteCount, cause := |lines|, 0, ByLines;
    assert lines[|lines| - 1..] == [Last(lines)];
    while from > 0 && |lines| - from < maxLines
      invariant from <= |lines| && |lines| - from <= maxLines
      invariant byteCount == |Join(lines[from..])| <= maxBytes && cause == ByLines
      invariant from < |lines| ==> |Last(lines)| <= maxBytes
    {
      var lineBytes := |lines[from - 1]| + if from < |lines| then 1 else 0;
      assert lines[from - 1..][1..] == lines[from..];
      assert |Join(lines[from - 1..])| == byteCount + lineBytes;
      if byteCount + lineBytes > maxBytes {
        cause := ByBytes;
        LongerTailsExceed(lines, from - 1, maxBytes);
        break;
      }
      from, byteCount := from - 1, byteCount + lineBytes;
    }
  }

  lemma LongerTailsExceed(lines: seq<seq<byte>>, k: nat, maxBytes: nat)
    requires k < |lines| && |Join(lines[k..])| > maxBytes
    ensures forall j :: 0 <= j <= k ==> |Join(lines[j..])| > maxBytes
  {
    forall j | 0 <= j <= k
      ensures |Join(lines[j..])| > maxBytes
    {
      TailGrows(lines, k, j);
    }
  }

  // The longest head and the longest tail are unique, so the truncations are functions of
  // content and limits.
  lemma LongestUnique(lines: seq<seq<byte>>, a: nat, b: nat, maxLines: nat, maxBytes: nat)
    ensures IsLongestHead(lines, a, maxLines, maxBytes) && IsLongestHead(lines, b, maxLines, maxBytes) ==> a == b
    ensures IsLongestTail(lines, a, maxLines, maxBytes) && IsLongestTail(lines, b, maxLines, maxBytes) ==> a == b
  {
  }

  // A tail can be reported as truncated although every line is kept: the byte total counts
  // the final newline, the lines do not.
  lemma KeepsEveryLineIff(content: seq<byte>, options: TruncationOptions)
    requires |TailLines(content)| > MaxLines(options) || |content| > MaxBytes(options)
    ensures IsLongestTail(TailLines(content), 0, MaxLines(options), MaxBytes(options)) <==>
      |TailLines(content)| <= MaxLines(options) && |content| == MaxBytes(options) + 1
      && content == Join(TailLines(content)) + [NEWLINE]
  {
    TailJoins(content);
    assert TailLines(content)[0..] == TailLines(content);
  }
}
