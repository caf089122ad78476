/** Reading the last lines of an append-only JSONL file backward in chunks, against the
    plain scan of the whole file (internal/autoresearch/store.go). */
module TailReader {
  import opened Texts
  import opened Transcripts

  /** The longest line a scan accepts, newline excluded, is one byte below this. */
  const MAX_SCAN_TOKEN: nat := 65536

  function DropCR(line: string): string {
    if line != [] && line[|line| - 1] == '\r' then line[..|line| - 1] else line
  }

  function Split(s: string): (segments: seq<string>)
    ensures segments != []
  {
    if s == [] then [""]
    else
      var rest := Split(s[1..]);
      if s[0] == '\n' then [""] + rest else [[s[0]] + rest[0]] + rest[1..]
  }

  /** The trimmed segments that are not blank. */
  function Clean(segments: seq<string>): seq<string> {
    if segments == [] then []
    else
      var line := TrimSpace(segments[|segments| - 1]);
      Clean(segments[..|segments| - 1]) + if line == "" then [] else [line]
  }

  function Lines(file: string): seq<string> {
    Clean(Split(file))
  }

  function Last(lines: seq<string>, limit: nat): seq<string> {
    if |lines| > limit then lines[|lines| - limit..] else lines
  }

  /** They are the last ones: as many as there are, at most limit. */
  lemma {:induction false} LastIsTail(lines: seq<string>, limit: nat)
    ensures |Last(lines, limit)| == if |lines| < limit then |lines| else limit
    ensures exists front :: lines == front + Last(lines, limit)
  {
    assert lines == lines[..|lines| - |Last(lines, limit)|] + Last(lines, limit);
  }

  function Joined(segments: seq<string>): string
    requires segments != []
  {
    if |segments| == 1 then segments[0] else segments[0] + "\n" + Joined(segments[1..])
  }

  /** The segments are what the file holds between its newlines. */
  lemma {:induction false} SplitJoins(s: string)
    ensures Joined(Split(s)) == s
    ensures forall k :: 0 <= k < |Split(s)| ==> '\n' !in Split(s)[k]
  {
    if s != [] {
      var rest := Split(s[1..]);
      SplitJoins(s[1..]);
      if s[0] == '\n' {
        assert ([""] + rest)[1..] == rest;
      } else {
        assert ([[s[0]] + rest[0]] + rest[1..])[1..] == rest[1..];
      }
    }
  }

  lemma {:induction false} CleanAppend(a: seq<string>, b: seq<string>)
    ensures Clean(a + b) == Clean(a) + Clean(b)
  {
    if b == [] {
      assert a + b == a;
    } else {
      assert (a + b)[..|a + b| - 1] == a + b[..|b| - 1];
      CleanAppend(a, b[..|b| - 1]);
    }
  }

  /** Cutting a file anywhere leaves, after the first segment of the rest, whole segments
      of the file. */
  lemma {:induction false} SplitCut(a: string, b: string) returns (front: seq<string>)
    ensures front != [] && Split(a + b) == front + Split(b)[1..]
  {
    if a == [] {
      assert a + b == b;
      front := [Split(b)[0]];
    } else {
      assert (a + b)[1..] == a[1..] + b;
      var rest := SplitCut(a[1..], b);
      if a[0] == '\n' {
        front := [""] + rest;
      } else {
        front := [[a[0]] + rest[0]] + rest[1..];
      }
    }
  }

  /** Up to the next newline there is one segment. */
  lemma {:induction false} SplitHead(s: string, n: nat)
    requires n <= |s| && (forall i :: 0 <= i < n ==> s[i] != '\n') && (n < |s| ==> s[n] == '\n')
    ensures Split(s) == [s[..n]] + if n < |s| then Split(s[n + 1..]) else []
  {
    if n > 0 {
      SplitHead(s[1..], n - 1);
      assert s[1..][..n - 1] == s[1..n] && [s[0]] + s[1..n] == s[..n];
      if n < |s| {
        assert s[1..][n..] == s[n + 1..];
      }
    }
  }

  lemma {:induction false} TrimDropsCR(line: string)
    ensures TrimSpace(DropCR(line)) == TrimSpace(line)
  {
  }

  /** The segments from position at on; a scan that consumed everything stands past the end. */
  function SegmentsFrom(file: string, at: nat): seq<string> {
    if at <= |file| then Split(file[at..]) else []
  }

  lemma {:induction false} FirstSegment(file: string, at: nat, end: nat)
    requires at <= end <= |file|
    requires forall i :: at <= i < end ==> file[i] != '\n'
    requires end < |file| ==> file[end] == '\n'
    ensures SegmentsFrom(file, at) == [file[at..end]] + SegmentsFrom(file, end + 1)
  {
    var rest := file[at..];
    assert forall i :: 0 <= i < end - at ==> rest[i] == file[at + i];
    SplitHead(rest, end - at);
    assert rest[..end - at] == file[at..end];
    if end < |file| {
      assert rest[end - at + 1..] == file[end + 1..];
    }
  }

  /** The first of them ends at the next newline. */
  method LineEnd(file: string, at: nat) returns (end: nat)
    requires at <= |file|
    ensures at <= end <= |file| && SegmentsFrom(file, at) == [file[at..end]] + SegmentsFrom(file, end + 1)
  {
    end := at;
    while end < |file| && file[end] != '\n'
      invariant at <= end <= |file| && forall i :: at <= i < end ==> file[i] != '\n'
    {
      end := end + 1;
    }
    FirstSegment(file, at, end);
  }

  /** Every line is short enough for a scan. */
  predicate AllShort(segments: seq<string>) {
    forall i :: 0 <= i < |segments| ==> |segments[i]| < 65536
  }

  lemma {:induction false} CleanSnoc(done: seq<string>, line: string)
    ensures var text := TrimSpace(line); Clean(done + [line]) == Clean(done) + if text == "" then [] else [text]
  {
    assert (done + [line])[..|done|] == done;
  }

  /** One turn of the scanner: a line, what is handed over of it, and where it goes on. */
  method NextLine(file: string, at: nat) returns (line: string, text: string, next: nat)
    requires at <= |file|
    ensures at < next <= |file| + 1 && text == TrimSpace(line)
    ensures SegmentsFrom(file, at) == [line] + SegmentsFrom(file, next)
  {
    var end := LineEnd(file, at);
    line, next := file[at..end], end + 1;
    TrimDropsCR(line);
    text := TrimSpace(DropCR(line));
  }

  lemma {:induction false} Scanned(all: seq<string>, done: seq<string>, line: string, rest: seq<string>)
    requires all == done + ([line] + rest) && AllShort(done)
    ensures all == done + [line] + rest
    ensures if |line| < MAX_SCAN_TOKEN then AllShort(done + [line]) else !AllShort(all)
  {
    assert all[|done|] == line;
  }

  /** readJSONL collecting its lines: the bufio scan fails on an overlong line. */
  method ReadJSONL(file: string) returns (r: Option<seq<string>>)
    ensures r == if AllShort(Split(file)) then Some(Lines(file)) else None
  {
    assert file[0..] == file;
    ghost var all := Split(file);
    ghost var done, rest := [], SegmentsFrom(file, 0);
    var lines, at := [], 0;
    while at <= |file|
      invariant lines == Clean(done) && AllShort(done) && all == done + rest && rest == SegmentsFrom(file, at)
      decreases |file| + 1 - at
    {
      var line, text, next := NextLine(file, at);
      rest := SegmentsFrom(file, next);
      Scanned(all, done, line, rest);
      if |line| >= MAX_SCAN_TOKEN {
        return None;
      }
      CleanSnoc(done, line);
      if text != "" {
        lines := lines + [text];
      }
      done, at := done + [line], next;
    }
    assert all == done;
    r := Some(lines);
  }

  method CountCompleteTailLines(buf: string, atStart: bool) returns (count: nat)
    ensures count == |Clean(if atStart then Split(buf) else Split(buf)[1..])|
  {
    var segments := Split(buf);
    if !atStart {
      segments := segments[1..];
    }
    count := 0;
    for i := 0 to |segments|
      invariant count == |Clean(segments[..i])|
    {
      assert segments[..i + 1] == segments[..i] + [segments[i]];
      CleanSnoc(segments[..i], segments[i]);
      if TrimSpace(segments[i]) != "" {
        count := count + 1;
      }
    }
    assert segments[..|segments|] == segments;
  }

  /** Whole segments that already hold limit lines decide the tail. */
  lemma {:induction false} TailDecides(file: string, off: nat, limit: nat)
    requires off <= |file| && |Clean(Split(file[off..])[1..])| >= limit
    ensures Last(Lines(file), limit) == Last(Clean(Split(file[off..])[1..]), limit)
  {
    var a, b := file[..off], file[off..];
    assert a + b == file;
    var front := SplitCut(a, b);
    CleanAppend(front, Split(b)[1..]);
    LastOfTail(Clean(front), Clean(Split(b)[1..]), limit);
  }

  lemma {:induction false} LastOfTail(x: seq<string>, y: seq<string>, limit: nat)
    requires |y| >= limit
    ensures Last(x + y, limit) == Last(y, limit)
  {
    assert (x + y)[|x + y| - limit..] == y[|y| - limit..];
  }

  method LastLines(segments: seq<string>, limit: nat) returns (lines: seq<string>)
    ensures lines == Last(Clean(segments), limit)
  {
    lines := [];
    for i := 0 to |segments|
      invariant lines == Clean(segments[..i])
    {
      assert segments[..i + 1] == segments[..i] + [segments[i]];
      CleanSnoc(segments[..i], segments[i]);
      var seg := TrimSpace(segments[i]);
      if seg == "" {
        continue;
      }
      lines := lines + [seg];
    }
    assert segments[..|segments|] == segments;
    if |lines| > limit {
      lines := lines[|lines| - limit..];
    }
  }

  /** The backward loop: buf is the file from off on, and holds limit whole lines unless
      it is the whole file. */
  method ReadBackward(file: string, limit: nat, chunkSize: nat) returns (buf: string, off: nat)
    requires chunkSize > 0
    ensures off <= |file| && buf == file[off..] && (off > 0 ==> |Clean(Split(buf)[1..])| > limit)
  {
    buf, off := "", |file|;
    while off > 0
      invariant off <= |file| && buf == file[off..]
    {
      var readLen := if off < chunkSize then off else chunkSize;
      off := off - readLen;
      buf := file[off..off + readLen] + buf;
      assert buf == file[off..];
      var count := CountCompleteTailLines(buf, off == 0);
      if count > limit {
        return;
      }
    }
  }

  /** tailJSONLLines: for every file, chunk size and limit, exactly the last lines of the
      file; where the plain scan succeeds, of that scan. */
  method TailJSONLLines(file: string, limit: int, chunkSize: nat) returns (r: Option<seq<string>>)
    requires chunkSize > 0
    ensures limit > 0 ==> r == Some(Last(Lines(file), limit))
    ensures limit <= 0 ==> r == if AllShort(Split(file)) then Some(Lines(file)) else None
  {
    if limit <= 0 {
      r := ReadJSONL(file);
      return;
    }
    var buf, off := ReadBackward(file, limit, chunkSize);
    var segments := Split(buf);
    if off > 0 {
      segments := segments[1..];
      TailDecides(file, off, limit);
    } else {
      assert file[0..] == file;
    }
    var lines := LastLines(segments, limit);
    r := Some(lines);
  }
}
