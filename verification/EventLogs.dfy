/** The append-only event log beside a session: replay, head classification, tail
    repair and the size bound (internal/agent/session_events.go). */
module EventLogs {
  import opened Transcripts

  /** A decodable record. Unsupported stands for a record of another schema version
      or event type; newer says the schema is ahead of this build. */
  datatype Record =
    | Replace(messages: Transcript)
    | Append(index: nat, messages: Transcript)
    | Unsupported(newer: bool)

  /** The bytes of the log: decodable records, then a tail that decodes to nothing.
      A missing log and an empty one behave alike and are both EMPTY_LOG. */
  datatype LogFile = LogFile(records: seq<Record>, torn: nat)

  const EMPTY_LOG := LogFile([], 0)

  const COMPACT_FLOOR: nat := 262144
  const COMPACT_FACTOR: nat := 4

  /** What the model leaves abstract: load-time normalization (None when it hands the
      slice back unchanged) and encoded sizes. */
  datatype Codec = Codec(normalize: Transcript -> Option<Transcript>, recordBody: Record -> nat,
          messageBody: Message -> nat)

  function RecordBytes(c: Codec, r: Record): (n: nat)
    ensures n > 0
  {
    c.recordBody(r) + 1
  }

  function RecordsBytes(c: Codec, rs: seq<Record>): nat {
    if rs == [] then 0 else RecordsBytes(c, rs[..|rs| - 1]) + RecordBytes(c, rs[|rs| - 1])
  }

  function LogBytes(c: Codec, log: LogFile): nat {
    RecordsBytes(c, log.records) + log.torn
  }

  function ContentBytes(c: Codec, t: Transcript): nat {
    if t == [] then 0 else ContentBytes(c, t[..|t| - 1]) + c.messageBody(t[|t| - 1]) + 1
  }

  function SizeLimit(c: Codec, t: Transcript): nat {
    var scaled := ContentBytes(c, t) * COMPACT_FACTOR;
    if scaled > COMPACT_FLOOR then scaled else COMPACT_FLOOR
  }

  predicate Oversized(c: Codec, logSize: nat, t: Transcript) {
    logSize > SizeLimit(c, t)
  }

  lemma {:induction false} RecordsBytesSnoc(c: Codec, rs: seq<Record>, r: Record)
    ensures RecordsBytes(c, rs + [r]) == RecordsBytes(c, rs) + RecordBytes(c, r)
  {
    assert (rs + [r])[..|rs|] == rs;
  }

  lemma {:induction false} LogBytesZero(c: Codec, log: LogFile)
    ensures LogBytes(c, log) == 0 <==> log == EMPTY_LOG
  {
    if log.records != [] {
      assert RecordBytes(c, log.records[|log.records| - 1]) > 0;
    }
  }

  /** The state of a replay after some records: still applying, stopped at a record
      that breaks the append chain, or refused because a newer writer owns the log. */
  datatype Playback =
    | Playing(messages: Transcript, applied: nat)
    | Stopped(messages: Transcript, applied: nat)
    | Refused

  function Play(rs: seq<Record>): (p: Playback)
    ensures p.Playing? ==> p.applied == |rs|
    ensures p.Stopped? ==> p.applied < |rs|
  {
    if rs == [] then Playing([], 0)
    else PlayOne(Play(rs[..|rs| - 1]), rs[|rs| - 1])
  }

  function PlayOne(p: Playback, r: Record): Playback {
    if !p.Playing? then p
    else match r
      case Replace(ms) => Playing(ms, p.applied + 1)
      case Append(index, ms) => if index != |p.messages| then Stopped(p.messages, p.applied)
        else Playing(p.messages + ms, p.applied + 1)
      case Unsupported(_) => Refused
  }

  lemma {:induction false} PlaySnoc(rs: seq<Record>, r: Record)
    ensures Play(rs + [r]) == PlayOne(Play(rs), r)
  {
    assert (rs + [r])[..|rs|] == rs;
  }

  /** Replay never resumes: what a prefix stopped at is what the whole log yields. */
  lemma {:induction false} StoppedStays(rs: seq<Record>, n: nat)
    requires n <= |rs| && !Play(rs[..n]).Playing?
    ensures Play(rs) == Play(rs[..n])
  {
    if n < |rs| {
      assert rs[..|rs| - 1][..n] == rs[..n];
      StoppedStays(rs[..|rs| - 1], n);
    } else {
      assert rs[..n] == rs;
    }
  }

  /** Cutting a damaged log at the last applied record keeps its transcript and
      leaves a log that replays to the end. */
  lemma {:induction false} TruncationKeepsTranscript(rs: seq<Record>)
    requires Play(rs).Stopped?
    ensures var p := Play(rs); Play(rs[..p.applied]) == Playing(p.messages, p.applied)
  {
    var init := rs[..|rs| - 1];
    var p := Play(rs);
    if Play(init).Playing? {
      assert rs[..p.applied] == init;
    } else {
      TruncationKeepsTranscript(init);
      assert rs[..p.applied] == init[..p.applied];
    }
  }

  datatype Replay = ReplayError | Replayed(messages: Transcript, applied: nat, damaged: bool)

  function ReplayOf(log: LogFile): Replay {
    match Play(log.records)
    case Refused => ReplayError
    case Stopped(ms, n) => Replayed(ms, n, true)
    case Playing(ms, n) => Replayed(ms, n, log.torn > 0)
  }

  method ReplaySessionEventLog(log: LogFile) returns (replay: Replay)
    ensures replay == ReplayOf(log)
  {
    var msgs: Transcript := [];
    var records := 0;
    while records < |log.records|
      invariant 0 <= records <= |log.records|
      invariant Play(log.records[..records]) == Playing(msgs, records)
    {
      var rec := log.records[records];
      PlaySnoc(log.records[..records], rec);
      assert log.records[..records + 1] == log.records[..records] + [rec];
      match rec {
        case Replace(ms) =>
          msgs := ms;
        case Append(index, ms) =>
          if index != |msgs| {
            StoppedStays(log.records, records + 1);
            return Replayed(msgs, records, true);
          }
          msgs := msgs + ms;
        case Unsupported(_) =>
          StoppedStays(log.records, records + 1);
          return ReplayError;
      }
      records := records + 1;
    }
    assert log.records[..records] == log.records;
    return Replayed(msgs, records, log.torn > 0);
  }

  /** Who owns the file at the log path, judged by its first record. */
  datatype Probe = Owned | Foreign | Future

  function ProbeLog(log: LogFile): Probe {
    if log == EMPTY_LOG then Owned
    else if log.records == [] then Foreign
    else match log.records[0]
      case Unsupported(newer) => if newer then Future else Foreign
      case _ => Owned
  }

  /** Nothing to repair, or a log whose size the event index vouches for. */
  predicate TakenAsWhole(c: Codec, log: LogFile, index: Option<nat>) {
    log == EMPTY_LOG || index == Some(LogBytes(c, log))
  }

  /** Truncation at the last applied record. None when the log must not be touched. */
  function RepairedLog(c: Codec, log: LogFile, index: Option<nat>): Option<LogFile> {
    if TakenAsWhole(c, log, index) then Some(log)
    else match ReplayOf(log)
      case ReplayError => None
      case Replayed(_, n, _) => Some(LogFile(log.records[..n], 0))
  }

  /** Bytes appended behind an undecodable tail stay undecodable. */
  function Appended(c: Codec, log: LogFile, r: Record): LogFile {
    if log.torn == 0 then LogFile(log.records + [r], 0)
    else LogFile(log.records, log.torn + RecordBytes(c, r))
  }
}
