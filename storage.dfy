/** The transcript store (src/services/storage.ts): the record written for a
    session, with every instant turned into ISO text, the record read back,
    the file name of a saved transcript and the `.json` filter of the
    directory listing. The filesystem is an input: whether the write
    succeeded, what the read produced, and what the listing returned. */
module Storage {
  import opened Types
  import opened Strings

  /** `Date.prototype.toISOString` throws a RangeError beyond this many
      milliseconds from the epoch. */
  const MaxInstant: int := 8_640_000_000_000_000

  predicate ValidInstant(t: int) {
    -MaxInstant <= t <= MaxInstant
  }

  /** ISO text, kept abstract: the text of one instant at millisecond
      precision, which `new Date(text)` reads back as that instant. */
  datatype IsoTime = IsoTime(instant: int)

  /** `new Date(text)`. */
  function FromIso(iso: IsoTime): int {
    iso.instant
  }

  datatype StoredMessage = StoredMessage(
    id: string,
    sender: MessageSender,
    content: string,
    timestamp: IsoTime,
    wordCount: nat)

  /** The JSON record of a transcript; an unset `endTime` is left out. */
  datatype StoredSession = StoredSession(
    id: string,
    topic: string,
    userSide: DebateSide,
    aiSide: DebateSide,
    messages: seq<StoredMessage>,
    currentTurn: MessageSender,
    startTime: IsoTime,
    endTime: Option<IsoTime>,
    isActive: bool)

  predicate ValidMessages(ms: seq<DebateMessage>) {
    forall i :: 0 <= i < |ms| ==> ValidInstant(ms[i].timestamp)
  }

  /** Every instant of the session can be written as ISO text. */
  predicate Encodable(s: DebateSession) {
    ValidMessages(s.messages) && ValidInstant(s.startTime)
    && (s.endTime.Some? ==> ValidInstant(s.endTime.value))
  }

  /** `{...msg, timestamp: msg.timestamp.toISOString()}` over the messages;
      `None` when one of them throws. */
  function EncodeMessages(ms: seq<DebateMessage>): (r: Option<seq<StoredMessage>>)
    ensures r.Some? <==> ValidMessages(ms)
    ensures r.Some? ==> |r.value| == |ms|
    ensures r.Some? ==> forall i :: 0 <= i < |ms| ==>
      r.value[i] == StoredMessage(ms[i].id, ms[i].sender, ms[i].content, IsoTime(ms[i].timestamp), ms[i].wordCount)
  {
    if ms == [] then Some([])
    else if !ValidInstant(ms[0].timestamp) then None
    else
      var m := ms[0];
      match EncodeMessages(ms[1..])
      case Some(rest) => Some([StoredMessage(m.id, m.sender, m.content, IsoTime(m.timestamp), m.wordCount)] + rest)
      case None =>
        assert !ValidMessages(ms) by {
          var j :| 0 <= j < |ms[1..]| && !ValidInstant(ms[1..][j].timestamp);
          assert ms[j + 1] == ms[1..][j];
        }
        None
  }

  /** The transcript record built in `saveTranscript`. */
  function Encode(s: DebateSession): (r: Option<StoredSession>)
    ensures r.Some? <==> Encodable(s)
    ensures r.Some? ==> r.value.id == s.id && r.value.topic == s.topic
    ensures r.Some? ==> r.value.userSide == s.userSide && r.value.aiSide == s.aiSide
    ensures r.Some? ==> r.value.currentTurn == s.currentTurn && r.value.isActive == s.isActive
    ensures r.Some? ==> r.value.startTime == IsoTime(s.startTime)
    ensures r.Some? ==> (r.value.endTime.None? <==> s.endTime.None?)
    ensures r.Some? && s.endTime.Some? ==> r.value.endTime == Some(IsoTime(s.endTime.value))
    ensures r.Some? ==> |r.value.messages| == |s.messages|
    ensures r.Some? ==> EncodeMessages(s.messages) == Some(r.value.messages)
  {
    match EncodeMessages(s.messages)
    case None => None
    case Some(ms) =>
      if !ValidInstant(s.startTime) then None
      else if s.endTime.None? then
        Some(StoredSession(s.id, s.topic, s.userSide, s.aiSide, ms, s.currentTurn, IsoTime(s.startTime), None, s.isActive))
      else if !ValidInstant(s.endTime.value) then None
      else
        Some(StoredSession(s.id, s.topic, s.userSide, s.aiSide, ms, s.currentTurn, IsoTime(s.startTime),
                           Some(IsoTime(s.endTime.value)), s.isActive))
  }

  /** `{...msg, timestamp: new Date(msg.timestamp)}` over the messages. */
  function DecodeMessages(ms: seq<StoredMessage>): (r: seq<DebateMessage>)
    ensures |r| == |ms|
    ensures forall i :: 0 <= i < |ms| ==>
      r[i] == DebateMessage(ms[i].id, ms[i].sender, ms[i].content, FromIso(ms[i].timestamp), ms[i].wordCount)
  {
    if ms == [] then []
    else
      var m := ms[0];
      [DebateMessage(m.id, m.sender, m.content, FromIso(m.timestamp), m.wordCount)] + DecodeMessages(ms[1..])
  }

  /** The session rebuilt in `loadTranscript`. No field is checked: whatever
      the record holds is taken over. */
  function Decode(r: StoredSession): (s: DebateSession)
    ensures s.id == r.id && s.topic == r.topic && s.userSide == r.userSide && s.aiSide == r.aiSide
    ensures s.currentTurn == r.currentTurn && s.isActive == r.isActive
    ensures s.startTime == FromIso(r.startTime)
    ensures s.endTime.None? <==> r.endTime.None?
    ensures r.endTime.Some? ==> s.endTime == Some(FromIso(r.endTime.value))
    ensures |s.messages| == |r.messages|
    ensures s.messages == DecodeMessages(r.messages)
  {
    DebateSession(r.id, r.topic, r.userSide, r.aiSide, DecodeMessages(r.messages), r.currentTurn,
                  FromIso(r.startTime),
                  if r.endTime.Some? then Some(FromIso(r.endTime.value)) else None,
                  r.isActive)
  }

  /** Messages survive the round trip one for one. */
  lemma {:induction false} DecodeEncodeMessages(ms: seq<DebateMessage>)
    requires ValidMessages(ms)
    ensures DecodeMessages(EncodeMessages(ms).value) == ms
  {
    var d := DecodeMessages(EncodeMessages(ms).value);
    assert |d| == |ms|;
    forall i | 0 <= i < |ms| ensures d[i] == ms[i] {
    }
  }

  /** Round trip: reading back a written record gives the session it was
      written from, whether or not it has messages and an end time. */
  lemma DecodeEncode(s: DebateSession)
    requires Encodable(s)
    ensures Decode(Encode(s).value) == s
  {
    DecodeEncodeMessages(s.messages);
  }

  const SaveFailed := "Failed to save transcript"
  const LoadFailed := "Failed to load transcript"

  /** `transcript_${session.id}_${Date.now()}.json`. */
  function FileName(id: string, now: int): (name: string)
    ensures StartsWith(name, "transcript_")
    ensures EndsWith(name, ".json")
  {
    "transcript_" + id + "_" + IntToString(now) + ".json"
  }

  /** What `saveTranscript` leaves behind: the path it returns and the record
      it wrote there. */
  datatype Saved = Saved(path: string, record: StoredSession)

  /** `saveTranscript`: `writeOk` says whether creating the directory and
      writing the file succeeded; any failure, including an instant that
      cannot be written as ISO text, surfaces as the one fixed message. */
  function SaveTranscript(dir: string, s: DebateSession, now: int, writeOk: bool): (r: Result<Saved, string>)
    ensures r.Success? <==> writeOk && Encodable(s)
    ensures r.Failure? ==> r.error == SaveFailed
    ensures r.Success? ==> r.value.path == dir + FileName(s.id, now)
    ensures r.Success? ==> r.value.record == Encode(s).value
    ensures r.Success? ==> Decode(r.value.record) == s
  {
    match Encode(s)
    case None => Failure(SaveFailed)
    case Some(record) =>
      if writeOk then
        DecodeEncode(s);
        Success(Saved(dir + FileName(s.id, now), record))
      else Failure(SaveFailed)
  }

  /** What reading and parsing a transcript file produced: the read or the
      parse threw, the parsed record had no `messages` array, or a record. */
  datatype ReadResult = ReadFailed | Unparsable | MissingMessages | Parsed(record: StoredSession)

  /** `loadTranscript`. */
  function LoadTranscript(read: ReadResult): (r: Result<DebateSession, string>)
    ensures r.Success? <==> read.Parsed?
    ensures r.Failure? ==> r.error == LoadFailed
    ensures read.Parsed? ==> r.value == Decode(read.record)
  {
    match read
    case Parsed(record) => Success(Decode(record))
    case _ => Failure(LoadFailed)
  }

  /** Loading what was saved gives back the session that was saved. */
  lemma SaveThenLoad(dir: string, s: DebateSession, now: int)
    requires Encodable(s)
    ensures SaveTranscript(dir, s, now, true).Success?
    ensures LoadTranscript(Parsed(SaveTranscript(dir, s, now, true).value.record)) == Success(s)
  {
  }

  /** `files.filter((file) => file.endsWith('.json'))`. */
  function JsonFiles(files: seq<string>): (r: seq<string>)
    ensures |r| <= |files|
    ensures forall f :: f in r <==> f in files && EndsWith(f, ".json")
  {
    if files == [] then []
    else (if EndsWith(files[0], ".json") then [files[0]] else []) + JsonFiles(files[1..])
  }

  /** The filter keeps directory order: it distributes over concatenation. */
  lemma {:induction false} JsonFilesAppend(a: seq<string>, b: seq<string>)
    ensures JsonFiles(a + b) == JsonFiles(a) + JsonFiles(b)
  {
    if a == [] {
      assert a + b == b;
    } else {
      assert (a + b)[1..] == a[1..] + b;
      JsonFilesAppend(a[1..], b);
    }
  }

  /** `getAllTranscripts`: the listing, or `None` when creating the directory
      or reading it threw. */
  function GetAllTranscripts(listing: Option<seq<string>>): (r: seq<string>)
    ensures listing.None? ==> r == []
    ensures listing.Some? ==> r == JsonFiles(listing.value)
  {
    if listing.Some? then JsonFiles(listing.value) else []
  }

  /** A saved transcript's name always passes the listing filter. */
  lemma SavedNameIsListed(before: seq<string>, id: string, now: int, after: seq<string>)
    ensures FileName(id, now) in GetAllTranscripts(Some(before + [FileName(id, now)] + after))
  {
  }
}
