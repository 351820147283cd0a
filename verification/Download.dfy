/** Resumable download: a partial file, one attempt at a time.  The network and
    the disk are the environment's; an attempt says what each of them answers.
    Range requests and their replies follow RFC 9110, sections 14.2, 14.4,
    15.3.7 and 15.5.17. */
module Download {
  import opened Options

  type Bytes = seq<bv8>

  /** The two files of one download; `None` is a missing file. */
  datatype Files = Files(partial: Option<Bytes>, complete: Option<Bytes>)

  /** A chunk that fails to be written leaves its first `kept` bytes. */
  datatype BodyEvent =
    | Chunk(data: Bytes)
    | UnwritableChunk(data: Bytes, kept: nat)
    | Broken
    | CancelRequested

  /** The body ends when its events are used up. */
  datatype Answer =
    | CancelledBeforeAnswer
    | NoAnswer
    | Response(status: nat, rangeStart: Option<nat>, contentLength: Option<nat>, body: seq<BodyEvent>)

  /** A failed flush may lose the last bytes handed to the writer. */
  datatype Flush = Flushes | FailsToFlush(lost: nat)

  datatype Attempt = Attempt(
    answer: Answer,
    sizeReadable: bool,
    removable: bool,
    truncatable: bool,
    openable: bool,
    flush: Flush,
    renamable: bool)

  datatype Error =
    | ClientError(status: nat)
    | Io
    | NotFound
    | PartialFileStale
    | PermissionDenied(status: nat)
    | ServerError(status: nat)
    | Interrupted
    | Unreachable

  datatype Outcome = Completed | Cancelled | Failed(error: Error)

  datatype Progress = Started(total: Option<nat>, already: nat) | Received(bytes: nat) | Finished

  datatype Classification =
    | Rejected(error: Error)
    | Stale
    | StreamFromCurrentOffset
    | StreamFromStart
    | StreamFromStartIgnoringRange

  function FromStatus(status: nat, sentRangeHeader: bool): Classification {
    if status == 206 then StreamFromCurrentOffset
    else if status == 200 then (if sentRangeHeader then StreamFromStartIgnoringRange else StreamFromStart)
    else if status == 404 then Rejected(NotFound)
    else if status == 401 || status == 403 then Rejected(PermissionDenied(status))
    else if status == 416 then Stale
    else if 400 <= status < 500 then Rejected(ClientError(status))
    else Rejected(ServerError(status))
  }

  function Size(file: Option<Bytes>): nat {
    if file.None? then 0 else |file.value|
  }

  datatype Ending = Exhausted | BrokenOff | CancelledMidway | WriteFailed

  /** What a body adds to the file, which chunks it reports, and how it ends. */
  datatype Streamed = Streamed(appended: Bytes, reports: seq<Progress>, ending: Ending)

  function StreamOf(body: seq<BodyEvent>): Streamed {
    if body == [] then Streamed([], [], Exhausted)
    else
      match body[0]
      case Broken => Streamed([], [], BrokenOff)
      case CancelRequested => Streamed([], [], CancelledMidway)
      case UnwritableChunk(data, kept) =>
        Streamed(if kept < |data| then data[..kept] else data, [], WriteFailed)
      case Chunk(data) =>
        var rest := StreamOf(body[1..]);
        Streamed(data + rest.appended, [Received(|data|)] + rest.reports, rest.ending)
  }

  /** The final flush happens on completion and on cancellation. */
  function LostInFlush(streamed: Streamed, flush: Flush): (lost: nat)
    ensures lost <= |streamed.appended|
  {
    if flush.Flushes? || streamed.ending.BrokenOff? || streamed.ending.WriteFailed? then 0
    else if flush.lost < |streamed.appended| then flush.lost
    else |streamed.appended|
  }

  function Flushed(streamed: Streamed, flush: Flush): Streamed {
    if flush.Flushes? || streamed.ending.BrokenOff? || streamed.ending.WriteFailed? then streamed
    else
      Streamed(streamed.appended[..|streamed.appended| - LostInFlush(streamed, flush)], streamed.reports, WriteFailed)
  }

  class PartialFile {
    var partial: Option<Bytes>
    var complete: Option<Bytes>

    function State(): Files
      reads this
    {
      Files(partial, complete)
    }

    constructor (files: Files)
      ensures State() == files
    {
      partial, complete := files.partial, files.complete;
    }

    method CurrentSize(readable: bool) returns (size: Option<nat>)
      ensures size == if readable then Some(Size(partial)) else None
    {
      size := if readable then Some(Size(partial)) else None;
    }

    method OpenForAppend(openable: bool) returns (ok: bool)
      modifies this`partial
      ensures ok == openable
      ensures partial == if ok && old(partial).None? then Some([]) else old(partial)
    {
      ok := openable;
      if ok && partial.None? {
        partial := Some([]);
      }
    }

    method Append(data: Bytes)
      requires partial.Some?
      modifies this`partial
      ensures partial == Some(old(partial).value + data)
    {
      partial := Some(partial.value + data);
    }

    method LoseLast(count: nat)
      requires partial.Some? && count <= |partial.value|
      modifies this`partial
      ensures partial == Some(old(partial).value[..|old(partial).value| - count])
    {
      partial := Some(partial.value[..|partial.value| - count]);
    }

    method Truncate(truncatable: bool) returns (ok: bool)
      modifies this`partial
      ensures ok == truncatable && partial == if ok then Some([]) else old(partial)
    {
      ok := truncatable;
      if ok {
        partial := Some([]);
      }
    }

    method Finalize(renamable: bool) returns (ok: bool)
      requires partial.Some?
      modifies this
      ensures ok == renamable
      ensures State() == if ok then Files(None, old(partial)) else old(State())
    {
      ok := renamable;
      if ok {
        partial, complete := None, partial;
      }
    }

    method Remove(removable: bool) returns (ok: bool)
      modifies this`partial
      ensures ok == (removable || old(partial).None?)
      ensures partial == if ok then None else old(partial)
    {
      ok := removable || partial.None?;
      if ok {
        partial := None;
      }
    }
  }

  method StreamToPartialFile(file: PartialFile, body: seq<BodyEvent>, flush: Flush)
    returns (ending: Ending, reports: seq<Progress>)
    requires file.partial.Some?
    modifies file`partial
    ensures var streamed := Flushed(StreamOf(body), flush);
            && file.partial == Some(old(file.partial).value + streamed.appended)
            && reports == streamed.reports && ending == streamed.ending
  {
    var startedAt := |file.partial.value|;
    ending, reports := StreamChunks(file, body);
    if flush.FailsToFlush? && (ending.Exhausted? || ending.CancelledMidway?) {
      var appended := |file.partial.value| - startedAt;
      var lost := if flush.lost < appended then flush.lost else appended;
      DropsOwnTail(old(file.partial).value, StreamOf(body).appended, lost);
      file.LoseLast(lost);
      ending := WriteFailed;
    }
  }

  lemma DropsOwnTail(held: Bytes, appended: Bytes, lost: nat)
    requires lost <= |appended|
    ensures (held + appended)[..|held| + |appended| - lost] == held + appended[..|appended| - lost]
  {
  }

  method StreamChunks(file: PartialFile, body: seq<BodyEvent>) returns (ending: Ending, reports: seq<Progress>)
    requires file.partial.Some?
    modifies file`partial
    ensures file.partial == Some(old(file.partial).value + StreamOf(body).appended)
    ensures reports == StreamOf(body).reports && ending == StreamOf(body).ending
  {
    reports := [];
    var i := 0;
    while i < |body|
      invariant 0 <= i <= |body| && file.partial.Some?
      invariant file.partial.value + StreamOf(body[i..]).appended == old(file.partial).value + StreamOf(body).appended
      invariant reports + StreamOf(body[i..]).reports == StreamOf(body).reports
      invariant StreamOf(body[i..]).ending == StreamOf(body).ending
    {
      assert body[i..][1..] == body[i + 1..];
      match body[i] {
        case Broken =>
          assert file.partial.value + [] == file.partial.value && reports + [] == reports;
          return BrokenOff, reports;
        case CancelRequested =>
          assert file.partial.value + [] == file.partial.value && reports + [] == reports;
          return CancelledMidway, reports;
        case UnwritableChunk(data, kept) =>
          file.Append(if kept < |data| then data[..kept] else data);
          return WriteFailed, reports;
        case Chunk(data) =>
          file.Append(data);
          reports := reports + [Received(|data|)];
      }
      i := i + 1;
    }
    assert body[i..] == [];
    assert file.partial.value + [] == file.partial.value && reports + [] == reports;
    ending := Exhausted;
  }

  datatype Result = Result(files: Files, outcome: Outcome, progress: seq<Progress>)

  /** What one attempt does to the files, reports and returns. */
  function Attempted(files: Files, attempt: Attempt): Result {
    var offset := Size(files.partial);
    if !attempt.sizeReadable then Result(files, Failed(Io), [])
    else
      match attempt.answer
      case CancelledBeforeAnswer => Result(files, Cancelled, [])
      case NoAnswer => Result(files, Failed(Unreachable), [])
      case Response(status, rangeStart, contentLength, body) =>
        match FromStatus(status, offset > 0)
        case Rejected(error) => Result(files, Failed(error), [])
        case Stale => Discarded(files, attempt)
        case StreamFromCurrentOffset =>
          if rangeStart != Some(offset) then Discarded(files, attempt)
          else Streaming(files, attempt, offset)
        case StreamFromStart => Streaming(files, attempt, offset)
        case StreamFromStartIgnoringRange =>
          if !attempt.truncatable then Result(files, Failed(Io), [])
          else Streaming(files.(partial := Some([])), attempt, 0)
  }

  /** The partial file is removed and the attempt fails as stale. */
  function Discarded(files: Files, attempt: Attempt): Result {
    if attempt.removable || files.partial.None?
    then Result(files.(partial := None), Failed(PartialFileStale), [])
    else Result(files, Failed(Io), [])
  }

  function Streaming(files: Files, attempt: Attempt, offset: nat): Result
    requires attempt.answer.Response?
  {
    var contentLength := attempt.answer.contentLength;
    var started := Started(if contentLength.Some? then Some(offset + contentLength.value) else None, offset);
    if !attempt.openable then Result(files, Failed(Io), [started])
    else
      var streamed := Flushed(StreamOf(attempt.answer.body), attempt.flush);
      var data := (if files.partial.Some? then files.partial.value else []) + streamed.appended;
      var kept := files.(partial := Some(data));
      var reports := [started] + streamed.reports;
      match streamed.ending
      case BrokenOff => Result(kept, Failed(Interrupted), reports)
      case WriteFailed => Result(kept, Failed(Io), reports)
      case CancelledMidway => Result(kept, Cancelled, reports)
      case Exhausted =>
        if attempt.renamable
        then Result(Files(None, Some(data)), Completed, reports + [Finished])
        else Result(kept, Failed(Io), reports)
  }

  method AttemptDownload(file: PartialFile, attempt: Attempt) returns (outcome: Outcome, progress: seq<Progress>)
    modifies file
    ensures Result(file.State(), outcome, progress) == Attempted(old(file.State()), attempt)
  {
    progress := [];
    var size := file.CurrentSize(attempt.sizeReadable);
    if size.None? {
      return Failed(Io), progress;
    }
    var offset := size.value;
    var sentRangeHeader := offset > 0;
    if attempt.answer.CancelledBeforeAnswer? {
      return Cancelled, progress;
    }
    if attempt.answer.NoAnswer? {
      return Failed(Unreachable), progress;
    }
    var classification := FromStatus(attempt.answer.status, sentRangeHeader);
    match classification {
      case Rejected(error) => return Failed(error), progress;
      case Stale =>
        var removed := file.Remove(attempt.removable);
        return Failed(if removed then PartialFileStale else Io), progress;
      case StreamFromStartIgnoringRange =>
        var truncated := file.Truncate(attempt.truncatable);
        if !truncated {
          return Failed(Io), progress;
        }
        offset := 0;
      case StreamFromCurrentOffset =>
      case StreamFromStart =>
    }
    if classification.StreamFromCurrentOffset? && attempt.answer.rangeStart != Some(offset) {
      var removed := file.Remove(attempt.removable);
      return Failed(if removed then PartialFileStale else Io), progress;
    }
    outcome, progress := StreamAndFinalize(file, attempt, offset);
  }

  method StreamAndFinalize(file: PartialFile, attempt: Attempt, offset: nat)
    returns (outcome: Outcome, progress: seq<Progress>)
    requires attempt.answer.Response?
    modifies file
    ensures Result(file.State(), outcome, progress) == Streaming(old(file.State()), attempt, offset)
  {
    var contentLength := attempt.answer.contentLength;
    progress := [Started(if contentLength.Some? then Some(offset + contentLength.value) else None, offset)];
    var ready := file.OpenForAppend(attempt.openable);
    if !ready {
      return Failed(Io), progress;
    }
    var ending, reports := StreamToPartialFile(file, attempt.answer.body, attempt.flush);
    progress := progress + reports;
    match ending {
      case BrokenOff => return Failed(Interrupted), progress;
      case WriteFailed => return Failed(Io), progress;
      case CancelledMidway => return Cancelled, progress;
      case Exhausted =>
        var renamed := file.Finalize(attempt.renamable);
        if !renamed {
          return Failed(Io), progress;
        }
        return Completed, progress + [Finished];
    }
  }

  /** The bytes a body delivers, written or not. */
  function Delivered(body: seq<BodyEvent>): Bytes {
    if body == [] then []
    else
      match body[0]
      case Broken => []
      case CancelRequested => []
      case UnwritableChunk(data, _) => data + Delivered(body[1..])
      case Chunk(data) => data + Delivered(body[1..])
  }

  predicate Uninterrupted(body: seq<BodyEvent>) {
    Broken !in body && CancelRequested !in body
  }

  /** Whatever happens, a body appends a prefix of what it delivers, and all of it
      when it is used up. */
  lemma {:induction false} AppendsWhatIsDelivered(body: seq<BodyEvent>)
    ensures StreamOf(body).appended <= Delivered(body)
    ensures StreamOf(body).ending.Exhausted? ==> StreamOf(body).appended == Delivered(body) && Uninterrupted(body)
  {
    if body != [] && (body[0].Chunk? || body[0].UnwritableChunk?) {
      AppendsWhatIsDelivered(body[1..]);
    }
  }

  lemma FlushedAppendsWhatIsDelivered(source: Bytes, base: Bytes, remote: Bytes, body: seq<BodyEvent>, flush: Flush)
    requires Serves(source, body) && base + source == remote
    ensures var streamed := Flushed(StreamOf(body), flush);
            && base + streamed.appended <= remote
            && (streamed.ending.Exhausted? ==> base + streamed.appended == remote)
  {
    AppendsWhatIsDelivered(body);
    var streamed := Flushed(StreamOf(body), flush);
    assert streamed.appended <= source;
  }

  /** The server holds `remote`: a body is cut from it at the stated start and,
      unless interrupted, runs to its end. */
  predicate ServesRemote(remote: Bytes, answer: Answer) {
    answer.Response? ==>
      && (answer.status == 200 ==> Serves(remote, answer.body))
      && (answer.status == 206 && answer.rangeStart.Some? ==>
            answer.rangeStart.value <= |remote| && Serves(remote[answer.rangeStart.value..], answer.body))
  }

  predicate Serves(source: Bytes, body: seq<BodyEvent>) {
    Delivered(body) <= source && (Uninterrupted(body) ==> Delivered(body) == source)
  }

  /** The partial file is a prefix of the remote bytes; the final file, if it
      exists, is all of them. */
  predicate Consistent(remote: Bytes, files: Files) {
    && (files.partial.Some? ==> files.partial.value <= remote)
    && (files.complete.Some? ==> files.complete.value == remote)
  }

  lemma StreamingKeepsConsistent(remote: Bytes, files: Files, attempt: Attempt, offset: nat)
    requires Consistent(remote, files) && attempt.answer.Response?
    requires offset == Size(files.partial) && Serves(remote[offset..], attempt.answer.body)
    ensures var result := Streaming(files, attempt, offset);
            && Consistent(remote, result.files)
            && (result.outcome.Completed? ==> result.files == Files(None, Some(remote)))
            && (!result.outcome.Completed? ==> result.files.complete == files.complete)
  {
    var base := if files.partial.Some? then files.partial.value else [];
    assert base + remote[offset..] == remote;
    FlushedAppendsWhatIsDelivered(remote[offset..], base, remote, attempt.answer.body, attempt.flush);
  }

  lemma AttemptKeepsConsistent(remote: Bytes, files: Files, attempt: Attempt)
    requires Consistent(remote, files) && ServesRemote(remote, attempt.answer)
    ensures var result := Attempted(files, attempt);
            && Consistent(remote, result.files)
            && (result.outcome.Completed? ==> result.files == Files(None, Some(remote)))
            && (!result.outcome.Completed? ==> result.files.complete == files.complete)
  {
    if attempt.sizeReadable && attempt.answer.Response? {
      var offset := Size(files.partial);
      assert remote[0..] == remote;
      match FromStatus(attempt.answer.status, offset > 0)
      case StreamFromCurrentOffset =>
        if attempt.answer.rangeStart == Some(offset) {
          StreamingKeepsConsistent(remote, files, attempt, offset);
        }
      case StreamFromStart => StreamingKeepsConsistent(remote, files, attempt, offset);
      case StreamFromStartIgnoringRange =>
        StreamingKeepsConsistent(remote, files.(partial := Some([])), attempt, 0);
      case _ =>
    }
  }

  /** The files after a sequence of attempts. */
  function FilesAfter(files: Files, attempts: seq<Attempt>): Files
    decreases |attempts|
  {
    if attempts == [] then files
    else FilesAfter(Attempted(files, attempts[0]).files, attempts[1..])
  }

  predicate SomeCompletes(files: Files, attempts: seq<Attempt>)
    decreases |attempts|
  {
    attempts != [] &&
    (Attempted(files, attempts[0]).outcome.Completed? ||
     SomeCompletes(Attempted(files, attempts[0]).files, attempts[1..]))
  }

  /** Over any sequence of attempts, however each ends, the partial file stays a
      prefix of the remote bytes, and the final file appears exactly when some
      attempt completes and then equals them. */
  lemma {:induction false} DownloadsRebuildRemote(remote: Bytes, files: Files, attempts: seq<Attempt>)
    requires Consistent(remote, files)
    requires forall a :: a in attempts ==> ServesRemote(remote, a.answer)
    ensures Consistent(remote, FilesAfter(files, attempts))
    ensures FilesAfter(files, attempts).complete
            == if SomeCompletes(files, attempts) then Some(remote) else files.complete
    decreases |attempts|
  {
    if attempts != [] {
      AttemptKeepsConsistent(remote, files, attempts[0]);
      var next := Attempted(files, attempts[0]).files;
      DownloadsRebuildRemote(remote, next, attempts[1..]);
      if Attempted(files, attempts[0]).outcome.Completed? {
        assert next.complete == Some(remote);
      }
    }
  }

  function BytesReported(progress: seq<Progress>): nat {
    if progress == [] then 0
    else
      match progress[0]
      case Started(_, already) => already + BytesReported(progress[1..])
      case Received(bytes) => bytes + BytesReported(progress[1..])
      case Finished => BytesReported(progress[1..])
  }

  lemma {:induction false} BytesReportedAppend(a: seq<Progress>, b: seq<Progress>)
    ensures BytesReported(a + b) == BytesReported(a) + BytesReported(b)
  {
    if a == [] {
      assert a + b == b;
    } else {
      BytesReportedAppend(a[1..], b);
      assert (a + b)[1..] == a[1..] + b;
    }
  }

  lemma {:induction false} ReportsCountAppended(body: seq<BodyEvent>)
    ensures BytesReported(StreamOf(body).reports) <= |StreamOf(body).appended|
    ensures !StreamOf(body).ending.WriteFailed? ==> BytesReported(StreamOf(body).reports) == |StreamOf(body).appended|
  {
    if body != [] && body[0].Chunk? {
      ReportsCountAppended(body[1..]);
    }
  }

  /** The offset an attempt announced plus the chunks it reported. */
  predicate ProgressMatches(result: Result, streamed: Streamed, flush: Flush) {
    var held := if result.outcome.Completed? then result.files.complete else result.files.partial;
    && held.Some?
    && BytesReported(result.progress) <= |held.value| + LostInFlush(streamed, flush)
    && (!streamed.ending.WriteFailed? ==>
          BytesReported(result.progress) == |held.value| + LostInFlush(streamed, flush))
  }

  lemma StreamingProgress(files: Files, attempt: Attempt, offset: nat)
    requires attempt.answer.Response? && attempt.openable && offset == Size(files.partial)
    ensures ProgressMatches(Streaming(files, attempt, offset), StreamOf(attempt.answer.body), attempt.flush)
  {
    var result := Streaming(files, attempt, offset);
    var reports := StreamOf(attempt.answer.body).reports;
    ReportsCountAppended(attempt.answer.body);
    BytesReportedAppend([result.progress[0]], reports);
    BytesReportedAppend([result.progress[0]] + reports, [Finished]);
    assert BytesReported([result.progress[0]]) == offset + BytesReported([]);
    assert BytesReported([Finished]) == BytesReported([]);
  }

  /** Once an attempt has opened the file, the offset it started from plus the
      chunks it reported are the bytes the file holds and those a failed flush lost,
      unless a chunk could not be written; then there are at least as many. */
  lemma ProgressMatchesFile(files: Files, attempt: Attempt)
    requires attempt.openable && Attempted(files, attempt).progress != []
    ensures attempt.answer.Response?
    ensures ProgressMatches(Attempted(files, attempt), StreamOf(attempt.answer.body), attempt.flush)
  {
    var offset := Size(files.partial);
    match FromStatus(attempt.answer.status, offset > 0)
    case StreamFromCurrentOffset => StreamingProgress(files, attempt, offset);
    case StreamFromStart => StreamingProgress(files, attempt, offset);
    case StreamFromStartIgnoringRange => StreamingProgress(files.(partial := Some([])), attempt, 0);
  }

  /** Nothing local fails. */
  predicate Unhindered(attempt: Attempt) {
    && attempt.sizeReadable && attempt.removable && attempt.truncatable
    && attempt.openable && attempt.flush.Flushes? && attempt.renamable
  }

  predicate AllWritten(body: seq<BodyEvent>) {
    forall e :: e in body ==> e.Chunk?
  }

  /** A server that answers a GET, or the range request for the bytes from `offset`
      on, as RFC 9110 asks, ignoring the range if it likes, and does not interrupt. */
  predicate AnswersHonestly(remote: Bytes, offset: nat, answer: Answer) {
    && answer.Response? && AllWritten(answer.body)
    && (|| (answer.status == 200 && Delivered(answer.body) == remote)
        || (0 < offset < |remote| && answer.status == 206 && answer.rangeStart == Some(offset)
            && Delivered(answer.body) == remote[offset..])
        || (0 < offset && offset >= |remote| && answer.status == 416))
  }

  lemma {:induction false} WrittenBodyIsExhausted(body: seq<BodyEvent>)
    requires AllWritten(body)
    ensures StreamOf(body).ending.Exhausted? && StreamOf(body).appended == Delivered(body)
  {
    if body != [] {
      WrittenBodyIsExhausted(body[1..]);
    }
  }

  /** From any partial file that is a prefix of the remote bytes one honest attempt
      completes, or finds the file fully fetched, discards it and leaves the next
      one to start afresh. */
  lemma HonestAttempt(remote: Bytes, files: Files, attempt: Attempt)
    requires Consistent(remote, files) && Unhindered(attempt)
    requires AnswersHonestly(remote, Size(files.partial), attempt.answer)
    ensures var result := Attempted(files, attempt);
            if attempt.answer.status == 416
            then files.partial == Some(remote) && remote != []
                 && result.files == files.(partial := None) && result.outcome == Failed(PartialFileStale)
            else result.files == Files(None, Some(remote)) && result.outcome == Completed
  {
    WrittenBodyIsExhausted(attempt.answer.body);
    var offset := Size(files.partial);
    if attempt.answer.status == 416 {
      assert files.partial.value == remote[..offset] && offset == |remote|;
      assert remote[..offset] == remote;
    } else if attempt.answer.status == 206 {
      assert files.partial.value + remote[offset..] == remote;
    } else if attempt.answer.status == 200 {
      var base: Bytes := [];
      assert base + remote == remote;
    }
  }

  /** Two honest attempts always complete the download. */
  lemma RecoversInTwoAttempts(remote: Bytes, files: Files, first: Attempt, second: Attempt)
    requires Consistent(remote, files) && Unhindered(first) && Unhindered(second)
    requires AnswersHonestly(remote, Size(files.partial), first.answer)
    requires AnswersHonestly(remote, Size(Attempted(files, first).files.partial), second.answer)
    ensures Attempted(files, first).outcome.Completed?
            || Attempted(Attempted(files, first).files, second).outcome.Completed?
    ensures SomeCompletes(files, [first, second])
  {
    HonestAttempt(remote, files, first);
    var next := Attempted(files, first).files;
    if !Attempted(files, first).outcome.Completed? {
      HonestAttempt(remote, next, second);
    }
    assert [first, second][1..] == [second];
  }
}
