/** What an attempt does, told by the answer of the server and the events of the body. */
module DownloadOutcomes {
  import opened Options
  import opened Download

  /** The answers after which the partial file is discarded. */
  predicate CallsForDiscarding(files: Files, answer: Answer) {
    answer.Response? &&
    (answer.status == 416 || (answer.status == 206 && answer.rangeStart != Some(Size(files.partial))))
  }

  /** The answers whose body is taken. */
  predicate CallsForStreaming(files: Files, answer: Answer) {
    answer.Response? &&
    (answer.status == 200 || (answer.status == 206 && answer.rangeStart == Some(Size(files.partial))))
  }

  /** An attempt that takes no body leaves the files alone, with the outcome of what
      stopped it; only an unsatisfiable or misplaced range discards the partial file. */
  lemma UntakenAnswers(files: Files, attempt: Attempt)
    requires !attempt.sizeReadable || !CallsForStreaming(files, attempt.answer)
    ensures var result := Attempted(files, attempt);
            var answer := attempt.answer;
            && result.progress == []
            && (if !attempt.sizeReadable then result.files == files && result.outcome == Failed(Io)
                else if answer.CancelledBeforeAnswer? then result.files == files && result.outcome == Cancelled
                else if answer.NoAnswer? then result.files == files && result.outcome == Failed(Unreachable)
                else if CallsForDiscarding(files, answer) then
                  if attempt.removable || files.partial.None?
                  then result.files == Files(None, files.complete) && result.outcome == Failed(PartialFileStale)
                  else result.files == files && result.outcome == Failed(Io)
                else
                  && result.files == files
                  && result.outcome == Failed(
                       if answer.status == 404 then NotFound
                       else if answer.status == 401 || answer.status == 403 then PermissionDenied(answer.status)
                       else if 400 <= answer.status <= 499 then ClientError(answer.status)
                       else ServerError(answer.status)))
  {
  }

  /** The bytes the body is added to: none when the server ignored the range. */
  function Base(files: Files, answer: Answer): Bytes
    requires answer.Response?
  {
    if files.partial.None? || (answer.status == 200 && files.partial.value != []) then [] else files.partial.value
  }

  /** An attempt that takes the body says where it starts, adds the chunks to the file
      in order, reports each, and ends as the body and the disk tell. */
  lemma TakenAnswers(files: Files, attempt: Attempt)
    requires attempt.sizeReadable && CallsForStreaming(files, attempt.answer)
    requires attempt.answer.status == 200 && Size(files.partial) > 0 ==> attempt.truncatable
    ensures var result := Attempted(files, attempt);
            var base := Base(files, attempt.answer);
            var length := attempt.answer.contentLength;
            var started := Started(if length.Some? then Some(|base| + length.value) else None, |base|);
            var body := StreamOf(attempt.answer.body);
            var added := body.appended[..|body.appended| - LostInFlush(body, attempt.flush)];
            if !attempt.openable then
              && result.outcome == Failed(Io) && result.progress == [started]
              && result.files == if |base| < Size(files.partial) then Files(Some([]), files.complete) else files
            else if body.ending == Exhausted && attempt.flush.Flushes? && attempt.renamable then
              result == Result(Files(None, Some(base + added)), Completed, [started] + body.reports + [Finished])
            else
              && result.files == Files(Some(base + added), files.complete)
              && result.progress == [started] + body.reports
              && (result.outcome == Cancelled <==> body.ending == CancelledMidway && attempt.flush.Flushes?)
              && (result.outcome == Failed(Interrupted) <==> body.ending == BrokenOff)
              && (result.outcome == Cancelled || result.outcome == Failed(Interrupted) || result.outcome == Failed(Io))
  {
    var body := StreamOf(attempt.answer.body);
    assert body.appended[..|body.appended|] == body.appended;
  }

  /** The file that cannot be truncated is left as it is. */
  lemma UntruncatableFile(files: Files, attempt: Attempt)
    requires attempt.sizeReadable && attempt.answer.Response? && attempt.answer.status == 200
    requires Size(files.partial) > 0 && !attempt.truncatable
    ensures Attempted(files, attempt) == Result(files, Failed(Io), [])
  {
  }

  lemma Associative<T>(a: seq<T>, b: seq<T>, c: seq<T>)
    ensures a + (b + c) == a + b + c
  {
  }

  lemma {:induction false} ChunksComeFirst(chunks: seq<BodyEvent>, rest: seq<BodyEvent>)
    requires AllWritten(chunks)
    ensures var before, after := StreamOf(chunks), StreamOf(rest);
            StreamOf(chunks + rest)
            == Streamed(before.appended + after.appended, before.reports + after.reports, after.ending)
  {
    if chunks == [] {
      assert chunks + rest == rest;
      var after := StreamOf(rest);
      assert [] + after.appended == after.appended && [] + after.reports == after.reports;
    } else {
      ChunksComeFirst(chunks[1..], rest);
      assert (chunks + rest)[1..] == chunks[1..] + rest;
      var first, between, after := chunks[0].data, StreamOf(chunks[1..]), StreamOf(rest);
      Associative(first, between.appended, after.appended);
      Associative([Received(|first|)], between.reports, after.reports);
    }
  }

  /** What a body adds, reports and ends with, event by event: chunks in order, up to
      the first event that is not one. */
  lemma BodyIsTakenInOrder(chunks: seq<BodyEvent>, event: BodyEvent, rest: seq<BodyEvent>)
    requires AllWritten(chunks)
    ensures var before := StreamOf(chunks);
            var streamed := StreamOf(chunks + [event] + rest);
            match event
            case Chunk(data) =>
              var after := StreamOf(rest);
              streamed == Streamed(before.appended + data + after.appended,
                                   before.reports + [Received(|data|)] + after.reports, after.ending)
            case UnwritableChunk(data, kept) =>
              streamed == Streamed(before.appended + (if kept < |data| then data[..kept] else data),
                                   before.reports, WriteFailed)
            case Broken => streamed == before.(ending := BrokenOff)
            case CancelRequested => streamed == before.(ending := CancelledMidway)
    ensures StreamOf(chunks).ending == Exhausted
  {
    WrittenBodyIsExhausted(chunks);
    ChunksComeFirst(chunks, [event] + rest);
    Associative(chunks, [event], rest);
    assert ([event] + rest)[1..] == rest;
    var before := StreamOf(chunks);
    assert before.appended + [] == before.appended && before.reports + [] == before.reports;
    if event.Chunk? {
      var after := StreamOf(rest);
      Associative(before.appended, event.data, after.appended);
      Associative(before.reports, [Received(|event.data|)], after.reports);
    }
  }

  /** Without completing, an attempt loses the partial file only when the range was
      unsatisfiable or misplaced, and shortens it only when the server sent the whole
      file in answer to a range. */
  lemma BytesAreKeptUnless(files: Files, attempt: Attempt)
    requires files.partial.Some? && !Attempted(files, attempt).outcome.Completed?
    ensures var kept := Attempted(files, attempt).files.partial;
            && (kept.None? ==> CallsForDiscarding(files, attempt.answer))
            && (kept.Some? && !(files.partial.value <= kept.value) ==>
                  attempt.answer.Response? && attempt.answer.status == 200 && Size(files.partial) > 0)
            && Attempted(files, attempt).files.complete == files.complete
  {
    if !attempt.sizeReadable || !CallsForStreaming(files, attempt.answer) {
      UntakenAnswers(files, attempt);
    } else if attempt.answer.status == 206 {
      TakenAnswers(files, attempt);
    }
  }
}
