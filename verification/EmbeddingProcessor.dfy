/** One embedding request on the agent: report oversized documents, decode the
    rest batch by batch, emit one embedding per document and close the stream.
    Tokenising, decoding and the channel are the environment's. */
module EmbeddingProcessor {
  import opened EmbeddingBatches

  datatype Document = Document(id: string, tokens: seq<int>)

  /** An embedding is identified by the tokens it was computed from. */
  datatype Message =
    | DocumentExceedsBatchSize(source: string, documentTokens: nat, nBatch: nat)
    | Embedding(source: string, vectorOf: seq<int>)
    | Done
    | NoEmbeddingsProduced
    | EmbeddingsDisabled

  predicate IsDone(m: Message) {
    m.Done? || m.NoEmbeddingsProduced? || m.EmbeddingsDisabled?
  }

  /** A sequence in a llama batch, under its sequence id. */
  datatype Sequence = Sequence(tokens: seq<int>, id: nat)

  /** What lies outside: which calls succeed (for batch k, and for the i-th sequence
      in it), before which batch a stop is waiting, and how many messages the
      receiver takes before it is gone. */
  datatype Environment = Environment(
    enabled: bool,
    tokenized: bool,
    batchCreated: bool,
    stopped: nat -> bool,
    added: (nat, nat) -> bool,
    decoded: nat -> bool,
    extracted: (nat, nat) -> bool,
    accepted: nat)

  const TWO_TO_THE_32 := 0x1_0000_0000

  function Kept(documents: seq<Document>, nBatch: nat): (kept: seq<Document>)
    ensures forall d :: d in kept ==> |d.tokens| <= nBatch
  {
    if documents == [] then []
    else
      var before := Kept(documents[..|documents| - 1], nBatch);
      var d := documents[|documents| - 1];
      if |d.tokens| > nBatch then before else before + [d]
  }

  function Reports(documents: seq<Document>, nBatch: nat): seq<Message> {
    if documents == [] then []
    else
      var before := Reports(documents[..|documents| - 1], nBatch);
      var d := documents[|documents| - 1];
      if |d.tokens| > nBatch then before + [DocumentExceedsBatchSize(d.id, |d.tokens|, nBatch)] else before
  }

  function Embeddings(documents: seq<Document>): (messages: seq<Message>)
    ensures |messages| == |documents|
  {
    seq(|documents|, i requires 0 <= i < |documents| => Embedding(documents[i].id, documents[i].tokens))
  }

  function Counts(documents: seq<Document>): (counts: seq<nat>)
    ensures |counts| == |documents|
  {
    seq(|documents|, i requires 0 <= i < |documents| => |documents[i].tokens|)
  }

  /** How many of `n` batches run before a waiting stop is noticed. */
  function BatchesRun(stopped: nat -> bool, k: nat, n: nat): (run: nat)
    requires k <= n
    ensures k <= run <= n && (run < n ==> stopped(run)) && forall i :: k <= i < run ==> !stopped(i)
    decreases n - k
  {
    if k == n || stopped(k) then k else BatchesRun(stopped, k + 1, n)
  }

  /** The documents covered by the first `k` batches of a plan that tiles them. */
  function Covered(plan: seq<Range>, k: nat): nat
    requires k <= |plan|
  {
    if k == 0 then 0 else plan[k - 1].end
  }

  /** The stream of a request in which nothing fails. */
  function Stream(documents: seq<Document>, nBatch: nat, slots: int, stopped: nat -> bool): seq<Message> {
    var kept := Kept(documents, nBatch);
    var plan := Plan(Counts(kept), nBatch, slots, 0);
    var run := BatchesRun(stopped, 0, |plan|);
    PlanIsSaturated(Counts(kept), nBatch, slots, 0);
    SplitCovers(Counts(kept), nBatch, slots, plan, 0, run);
    var covered := Covered(plan, run);
    Emitted(Reports(documents, nBatch), kept, covered) +
    [if covered == 0 then NoEmbeddingsProduced else Done]
  }

  /** The k-th batch of a split starts where the previous one ends. */
  lemma {:induction false} SplitCovers(counts: seq<nat>, nBatch: nat, slots: int, plan: seq<Range>, start: nat, k: nat)
    requires start <= |counts| && Split(counts, nBatch, slots, plan, start) && k <= |plan|
    ensures forall b :: b in plan ==> start <= b.start < b.end <= |counts|
    ensures k > 0 ==> start < plan[k - 1].end <= |counts|
    ensures k < |plan| ==> plan[k].start == (if k == 0 then start else plan[k - 1].end)
    ensures k < |plan| ==> plan[k].end <= |counts| && Fits(counts, nBatch, slots, plan[k].start, plan[k].end)
    ensures k == |plan| ==> (if k == 0 then start else plan[k - 1].end) == |counts|
    decreases |plan|
  {
    if plan != [] {
      var end := plan[0].end;
      SplitCovers(counts, nBatch, slots, plan[1..], end, if k == 0 then 0 else k - 1);
      if k > 0 {
        assert plan[1..] == [] ==> k == 1;
      }
      forall b | b in plan ensures start <= b.start < b.end <= |counts| {
        if b != plan[0] {
          assert b in plan[1..];
        }
      }
    }
  }

  /** The unbounded channel: a send fails once the receiver is gone. */
  method Send(env: Environment, log: seq<Message>, message: Message) returns (ok: bool, longer: seq<Message>)
    ensures ok == (|log| < env.accepted)
    ensures longer == if ok then log + [message] else log
  {
    ok := |log| < env.accepted;
    longer := if ok then log + [message] else log;
  }

  function TokensIn(batch: seq<Sequence>): nat {
    if batch == [] then 0 else TokensIn(batch[..|batch| - 1]) + |batch[|batch| - 1].tokens|
  }

  /** One llama batch serves the whole request; it refuses to be overfilled. */
  class LlamaBatch {
    const nBatch: nat
    var sequences: seq<Sequence>

    constructor (nBatch: nat)
      ensures this.nBatch == nBatch && sequences == []
    {
      this.nBatch, sequences := nBatch, [];
    }

    method AddSequence(tokens: seq<int>, id: nat, accepted: bool) returns (ok: bool)
      modifies this
      ensures ok == (accepted && TokensIn(old(sequences)) + |tokens| <= nBatch)
      ensures sequences == old(sequences) + if ok then [Sequence(tokens, id)] else []
    {
      ok := accepted && TokensIn(sequences) + |tokens| <= nBatch;
      if ok {
        sequences := sequences + [Sequence(tokens, id)];
      }
    }

    method Clear()
      modifies this
      ensures sequences == []
    {
      sequences := [];
    }
  }

  predicate HasId(batch: seq<Sequence>, id: nat) {
    exists i :: 0 <= i < |batch| && batch[i].id == id
  }

  /** The embedding a decoded batch holds under sequence id `id`. */
  function EmbeddedTokens(batch: seq<Sequence>, id: nat): seq<int>
    requires HasId(batch, id)
  {
    if batch[|batch| - 1].id == id then batch[|batch| - 1].tokens
    else EmbeddedTokens(batch[..|batch| - 1], id)
  }

  /** `batch` holds the documents in order, numbered from 0. */
  ghost predicate Holds(batch: seq<Sequence>, documents: seq<Document>) {
    |batch| == |documents| &&
    forall i :: 0 <= i < |batch| ==> batch[i] == Sequence(documents[i].tokens, i)
  }

  lemma {:induction false} HeldTokens(batch: seq<Sequence>, documents: seq<Document>, id: nat)
    requires Holds(batch, documents) && id < |batch|
    ensures HasId(batch, id) && EmbeddedTokens(batch, id) == documents[id].tokens
    decreases |batch|
  {
    assert batch[id].id == id;
    if id < |batch| - 1 {
      HeldTokens(batch[..|batch| - 1], documents[..|documents| - 1], id);
    }
  }

  /** Emits the embeddings of one decoded batch; a failure keeps those already sent. */
  method EmbeddingBatchDecode(env: Environment, k: nat, batch: LlamaBatch, inputs: seq<Document>, log: seq<Message>)
    returns (ok: bool, longer: seq<Message>)
    requires Holds(batch.sequences, inputs)
    modifies batch
    ensures ok ==> batch.sequences == []
    ensures exists n :: 0 <= n <= |inputs| && longer == log + Embeddings(inputs)[..n]
    ensures ok ==> longer == log + Embeddings(inputs)
    ensures env.decoded(k) && (forall i :: env.extracted(k, i)) && env.accepted >= |log| + |inputs| ==> ok
  {
    ok, longer := env.decoded(k), log;
    if !ok {
      assert longer == log + Embeddings(inputs)[..0];
      return;
    }
    for index := 0 to |inputs|
      invariant ok && longer == log + Embeddings(inputs)[..index] && Holds(batch.sequences, inputs)
    {
      if !env.extracted(k, index) {
        ok := false;
        return;
      }
      HeldTokens(batch.sequences, inputs, index);
      ok, longer := Send(env, longer, Embedding(inputs[index].id, EmbeddedTokens(batch.sequences, index)));
      if !ok {
        return;
      }
      assert Embeddings(inputs)[..index + 1] == Embeddings(inputs)[..index] + [Embeddings(inputs)[index]];
    }
    assert Embeddings(inputs)[..|inputs|] == Embeddings(inputs);
    batch.Clear();
  }

  /** No call on a llama batch or context fails, but for an overfilled batch. */
  ghost predicate NoCallFails(env: Environment) {
    (forall k :: env.decoded(k)) && (forall k, i :: env.added(k, i)) && (forall k, i :: env.extracted(k, i))
  }

  /** Nothing outside fails, and the sizes fit the report's 32-bit fields. */
  ghost predicate Unfailing(env: Environment, documents: seq<Document>, nBatch: nat, slots: int) {
    && env.enabled && env.tokenized && env.batchCreated
    && NoCallFails(env)
    && env.accepted >= |Stream(documents, nBatch, slots, env.stopped)|
    && nBatch < TWO_TO_THE_32
    && forall d :: d in documents ==> |d.tokens| < TWO_TO_THE_32
  }

  /** Separates the documents that fit a batch and reports the others. */
  method Separate(env: Environment, documents: seq<Document>, nBatch: nat)
    returns (ok: bool, kept: seq<Document>, log: seq<Message>)
    ensures log <= Reports(documents, nBatch)
    ensures ok ==> log == Reports(documents, nBatch) && kept == Kept(documents, nBatch)
    ensures |Reports(documents, nBatch)| <= env.accepted && nBatch < TWO_TO_THE_32 ==>
              (forall d :: d in documents ==> |d.tokens| < TWO_TO_THE_32) ==> ok
  {
    ok, kept, log := true, [], [];
    for i := 0 to |documents|
      invariant ok && log == Reports(documents[..i], nBatch) && kept == Kept(documents[..i], nBatch)
    {
      var input := documents[i];
      ghost var here := documents[..i + 1];
      assert here[..|here| - 1] == documents[..i];
      ReportsGrow(documents, i, nBatch);
      ReportsGrow(documents, i + 1, nBatch);
      if |input.tokens| > nBatch {
        if |input.tokens| >= TWO_TO_THE_32 || nBatch >= TWO_TO_THE_32 {
          ok := false;
          return;
        }
        ok, log := Send(env, log, DocumentExceedsBatchSize(input.id, |input.tokens|, nBatch));
        if !ok {
          return;
        }
      } else {
        kept := kept + [input];
      }
    }
    assert documents[..|documents|] == documents;
  }

  lemma {:induction false} ReportsGrow(documents: seq<Document>, i: nat, nBatch: nat)
    requires i <= |documents|
    ensures Reports(documents[..i], nBatch) <= Reports(documents, nBatch)
    decreases |documents| - i
  {
    if i < |documents| {
      ReportsGrow(documents, i + 1, nBatch);
      assert documents[..i + 1][..i] == documents[..i];
    } else {
      assert documents[..i] == documents;
    }
  }

  /** The first `n` documents as sequences numbered from 0. */
  ghost function Numbered(documents: seq<Document>, n: nat): (sequences: seq<Sequence>)
    requires n <= |documents|
    ensures |sequences| == n
  {
    seq(n, i requires 0 <= i < n => Sequence(documents[i].tokens, i))
  }

  lemma OneMoreSequence(before: seq<Sequence>, documents: seq<Document>, n: nat)
    requires n < |documents|
    ensures before + Numbered(documents, n) + [Sequence(documents[n].tokens, n)] == before + Numbered(documents, n + 1)
  {
  }

  lemma {:induction false} NumberedTokens(before: seq<Sequence>, documents: seq<Document>, n: nat)
    requires n <= |documents|
    ensures TokensIn(before + Numbered(documents, n)) == TokensIn(before) + Tokens(Counts(documents), 0, n)
    ensures Tokens(Counts(documents), 0, n) <= TokensOf(documents)
  {
    TokensSplit(Counts(documents), 0, n, |documents|);
    if n == 0 {
      assert before + Numbered(documents, 0) == before;
    } else {
      var batch := before + Numbered(documents, n - 1);
      NumberedTokens(before, documents, n - 1);
      OneMoreSequence(before, documents, n - 1);
      assert (before + Numbered(documents, n))[..|batch|] == batch;
    }
  }

  /** Adds the documents to what the batch already holds; fails exactly when that
      would overfill it or a sequence is refused for another reason. */
  method FillBatch(env: Environment, k: nat, batch: LlamaBatch, inputs: seq<Document>)
    returns (ok: bool, ghost added: seq<Sequence>)
    modifies batch
    ensures ok <==> inputs == [] || (TokensIn(old(batch.sequences)) + TokensOf(inputs) <= batch.nBatch
                                     && forall i :: 0 <= i < |inputs| ==> env.added(k, i))
    ensures ok ==> batch.sequences == old(batch.sequences) + added && Holds(added, inputs)
    ensures ok ==> TokensIn(batch.sequences) == TokensIn(old(batch.sequences)) + TokensOf(inputs)
  {
    ok, added := true, Numbered(inputs, |inputs|);
    ghost var before := batch.sequences;
    assert before + Numbered(inputs, 0) == before;
    for sequenceIndex := 0 to |inputs|
      invariant ok && batch.sequences == before + Numbered(inputs, sequenceIndex)
      invariant sequenceIndex > 0 ==> TokensIn(batch.sequences) <= batch.nBatch
      invariant forall i :: 0 <= i < sequenceIndex ==> env.added(k, i)
    {
      NumberedTokens(before, inputs, sequenceIndex);
      NumberedTokens(before, inputs, sequenceIndex + 1);
      OneMoreSequence(before, inputs, sequenceIndex);
      ok := batch.AddSequence(inputs[sequenceIndex].tokens, sequenceIndex, env.added(k, sequenceIndex));
      if !ok {
        return;
      }
    }
    NumberedTokens(before, inputs, |inputs|);
  }

  function TokensOf(documents: seq<Document>): nat {
    Tokens(Counts(documents), 0, |documents|)
  }

  lemma {:induction false} SliceTokens(documents: seq<Document>, lo: nat, hi: nat)
    requires lo <= hi <= |documents|
    ensures TokensOf(documents[lo..hi]) == Tokens(Counts(documents), lo, hi)
    decreases hi
  {
    if lo < hi {
      SliceTokens(documents, lo, hi - 1);
      PrefixTokens(documents[lo..hi], hi - 1 - lo);
      assert documents[lo..hi][..hi - 1 - lo] == documents[lo..hi - 1];
    }
  }

  lemma {:induction false} PrefixTokens(documents: seq<Document>, n: nat)
    requires n <= |documents|
    ensures TokensOf(documents[..n]) == Tokens(Counts(documents), 0, n)
    decreases n
  {
    if n > 0 {
      assert documents[..n][..n - 1] == documents[..n - 1];
      PrefixTokens(documents, n - 1);
      PrefixTokens(documents[..n], n - 1);
    }
  }

  lemma BatchTokensFit(documents: seq<Document>, nBatch: nat, slots: int, range: Range)
    requires range.start < range.end <= |documents|
    requires Fits(Counts(documents), nBatch, slots, range.start, range.end)
    requires forall d :: d in documents ==> |d.tokens| <= nBatch
    ensures TokensOf(documents[range.start..range.end]) <= nBatch
    ensures range.end - range.start == 1 || range.end - range.start <= slots
  {
    SliceTokens(documents, range.start, range.end);
    if range.end == range.start + 1 {
      assert Tokens(Counts(documents), range.start, range.end)
          == Tokens(Counts(documents), range.start, range.start) + |documents[range.start].tokens|;
    }
  }

  /** A batch as it reaches the decoder: the planned documents in order, within
      `nBatch` tokens, under distinct sequence ids below the slot count. */
  ghost predicate ProperBatch(batch: seq<Sequence>, kept: seq<Document>, range: Range, nBatch: nat, slots: int) {
    && range.start < range.end <= |kept|
    && Holds(batch, kept[range.start..range.end])
    && TokensIn(batch) <= nBatch
    && forall i :: 0 <= i < |batch| ==> batch[i].id == i && (slots >= 1 ==> i < slots)
  }

  ghost predicate ProperBatches(batches: seq<seq<Sequence>>, kept: seq<Document>, plan: seq<Range>,
                                nBatch: nat, slots: int) {
    |batches| <= |plan| &&
    forall j :: 0 <= j < |batches| ==> ProperBatch(batches[j], kept, plan[j], nBatch, slots)
  }

  /** The stream after the reports and the first `n` embeddings. */
  function Emitted(reports: seq<Message>, kept: seq<Document>, n: nat): seq<Message>
    requires n <= |kept|
  {
    reports + Embeddings(kept[..n])
  }

  lemma EmittedIsPrefix(reports: seq<Message>, kept: seq<Document>, start: nat, end: nat)
    requires start <= end <= |kept|
    ensures Emitted(reports, kept, start) <= Emitted(reports, kept, end)
  {
  }

  lemma EmittedGrows(reports: seq<Message>, kept: seq<Document>, start: nat, end: nat)
    requires start <= end <= |kept|
    ensures Emitted(reports, kept, start) + Embeddings(kept[start..end]) == Emitted(reports, kept, end)
  {
  }

  lemma PartOfBatchIsPrefix(log: seq<Message>, more: seq<Message>, n: nat)
    requires n <= |more|
    ensures log + more[..n] <= log + more
  {
  }

  /** `decoded` holds what was handed to the decoder: one batch, or none if it could
      not be filled. */
  method DecodePlannedBatch(env: Environment, k: nat, llamaBatch: LlamaBatch, kept: seq<Document>, range: Range,
                            slots: int, ghost reports: seq<Message>, log: seq<Message>)
    returns (ok: bool, longer: seq<Message>, ghost decoded: seq<seq<Sequence>>)
    requires range.start < range.end <= |kept|
    requires Fits(Counts(kept), llamaBatch.nBatch, slots, range.start, range.end)
    requires forall d :: d in kept ==> |d.tokens| <= llamaBatch.nBatch
    requires log == Emitted(reports, kept, range.start) && llamaBatch.sequences == []
    modifies llamaBatch
    ensures decoded == [] || (|decoded| == 1 && ProperBatch(decoded[0], kept, range, llamaBatch.nBatch, slots))
    ensures longer <= Emitted(reports, kept, range.end)
    ensures ok ==> longer == Emitted(reports, kept, range.end) && llamaBatch.sequences == [] && |decoded| == 1
    ensures NoCallFails(env) && env.accepted >= |reports| + range.end ==> ok
  {
    BatchTokensFit(kept, llamaBatch.nBatch, slots, range);
    ok, longer, decoded := DecodeInputs(env, k, llamaBatch, kept[range.start..range.end], log);
    EmittedGrows(reports, kept, range.start, range.end);
    assert |log| == |reports| + range.start;
  }

  method DecodeInputs(env: Environment, k: nat, llamaBatch: LlamaBatch, inputs: seq<Document>, log: seq<Message>)
    returns (ok: bool, longer: seq<Message>, ghost decoded: seq<seq<Sequence>>)
    requires TokensOf(inputs) <= llamaBatch.nBatch && llamaBatch.sequences == []
    modifies llamaBatch
    ensures decoded == []
            || (|decoded| == 1 && Holds(decoded[0], inputs) && TokensIn(decoded[0]) <= llamaBatch.nBatch)
    ensures longer <= log + Embeddings(inputs)
    ensures ok ==> longer == log + Embeddings(inputs) && llamaBatch.sequences == [] && |decoded| == 1
    ensures NoCallFails(env) && env.accepted >= |log| + |inputs| ==> ok
  {
    longer, decoded := log, [];
    ghost var added;
    ok, added := FillBatch(env, k, llamaBatch, inputs);
    if !ok {
      return;
    }
    assert llamaBatch.sequences == added;
    decoded := [llamaBatch.sequences];
    ok, longer := EmbeddingBatchDecode(env, k, llamaBatch, inputs, log);
    ghost var n :| 0 <= n <= |inputs| && longer == log + Embeddings(inputs)[..n];
    PartOfBatchIsPrefix(log, Embeddings(inputs), n);
  }

  lemma NextBatch(kept: seq<Document>, nBatch: nat, slots: int, plan: seq<Range>, k: nat, run: nat)
    requires Split(Counts(kept), nBatch, slots, plan, 0) && k < run <= |plan|
    ensures plan[k].start == Covered(plan, k) < plan[k].end == Covered(plan, k + 1) <= Covered(plan, run) <= |kept|
    ensures Fits(Counts(kept), nBatch, slots, plan[k].start, plan[k].end)
  {
    SplitCovers(Counts(kept), nBatch, slots, plan, 0, k);
    CoveredGrows(Counts(kept), nBatch, slots, plan, 0, k + 1, run);
    assert plan[k] in plan;
  }

  /** As many batches of the plan as `batches` holds have been decoded and emitted. */
  ghost predicate Reached(kept: seq<Document>, plan: seq<Range>, nBatch: nat, slots: int,
                          reports: seq<Message>, log: seq<Message>, batches: seq<seq<Sequence>>) {
    && ProperBatches(batches, kept, plan, nBatch, slots)
    && Covered(plan, |batches|) <= |kept|
    && log == Emitted(reports, kept, Covered(plan, |batches|))
  }

  lemma ProperBatchesGrow(kept: seq<Document>, plan: seq<Range>, nBatch: nat, slots: int,
                          batches: seq<seq<Sequence>>, batch: seq<Sequence>)
    requires ProperBatches(batches, kept, plan, nBatch, slots) && |batches| < |plan|
    requires ProperBatch(batch, kept, plan[|batches|], nBatch, slots)
    ensures ProperBatches(batches + [batch], kept, plan, nBatch, slots)
  {
  }

  /** One more batch of the plan, on the way to the `run`-th. */
  method RunPlannedBatch(env: Environment, llamaBatch: LlamaBatch, kept: seq<Document>, plan: seq<Range>, k: nat,
                         slots: int, ghost run: nat, ghost reports: seq<Message>,
                         log: seq<Message>, ghost batches: seq<seq<Sequence>>)
    returns (ok: bool, longer: seq<Message>, ghost more: seq<seq<Sequence>>)
    requires Split(Counts(kept), llamaBatch.nBatch, slots, plan, 0) && |batches| == k < run <= |plan|
    requires forall d :: d in kept ==> |d.tokens| <= llamaBatch.nBatch
    requires Reached(kept, plan, llamaBatch.nBatch, slots, reports, log, batches) && llamaBatch.sequences == []
    modifies llamaBatch
    ensures |more| <= k + 1 && ProperBatches(more, kept, plan, llamaBatch.nBatch, slots)
    ensures Covered(plan, run) <= |kept| && longer <= Emitted(reports, kept, Covered(plan, run))
    ensures ok ==> Reached(kept, plan, llamaBatch.nBatch, slots, reports, longer, more)
    ensures ok ==> |more| == k + 1 && llamaBatch.sequences == []
    ensures Covered(plan, k + 1) == Covered(plan, k) + plan[k].end - plan[k].start
    ensures NoCallFails(env) && env.accepted >= |reports| + Covered(plan, run) ==> ok
  {
    NextBatch(kept, llamaBatch.nBatch, slots, plan, k, run);
    ghost var decoded;
    ok, longer, decoded := DecodePlannedBatch(env, k, llamaBatch, kept, plan[k], slots, reports, log);
    EmittedIsPrefix(reports, kept, plan[k].end, Covered(plan, run));
    more := batches + decoded;
    if decoded != [] {
      ProperBatchesGrow(kept, plan, llamaBatch.nBatch, slots, batches, decoded[0]);
      assert decoded == [decoded[0]];
    }
  }

  /** Runs the planned batches up to a waiting stop; a failure leaves a prefix.
      `batches` are the contents handed to the decoder; the one llama batch is
      cleared in between. */
  method RunBatches(env: Environment, llamaBatch: LlamaBatch, kept: seq<Document>, plan: seq<Range>, slots: int,
                    reports: seq<Message>)
    returns (ok: bool, log: seq<Message>, ghost batches: seq<seq<Sequence>>, embeddingsEmitted: nat)
    requires Split(Counts(kept), llamaBatch.nBatch, slots, plan, 0) && llamaBatch.sequences == []
    requires forall d :: d in kept ==> |d.tokens| <= llamaBatch.nBatch
    modifies llamaBatch
    ensures var run := BatchesRun(env.stopped, 0, |plan|);
            && |batches| <= run && Covered(plan, run) <= |kept|
            && log <= Emitted(reports, kept, Covered(plan, run))
            && (ok ==> |batches| == run && embeddingsEmitted == Covered(plan, run)
                       && log == Emitted(reports, kept, embeddingsEmitted))
            && (NoCallFails(env) && env.accepted >= |reports| + Covered(plan, run) ==> ok)
    ensures ProperBatches(batches, kept, plan, llamaBatch.nBatch, slots)
  {
    ok, log, batches, embeddingsEmitted := true, reports, [], 0;
    ghost var run := BatchesRun(env.stopped, 0, |plan|);
    var k := 0;
    CoveredGrows(Counts(kept), llamaBatch.nBatch, slots, plan, 0, 0, run);
    while k < |plan| && !env.stopped(k)
      invariant ok && 0 <= k == |batches| <= run && run == BatchesRun(env.stopped, k, |plan|)
      invariant embeddingsEmitted == Covered(plan, k) && llamaBatch.sequences == []
      invariant Reached(kept, plan, llamaBatch.nBatch, slots, reports, log, batches)
    {
      ok, log, batches := RunPlannedBatch(env, llamaBatch, kept, plan, k, slots, run, reports, log, batches);
      if !ok {
        return;
      }
      embeddingsEmitted := embeddingsEmitted + (plan[k].end - plan[k].start);
      k := k + 1;
    }
  }

  method ProcessEmbeddingBatch(env: Environment, documents: seq<Document>, nBatch: nat, slots: int)
    returns (ok: bool, log: seq<Message>, ghost batches: seq<seq<Sequence>>)
    ensures !env.enabled ==> !ok && log <= [EmbeddingsDisabled] && batches == []
    ensures env.enabled && !env.tokenized ==> !ok && log == [] && batches == []
    ensures env.enabled ==> log <= Stream(documents, nBatch, slots, env.stopped)
    ensures ok ==> env.enabled && env.tokenized && log == Stream(documents, nBatch, slots, env.stopped)
    ensures Unfailing(env, documents, nBatch, slots) ==> ok
    ensures var kept := Kept(documents, nBatch);
            var plan := Plan(Counts(kept), nBatch, slots, 0);
            && |batches| <= BatchesRun(env.stopped, 0, |plan|)
            && (ok ==> |batches| == BatchesRun(env.stopped, 0, |plan|))
            && ProperBatches(batches, kept, plan, nBatch, slots)
  {
    ok, log, batches := false, [], [];
    if !env.enabled {
      var _, disabled := Send(env, log, EmbeddingsDisabled);
      log := disabled;
      return;
    }
    if !env.tokenized {
      return;
    }
    var separated, kept, reports := Separate(env, documents, nBatch);
    log := reports;
    if !separated {
      return;
    }
    var plan := PlanEmbeddingBatches(Counts(kept), nBatch, slots);
    PlanIsSaturated(Counts(kept), nBatch, slots, 0);
    if !env.batchCreated {
      return;
    }
    var llamaBatch := new LlamaBatch(nBatch);
    var ran, embeddingsEmitted;
    ran, log, batches, embeddingsEmitted := RunBatches(env, llamaBatch, kept, plan, slots, reports);
    if !ran {
      return;
    }
    if embeddingsEmitted == 0 {
      ok, log := Send(env, log, NoEmbeddingsProduced);
    } else {
      ok, log := Send(env, log, Done);
    }
  }

  lemma {:induction false} CoveredGrows(counts: seq<nat>, nBatch: nat, slots: int, plan: seq<Range>, start: nat, a: nat, b: nat)
    requires start <= |counts| && Split(counts, nBatch, slots, plan, start) && a <= b <= |plan|
    ensures Covered(plan, a) <= Covered(plan, b) <= |counts|
    decreases b
  {
    SplitCovers(counts, nBatch, slots, plan, start, b);
    if a < b {
      CoveredGrows(counts, nBatch, slots, plan, start, a, b - 1);
      SplitCovers(counts, nBatch, slots, plan, start, b - 1);
    }
  }

  /** The one message a document is owed. */
  function Answer(d: Document, nBatch: nat): Message {
    if |d.tokens| > nBatch then DocumentExceedsBatchSize(d.id, |d.tokens|, nBatch) else Embedding(d.id, d.tokens)
  }

  function Answers(documents: seq<Document>, nBatch: nat): multiset<Message> {
    if documents == [] then multiset{}
    else Answers(documents[..|documents| - 1], nBatch) + multiset{Answer(documents[|documents| - 1], nBatch)}
  }

  lemma {:induction false} ReportsAndEmbeddings(documents: seq<Document>, nBatch: nat)
    ensures multiset(Reports(documents, nBatch)) + multiset(Embeddings(Kept(documents, nBatch)))
            == Answers(documents, nBatch)
  {
    if documents != [] {
      var before, d := documents[..|documents| - 1], documents[|documents| - 1];
      var kept := Kept(before, nBatch);
      ReportsAndEmbeddings(before, nBatch);
      if |d.tokens| <= nBatch {
        assert Embeddings(kept + [d]) == Embeddings(kept) + [Answer(d, nBatch)];
      }
    }
  }

  lemma {:induction false} ReportsOnlyReport(documents: seq<Document>, nBatch: nat)
    ensures forall m :: m in Reports(documents, nBatch) ==> m.DocumentExceedsBatchSize?
  {
    if documents != [] {
      ReportsOnlyReport(documents[..|documents| - 1], nBatch);
    }
  }

  /** With no stop waiting, every document is answered exactly once before the
      closing message: its embedding if it fits a batch, else its report. */
  lemma EveryDocumentIsAnsweredOnce(documents: seq<Document>, nBatch: nat, slots: int, stopped: nat -> bool)
    requires forall k :: !stopped(k)
    ensures var stream := Stream(documents, nBatch, slots, stopped);
            |stream| > 0 && multiset(stream[..|stream| - 1]) == Answers(documents, nBatch)
  {
    var kept := Kept(documents, nBatch);
    var plan := Plan(Counts(kept), nBatch, slots, 0);
    PlanIsSaturated(Counts(kept), nBatch, slots, 0);
    SplitCovers(Counts(kept), nBatch, slots, plan, 0, |plan|);
    ReportsAndEmbeddings(documents, nBatch);
    var stream := Stream(documents, nBatch, slots, stopped);
    var reports := Reports(documents, nBatch);
    assert Covered(plan, |plan|) == |kept| && kept[..|kept|] == kept;
    WithoutTheLast(reports + Embeddings(kept), stream[|stream| - 1]);
    assert stream == reports + Embeddings(kept) + [stream[|stream| - 1]];
  }

  lemma WithoutTheLast(messages: seq<Message>, last: Message)
    ensures (messages + [last])[..|messages|] == messages
  {
  }

  /** Exactly one closing message, last; it is `Done` when something was embedded. */
  lemma StreamClosesOnce(documents: seq<Document>, nBatch: nat, slots: int, stopped: nat -> bool)
    ensures var stream := Stream(documents, nBatch, slots, stopped);
            && |stream| > 0
            && (forall i :: 0 <= i < |stream| ==> (IsDone(stream[i]) <==> i == |stream| - 1))
            && (stream[|stream| - 1] == Done <==> exists m :: m in stream && m.Embedding?)
  {
    var kept := Kept(documents, nBatch);
    var plan := Plan(Counts(kept), nBatch, slots, 0);
    var run := BatchesRun(stopped, 0, |plan|);
    PlanIsSaturated(Counts(kept), nBatch, slots, 0);
    SplitCovers(Counts(kept), nBatch, slots, plan, 0, run);
    var covered := Covered(plan, run);
    var reports := Reports(documents, nBatch);
    ReportsOnlyReport(documents, nBatch);
    var stream := Stream(documents, nBatch, slots, stopped);
    assert stream == reports + Embeddings(kept[..covered]) + [stream[|stream| - 1]];
    forall i | 0 <= i < |reports| ensures stream[i].DocumentExceedsBatchSize? {
      assert stream[i] == reports[i] && reports[i] in reports;
    }
    if covered > 0 {
      assert stream[|reports|] in stream && stream[|reports|].Embedding?;
    }
  }
}
