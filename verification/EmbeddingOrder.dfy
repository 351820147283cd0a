/** The order of an embedding request's messages, told by positions in its input. */
module EmbeddingOrder {
  import opened EmbeddingBatches
  import opened EmbeddingProcessor

  predicate Rising(at: seq<nat>, bound: nat) {
    (forall k :: 0 <= k < |at| ==> at[k] < bound) && (forall j, k :: 0 <= j < k < |at| ==> at[j] < at[k])
  }

  /** The documents that fit a batch stand at `small`, the others at `large`, both in
      input order. */
  ghost predicate Parts(documents: seq<Document>, nBatch: nat, small: seq<nat>, large: seq<nat>) {
    && Rising(small, |documents|) && Rising(large, |documents|)
    && (forall i :: 0 <= i < |documents| ==> (i in small <==> |documents[i].tokens| <= nBatch))
    && (forall i :: 0 <= i < |documents| ==> (i in large <==> |documents[i].tokens| > nBatch))
  }

  lemma RisingSnoc(at: seq<nat>, n: nat)
    requires Rising(at, n)
    ensures Rising(at, n + 1) && Rising(at + [n], n + 1)
    ensures forall i :: i in at + [n] <==> i in at || i == n
  {
  }

  lemma PartsGrow(documents: seq<Document>, nBatch: nat, small: seq<nat>, large: seq<nat>)
    requires documents != [] && Parts(documents[..|documents| - 1], nBatch, small, large)
    ensures var n := |documents| - 1;
            if |documents[n].tokens| <= nBatch then Parts(documents, nBatch, small + [n], large)
            else Parts(documents, nBatch, small, large + [n])
  {
    var n := |documents| - 1;
    var before := documents[..n];
    RisingSnoc(small, n);
    RisingSnoc(large, n);
    assert forall i :: 0 <= i < n ==> documents[i] == before[i];
    assert n !in small && n !in large;
  }

  /** The documents kept are those that fit, the reports are of those that do not, each
      in input order. */
  lemma {:induction false} SeparatedInOrder(documents: seq<Document>, nBatch: nat)
    returns (small: seq<nat>, large: seq<nat>)
    ensures Parts(documents, nBatch, small, large)
    ensures |Kept(documents, nBatch)| == |small| && |Reports(documents, nBatch)| == |large|
    ensures forall k :: 0 <= k < |small| ==> Kept(documents, nBatch)[k] == documents[small[k]]
    ensures forall k :: 0 <= k < |large| ==>
              var d := documents[large[k]];
              Reports(documents, nBatch)[k] == DocumentExceedsBatchSize(d.id, |d.tokens|, nBatch)
    decreases |documents|
  {
    small, large := [], [];
    if documents != [] {
      var n := |documents| - 1;
      var before := documents[..n];
      var s, l := SeparatedInOrder(before, nBatch);
      PartsGrow(documents, nBatch, s, l);
      assert forall k :: 0 <= k < |s| ==> documents[s[k]] == before[s[k]];
      assert forall k :: 0 <= k < |l| ==> documents[l[k]] == before[l[k]];
      if |documents[n].tokens| <= nBatch {
        small, large := s + [n], l;
      } else {
        small, large := s, l + [n];
      }
    }
  }

  /** The whole stream: the oversize reports in input order, then the embeddings in
      input order, of all documents that fit or, under a stop, of those in the batches
      before it, then one closing message. */
  lemma StreamInOrder(documents: seq<Document>, nBatch: nat, slots: int, stopped: nat -> bool)
    returns (small: seq<nat>, large: seq<nat>, embedded: nat)
    ensures Parts(documents, nBatch, small, large) && embedded <= |small|
    ensures (forall k :: !stopped(k)) ==> embedded == |small|
    ensures var stream := Stream(documents, nBatch, slots, stopped);
            && |stream| == |large| + embedded + 1
            && (forall k :: 0 <= k < |large| ==>
                  var d := documents[large[k]]; stream[k] == DocumentExceedsBatchSize(d.id, |d.tokens|, nBatch))
            && (forall k :: 0 <= k < embedded ==>
                  var d := documents[small[k]]; stream[|large| + k] == Embedding(d.id, d.tokens))
            && stream[|large| + embedded] == if embedded == 0 then NoEmbeddingsProduced else Done
  {
    small, large := SeparatedInOrder(documents, nBatch);
    var kept := Kept(documents, nBatch);
    var plan := Plan(Counts(kept), nBatch, slots, 0);
    var run := BatchesRun(stopped, 0, |plan|);
    PlanIsSaturated(Counts(kept), nBatch, slots, 0);
    SplitCovers(Counts(kept), nBatch, slots, plan, 0, run);
    embedded := Covered(plan, run);
    StreamShape(documents, nBatch, slots, stopped, embedded);
    PiecesInOrder(Reports(documents, nBatch), kept, embedded,
                  if embedded == 0 then NoEmbeddingsProduced else Done);
  }

  lemma PiecesInOrder(reports: seq<Message>, kept: seq<Document>, embedded: nat, last: Message)
    requires embedded <= |kept|
    ensures var stream := reports + Embeddings(kept[..embedded]) + [last];
            && |stream| == |reports| + embedded + 1
            && (forall k :: 0 <= k < |reports| ==> stream[k] == reports[k])
            && (forall k :: 0 <= k < embedded ==> stream[|reports| + k] == Embedding(kept[k].id, kept[k].tokens))
            && stream[|reports| + embedded] == last
  {
  }

  lemma StreamShape(documents: seq<Document>, nBatch: nat, slots: int, stopped: nat -> bool, embedded: nat)
    requires var kept := Kept(documents, nBatch);
             var plan := Plan(Counts(kept), nBatch, slots, 0);
             embedded <= |kept| && embedded == Covered(plan, BatchesRun(stopped, 0, |plan|))
    ensures Stream(documents, nBatch, slots, stopped)
            == Reports(documents, nBatch) + Embeddings(Kept(documents, nBatch)[..embedded])
               + [if embedded == 0 then NoEmbeddingsProduced else Done]
  {
  }
}
