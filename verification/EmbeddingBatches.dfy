/** Batch planning for embeddings: a greedy split of the documents under a token
    cap and a sequence cap. */
module EmbeddingBatches {

  datatype Range = Range(start: nat, end: nat)

  function Tokens(counts: seq<nat>, start: nat, end: nat): nat
    requires start <= end <= |counts|
    decreases end - start
  {
    if start == end then 0 else Tokens(counts, start, end - 1) + counts[end - 1]
  }

  lemma {:induction false} TokensSplit(counts: seq<nat>, a: nat, b: nat, c: nat)
    requires a <= b <= c <= |counts|
    ensures Tokens(counts, a, c) == Tokens(counts, a, b) + Tokens(counts, b, c)
    decreases c
  {
    if b < c {
      TokensSplit(counts, a, b, c - 1);
    }
  }

  /** A batch is one document, or stays within both caps. */
  predicate Fits(counts: seq<nat>, nBatch: nat, maxSequences: int, start: nat, end: nat)
    requires start < end <= |counts|
  {
    end == start + 1 || (end - start <= maxSequences && Tokens(counts, start, end) <= nBatch)
  }

  lemma FitsWithin(counts: seq<nat>, nBatch: nat, maxSequences: int, start: nat, end: nat, lo: nat, hi: nat)
    requires start <= lo < hi <= end <= |counts| && Fits(counts, nBatch, maxSequences, start, end)
    ensures Fits(counts, nBatch, maxSequences, lo, hi)
  {
    TokensSplit(counts, start, lo, end);
    TokensSplit(counts, lo, hi, end);
  }

  /** Consecutive non-empty batches that fit, from `start` to the end of the input. */
  ghost predicate Split(counts: seq<nat>, nBatch: nat, maxSequences: int, plan: seq<Range>, start: nat) {
    if plan == [] then start == |counts|
    else
      && plan[0].start == start < plan[0].end <= |counts|
      && Fits(counts, nBatch, maxSequences, start, plan[0].end)
      && Split(counts, nBatch, maxSequences, plan[1..], plan[0].end)
  }

  /** How far the batch that starts at `start` and already holds up to `end` grows. */
  function Extend(counts: seq<nat>, nBatch: nat, maxSequences: int, start: nat, end: nat): (e: nat)
    requires start < end <= |counts| && Fits(counts, nBatch, maxSequences, start, end)
    ensures end <= e <= |counts| && Fits(counts, nBatch, maxSequences, start, e)
    ensures e < |counts| ==> !Fits(counts, nBatch, maxSequences, start, e + 1)
    decreases |counts| - end
  {
    if end < |counts| && Fits(counts, nBatch, maxSequences, start, end + 1)
    then Extend(counts, nBatch, maxSequences, start, end + 1)
    else end
  }

  /** The greedy plan from `start`. */
  function Plan(counts: seq<nat>, nBatch: nat, maxSequences: int, start: nat): seq<Range>
    requires start <= |counts|
    decreases |counts| - start
  {
    if start == |counts| then []
    else
      var end := Extend(counts, nBatch, maxSequences, start, start + 1);
      [Range(start, end)] + Plan(counts, nBatch, maxSequences, end)
  }

  /** A batch that cannot grow is the next one of the plan. */
  lemma FlushContinuesPlan(counts: seq<nat>, nBatch: nat, maxSequences: int, start: nat, end: nat, batches: seq<Range>)
    requires start < end <= |counts| && Fits(counts, nBatch, maxSequences, start, end)
    requires Extend(counts, nBatch, maxSequences, start, start + 1) == Extend(counts, nBatch, maxSequences, start, end)
    requires end < |counts| ==> !Fits(counts, nBatch, maxSequences, start, end + 1)
    ensures batches + Plan(counts, nBatch, maxSequences, start)
            == (batches + [Range(start, end)]) + Plan(counts, nBatch, maxSequences, end)
  {
    assert Plan(counts, nBatch, maxSequences, start) == [Range(start, end)] + Plan(counts, nBatch, maxSequences, end);
  }

  /** The open batch [start, end) holds `tokens` tokens, fits, and is where the
      plan's batch from `start` is still growing. */
  ghost predicate Growing(counts: seq<nat>, nBatch: nat, maxSequences: int, start: nat, end: nat, tokens: nat)
    requires start < end <= |counts|
  {
    && tokens == Tokens(counts, start, end)
    && Fits(counts, nBatch, maxSequences, start, end)
    && Extend(counts, nBatch, maxSequences, start, start + 1) == Extend(counts, nBatch, maxSequences, start, end)
  }

  lemma Grows(counts: seq<nat>, nBatch: nat, maxSequences: int, start: nat, end: nat, tokens: nat)
    requires start < end < |counts| && Growing(counts, nBatch, maxSequences, start, end, tokens)
    requires end - start < maxSequences && tokens + counts[end] <= nBatch
    ensures Growing(counts, nBatch, maxSequences, start, end + 1, tokens + counts[end])
  {
  }

  method PlanEmbeddingBatches(counts: seq<nat>, nBatch: nat, maxSequences: int) returns (batches: seq<Range>)
    ensures batches == Plan(counts, nBatch, maxSequences, 0)
  {
    batches := [];
    var start: nat, currentTokens: nat, currentSequences: nat := 0, 0, 0;
    for index := 0 to |counts|
      invariant start + currentSequences == index && (index > 0 ==> start < index)
      invariant start < index ==> Growing(counts, nBatch, maxSequences, start, index, currentTokens)
      invariant start == index ==> currentTokens == 0
      invariant batches + Plan(counts, nBatch, maxSequences, start) == Plan(counts, nBatch, maxSequences, 0)
    {
      var wouldExceedTokens := currentTokens + counts[index] > nBatch;
      var wouldExceedSequences := currentSequences >= maxSequences;
      if (wouldExceedTokens || wouldExceedSequences) && currentSequences > 0 {
        FlushContinuesPlan(counts, nBatch, maxSequences, start, index, batches);
        batches := batches + [Range(start, index)];
        start, currentTokens, currentSequences := index, 0, 0;
      } else if currentSequences > 0 {
        Grows(counts, nBatch, maxSequences, start, index, currentTokens);
      }
      currentTokens := currentTokens + counts[index];
      currentSequences := currentSequences + 1;
    }
    if currentSequences > 0 {
      FlushContinuesPlan(counts, nBatch, maxSequences, start, |counts|, batches);
      batches := batches + [Range(start, |counts|)];
    }
  }

  lemma {:induction false} ExtendReaches(counts: seq<nat>, nBatch: nat, maxSequences: int, start: nat, end: nat, target: nat)
    requires start < end <= target <= |counts|
    requires Fits(counts, nBatch, maxSequences, start, end) && Fits(counts, nBatch, maxSequences, start, target)
    ensures Extend(counts, nBatch, maxSequences, start, end) >= target
    decreases |counts| - end
  {
    if end < target {
      FitsWithin(counts, nBatch, maxSequences, start, target, start, end + 1);
      ExtendReaches(counts, nBatch, maxSequences, start, end + 1, target);
    }
  }

  /** The greedy plan stays ahead: starting no earlier than another split, it needs
      no more batches. */
  lemma {:induction false} PlanIsOptimal(counts: seq<nat>, nBatch: nat, maxSequences: int, start: nat,
                                         other: seq<Range>, otherStart: nat)
    requires otherStart <= start <= |counts|
    requires Split(counts, nBatch, maxSequences, other, otherStart)
    ensures |Plan(counts, nBatch, maxSequences, start)| <= |other|
    decreases |other|
  {
    if start < |counts| {
      var otherEnd := other[0].end;
      if otherEnd <= start {
        PlanIsOptimal(counts, nBatch, maxSequences, start, other[1..], otherEnd);
      } else {
        FitsWithin(counts, nBatch, maxSequences, otherStart, otherEnd, start, otherEnd);
        ExtendReaches(counts, nBatch, maxSequences, start, start + 1, otherEnd);
        var end := Extend(counts, nBatch, maxSequences, start, start + 1);
        PlanIsOptimal(counts, nBatch, maxSequences, end, other[1..], otherEnd);
      }
    }
  }

  /** One batch is enough exactly for a single document or for documents that together
      are within both caps. */
  lemma OneBatchIff(counts: seq<nat>, nBatch: nat, maxSequences: int)
    requires |counts| > 0
    ensures |Plan(counts, nBatch, maxSequences, 0)| == 1 <==>
              |counts| == 1 || (|counts| <= maxSequences && Tokens(counts, 0, |counts|) <= nBatch)
  {
    var end := Extend(counts, nBatch, maxSequences, 0, 1);
    var plan := Plan(counts, nBatch, maxSequences, 0);
    assert plan == [Range(0, end)] + Plan(counts, nBatch, maxSequences, end);
    if Fits(counts, nBatch, maxSequences, 0, |counts|) {
      ExtendReaches(counts, nBatch, maxSequences, 0, 1, |counts|);
    }
  }

  /** `count` charges of `unit` each. */
  function Charged(unit: nat, count: nat): nat {
    if count == 0 then 0 else Charged(unit, count - 1) + unit
  }

  lemma AddCharge(unit: nat, count: nat, total: int, extra: int)
    requires Charged(unit, count) <= total && unit <= extra
    ensures Charged(unit, count + 1) <= total + extra
  {
  }

  lemma {:induction false} ChargedIsProduct(unit: nat, count: nat)
    ensures Charged(unit, count) == unit * count
  {
    if count > 0 {
      ChargedIsProduct(unit, count - 1);
      assert unit * count == unit * (count - 1) + unit;
    }
  }

  lemma ChargedAtMostQuotient(unit: nat, count: nat, total: nat)
    requires unit >= 1 && Charged(unit, count) <= total
    ensures count <= total / unit
  {
    ChargedIsProduct(unit, count);
    AboveQuotient(unit, count, total);
  }

  lemma AboveQuotient(unit: nat, count: nat, total: nat)
    requires unit >= 1
    ensures count > total / unit ==> unit * count > total
  {
    if count > total / unit {
      assert unit * count >= unit * (total / unit + 1);
    }
  }

  /** A batch with a successor has used up one of the caps. */
  lemma BatchIsSaturated(counts: seq<nat>, nBatch: nat, maxSequences: nat, start: nat, end: nat)
    requires start < end < |counts| && maxSequences >= 1
    requires !Fits(counts, nBatch, maxSequences, start, end + 1)
    ensures end - start >= maxSequences || Tokens(counts, start, end) + counts[end] > nBatch
  {
    assert Tokens(counts, start, end + 1) == Tokens(counts, start, end) + counts[end];
  }

  lemma TokensFromFirst(counts: seq<nat>, start: nat, end: nat)
    requires start < end <= |counts|
    ensures Tokens(counts, start, end) >= counts[start]
    ensures Tokens(counts, start, |counts|) == Tokens(counts, start, end) + Tokens(counts, end, |counts|)
  {
    TokensSplit(counts, start, start + 1, end);
    TokensSplit(counts, start, end, |counts|);
    assert Tokens(counts, start, start + 1) == Tokens(counts, start, start) + counts[start];
  }

  /** No batch of the split could have taken the document after it. */
  ghost predicate Saturated(counts: seq<nat>, nBatch: nat, maxSequences: int, plan: seq<Range>, start: nat)
    requires Split(counts, nBatch, maxSequences, plan, start)
  {
    plan != [] ==>
      && (plan[0].end < |counts| ==> !Fits(counts, nBatch, maxSequences, start, plan[0].end + 1))
      && Saturated(counts, nBatch, maxSequences, plan[1..], plan[0].end)
  }

  /** The plan's ranges tile the input in order, each fits, and none could grow. */
  lemma {:induction false} PlanIsSaturated(counts: seq<nat>, nBatch: nat, maxSequences: int, start: nat)
    requires start <= |counts|
    ensures Split(counts, nBatch, maxSequences, Plan(counts, nBatch, maxSequences, start), start)
    ensures Saturated(counts, nBatch, maxSequences, Plan(counts, nBatch, maxSequences, start), start)
    decreases |counts| - start
  {
    if start < |counts| {
      var end := Extend(counts, nBatch, maxSequences, start, start + 1);
      PlanIsSaturated(counts, nBatch, maxSequences, end);
    }
  }

  /** Each batch but the last is charged either `maxSequences` documents or, with
      the first document after it, more than `nBatch` tokens. */
  lemma {:induction false} ChargeBatches(counts: seq<nat>, nBatch: nat, maxSequences: nat, plan: seq<Range>, start: nat)
    returns (bySequences: nat, byTokens: nat)
    requires start < |counts| && maxSequences >= 1
    requires Split(counts, nBatch, maxSequences, plan, start) && Saturated(counts, nBatch, maxSequences, plan, start)
    ensures |plan| == bySequences + byTokens + 1
    ensures Charged(maxSequences, bySequences) <= |counts| - start
    ensures Charged(nBatch, byTokens) <= 2 * Tokens(counts, start, |counts|) - counts[start]
    decreases |plan|
  {
    var end := plan[0].end;
    TokensFromFirst(counts, start, end);
    if end == |counts| {
      bySequences, byTokens := 0, 0;
    } else {
      var s, t := ChargeBatches(counts, nBatch, maxSequences, plan[1..], end);
      BatchIsSaturated(counts, nBatch, maxSequences, start, end);
      if end - start >= maxSequences {
        AddCharge(maxSequences, s, |counts| - end, end - start);
        bySequences, byTokens := s + 1, t;
      } else {
        AddCharge(nBatch, t, 2 * Tokens(counts, end, |counts|) - counts[end],
                  Tokens(counts, start, end) + counts[end]);
        bySequences, byTokens := s, t + 1;
      }
    }
  }

  /** For N documents and T tokens the plan has at most N/m + 2T/n_batch + 1 batches. */
  lemma BatchCountBound(counts: seq<nat>, nBatch: nat, maxSequences: nat)
    requires maxSequences >= 1 && nBatch >= 1
    ensures |Plan(counts, nBatch, maxSequences, 0)|
            <= |counts| / maxSequences + 2 * Tokens(counts, 0, |counts|) / nBatch + 1
  {
    if |counts| > 0 {
      PlanIsSaturated(counts, nBatch, maxSequences, 0);
      var bySequences, byTokens := ChargeBatches(counts, nBatch, maxSequences, Plan(counts, nBatch, maxSequences, 0), 0);
      ChargedAtMostQuotient(maxSequences, bySequences, |counts|);
      ChargedAtMostQuotient(nBatch, byTokens, 2 * Tokens(counts, 0, |counts|));
    } else {
      ChargedAtMostQuotient(maxSequences, 0, |counts|);
      ChargedAtMostQuotient(nBatch, 0, 2 * Tokens(counts, 0, |counts|));
    }
  }
}
