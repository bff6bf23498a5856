/** The running counters of `train` and `evaluate`. The classifier's forward
    pass is library numerics; each sample of a batch enters as the class it
    was predicted as (`predited_label.argmax(1)`) next to its true class. */
module Accuracy {
  import opened Results

  /** One sample after the forward pass: predicted class and true class. */
  datatype Scored = Scored(predicted: int, truth: int)

  /** `train` logs every this many batches. */
  const LogInterval: nat := 500

  /** `(predited_label.argmax(1) == label).sum().item()`: the number of
      samples of one batch predicted right. At most the batch size, and equal
      to it exactly when every prediction is right. */
  function CountCorrect(batch: seq<Scored>): (c: nat)
    ensures c <= |batch|
    ensures c == |batch| <==> forall i | 0 <= i < |batch| :: batch[i].predicted == batch[i].truth
  {
    if |batch| == 0 then 0
    else
      var last := batch[|batch| - 1];
      CountCorrect(batch[..|batch| - 1]) + (if last.predicted == last.truth then 1 else 0)
  }

  /** The positions of a batch that were predicted right. */
  function Matches(batch: seq<Scored>): set<nat> {
    set i: nat | i < |batch| && batch[i].predicted == batch[i].truth
  }

  /** The count is the number of right positions. */
  lemma {:induction false} CountCorrectIsMatches(batch: seq<Scored>)
    ensures CountCorrect(batch) == |Matches(batch)|
  {
    var n := |batch|;
    if n > 0 {
      var init := batch[..n - 1];
      CountCorrectIsMatches(init);
      if batch[n - 1].predicted == batch[n - 1].truth {
        assert Matches(batch) == Matches(init) + {n - 1};
      } else {
        assert Matches(batch) == Matches(init);
      }
    }
  }

  /** The number of samples in the first n batches (`label.size(0)` summed). */
  function Samples(batches: seq<seq<Scored>>, n: nat): nat
    requires n <= |batches|
  {
    if n == 0 then 0 else Samples(batches, n - 1) + |batches[n - 1]|
  }

  /** The number of right predictions in the first n batches; never more than
      the number of samples there. */
  function Correct(batches: seq<seq<Scored>>, n: nat): (c: nat)
    requires n <= |batches|
    ensures c <= Samples(batches, n)
  {
    if n == 0 then 0 else Correct(batches, n - 1) + CountCorrect(batches[n - 1])
  }

  /** Both counts only grow along the batches, right predictions no faster
      than samples. */
  lemma {:induction false} CountsGrow(batches: seq<seq<Scored>>, lo: nat, hi: nat)
    requires lo <= hi <= |batches|
    ensures Samples(batches, lo) <= Samples(batches, hi)
    ensures Correct(batches, lo) <= Correct(batches, hi)
    ensures Correct(batches, hi) - Correct(batches, lo) <= Samples(batches, hi) - Samples(batches, lo)
    decreases hi - lo
  {
    if lo < hi {
      CountsGrow(batches, lo, hi - 1);
    }
  }

  /** An exact fraction `num / den`, the value of `total_acc / total_count`. */
  datatype Ratio = Ratio(num: nat, den: nat)

  function Value(r: Ratio): real
    requires r.den > 0
  {
    r.num as real / r.den as real
  }

  /** A fraction whose numerator does not exceed its denominator lies in
      [0, 1]. */
  lemma FractionInUnit(r: Ratio)
    requires 0 < r.den && r.num <= r.den
    ensures 0.0 <= Value(r) <= 1.0
  {
    assert r.num as real <= r.den as real;
  }

  /** `evaluate(dataloader)`: right predictions over samples across all
      batches. With no samples at all the division raises ZeroDivisionError. */
  method Evaluate(batches: seq<seq<Scored>>) returns (r: Result<Ratio>)
    ensures r.Success? <==> Samples(batches, |batches|) > 0
    ensures r.Failure? ==> r.error == ZeroDivisionError
    ensures r.Success? ==> r.value.num == Correct(batches, |batches|) && r.value.den == Samples(batches, |batches|)
    ensures r.Success? ==> 0 < r.value.den && r.value.num <= r.value.den
    ensures r.Success? ==> 0.0 <= Value(r.value) <= 1.0
  {
    var totalAcc := 0;
    var totalCount := 0;
    for idx := 0 to |batches|
      invariant totalAcc == Correct(batches, idx)
      invariant totalCount == Samples(batches, idx)
    {
      totalAcc := totalAcc + CountCorrect(batches[idx]);
      totalCount := totalCount + |batches[idx]|;
    }
    if totalCount == 0 {
      r := Failure(ZeroDivisionError);
    } else {
      r := Success(Ratio(totalAcc, totalCount));
      FractionInUnit(r.value);
    }
  }

  /** One progress line of `train`: the batch index it is printed at and the
      two counters whose quotient it prints. */
  datatype LogLine = LogLine(idx: nat, correct: nat, count: nat)

  /** The batch index of the k-th progress line (counting from 0): the
      (k + 1)-th positive multiple of the interval. */
  function LogIndex(k: nat): nat {
    (k + 1) * LogInterval
  }

  /** The first batch counted by the k-th logging window: the counters start at
      batch 0 and restart after each logged batch. */
  function WindowStart(k: nat): nat {
    if k == 0 then 0 else k * LogInterval + 1
  }

  /** Every window holds at least the batch it is logged at, the next window
      starts right after it, and log indices are one interval apart. */
  lemma WindowFacts(k: nat)
    ensures WindowStart(k) <= LogIndex(k)
    ensures WindowStart(k + 1) == LogIndex(k) + 1
    ensures LogIndex(k + 1) == LogIndex(k) + LogInterval
  {
    assert (k + 1) * LogInterval == k * LogInterval + LogInterval;
    assert (k + 2) * LogInterval == (k + 1) * LogInterval + LogInterval;
  }

  /** The logging test `idx % log_interval == 0 and idx > 0` holds inside the
      window after the m-th log exactly at LogIndex(m). */
  lemma LogStepsInWindow(m: nat, idx: nat)
    requires WindowStart(m) <= idx <= LogIndex(m)
    ensures idx % LogInterval == 0 && idx > 0 <==> idx == LogIndex(m)
  {
    var q := idx / LogInterval;
    assert idx == q * LogInterval + idx % LogInterval;
  }

  /** Line k carries the counts of its own window, the batches from
      WindowStart(k) up to and including the batch it is printed at. */
  ghost predicate CountsWindow(batches: seq<seq<Scored>>, line: LogLine, k: nat)
    requires WindowStart(k) <= line.idx < |batches|
  {
    && line.correct == Correct(batches, line.idx + 1) - Correct(batches, WindowStart(k))
    && line.count == Samples(batches, line.idx + 1) - Samples(batches, WindowStart(k))
  }

  /** The progress lines `logs` were printed before batch `upto`, each at its
      LogIndex, each with the counts of its own window, none of them empty. */
  ghost predicate Logged(batches: seq<seq<Scored>>, logs: seq<LogLine>, upto: nat) {
    forall k | 0 <= k < |logs| ::
      && WindowStart(k) <= logs[k].idx == LogIndex(k) < upto <= |batches|
      && CountsWindow(batches, logs[k], k)
      && 0 < logs[k].count
  }

  lemma LoggedAppend(batches: seq<seq<Scored>>, logs: seq<LogLine>, line: LogLine)
    requires Logged(batches, logs, line.idx)
    requires WindowStart(|logs|) <= line.idx == LogIndex(|logs|) < |batches|
    requires CountsWindow(batches, line, |logs|)
    requires 0 < line.count
    ensures Logged(batches, logs + [line], line.idx + 1)
  {
    var logs' := logs + [line];
    forall k | 0 <= k < |logs'|
      ensures WindowStart(k) <= logs'[k].idx == LogIndex(k) < line.idx + 1 <= |batches|
      ensures CountsWindow(batches, logs'[k], k)
      ensures 0 < logs'[k].count
    {
      if k < |logs| {
        assert logs'[k] == logs[k];
      } else {
        assert k == |logs| && logs'[k] == line;
      }
    }
  }

  /** One iteration of `train`'s loop at batch `idx`: count the batch, and at
      a logging step print a progress line and restart the counters. Keeps
      the window invariant of `TrainCounters`. */
  method TrainStep(batches: seq<seq<Scored>>, idx: nat, logs: seq<LogLine>, totalAcc: nat, totalCount: nat)
    returns (logs': seq<LogLine>, totalAcc': nat, totalCount': nat)
    requires idx < |batches| && |batches[idx]| > 0
    requires WindowStart(|logs|) <= idx <= LogIndex(|logs|)
    requires Logged(batches, logs, idx)
    requires totalAcc == Correct(batches, idx) - Correct(batches, WindowStart(|logs|))
    requires totalCount == Samples(batches, idx) - Samples(batches, WindowStart(|logs|))
    ensures WindowStart(|logs'|) <= idx + 1 <= LogIndex(|logs'|)
    ensures Logged(batches, logs', idx + 1)
    ensures totalAcc' == Correct(batches, idx + 1) - Correct(batches, WindowStart(|logs'|))
    ensures totalCount' == Samples(batches, idx + 1) - Samples(batches, WindowStart(|logs'|))
  {
    WindowFacts(|logs|);
    totalAcc' := totalAcc + CountCorrect(batches[idx]);
    totalCount' := totalCount + |batches[idx]|;
    LogStepsInWindow(|logs|, idx);
    logs' := logs;
    if idx % LogInterval == 0 && idx > 0 {
      var line := LogLine(idx, totalAcc', totalCount');
      LoggedAppend(batches, logs, line);
      logs' := logs + [line];
      totalAcc', totalCount' := 0, 0;
    }
  }

  /** The counter bookkeeping of `train(dataloader)`: a progress line at every
      batch index that is a positive multiple of the interval, each printing
      the counts of the batches since the previous one (never zero, so the
      printed quotient is defined), and the counts still pending at the end
      of the epoch. */
  method TrainCounters(batches: seq<seq<Scored>>) returns (logs: seq<LogLine>, totalAcc: nat, totalCount: nat)
    requires forall k | 0 <= k < |batches| :: |batches[k]| > 0
    ensures forall k | 0 <= k < |logs| :: WindowStart(k) <= logs[k].idx == LogIndex(k) < |batches|
    ensures |batches| <= LogIndex(|logs|)
    ensures forall k | 0 <= k < |logs| ::
      && logs[k].correct == Correct(batches, logs[k].idx + 1) - Correct(batches, WindowStart(k))
      && logs[k].count == Samples(batches, logs[k].idx + 1) - Samples(batches, WindowStart(k))
      && 0 < logs[k].count
    ensures WindowStart(|logs|) <= |batches|
    ensures totalAcc == Correct(batches, |batches|) - Correct(batches, WindowStart(|logs|))
    ensures totalCount == Samples(batches, |batches|) - Samples(batches, WindowStart(|logs|))
    ensures forall k | 0 <= k < |logs| :: logs[k].correct <= logs[k].count
    ensures totalAcc <= totalCount
  {
    logs, totalAcc, totalCount := [], 0, 0;
    WindowFacts(0);
    for idx := 0 to |batches|
      invariant WindowStart(|logs|) <= idx <= LogIndex(|logs|)
      invariant Logged(batches, logs, idx)
      invariant totalAcc == Correct(batches, idx) - Correct(batches, WindowStart(|logs|))
      invariant totalCount == Samples(batches, idx) - Samples(batches, WindowStart(|logs|))
    {
      logs, totalAcc, totalCount := TrainStep(batches, idx, logs, totalAcc, totalCount);
    }
    forall k | 0 <= k < |logs|
      ensures logs[k].correct <= logs[k].count
    {
      CountsGrow(batches, WindowStart(k), logs[k].idx + 1);
    }
    CountsGrow(batches, WindowStart(|logs|), |batches|);
  }
}
