/** `collate_batch`: a batch of (label, text) samples flattened into one label
    sequence, one concatenated token sequence and the offset of each sample's
    run of tokens inside it. Tensors are plain sequences here. */
module Collate {
  import opened Results
  import opened Vocabulary
  import opened Pipelines

  datatype Batch = Batch(labels: seq<int>, text: seq<int>, offsets: seq<int>)

  function Sum(xs: seq<int>): (r: int)
    ensures (forall i | 0 <= i < |xs| :: xs[i] >= 0) ==> r >= 0
  {
    if |xs| == 0 then 0 else Sum(xs[..|xs| - 1]) + xs[|xs| - 1]
  }

  /** `tensor.cumsum(dim=0)`: each entry is the previous entry plus the next
      element. */
  function CumSum(xs: seq<int>): (r: seq<int>)
    ensures |r| == |xs|
  {
    if |xs| == 0 then []
    else
      var prev := CumSum(xs[..|xs| - 1]);
      prev + [(if |prev| == 0 then 0 else prev[|prev| - 1]) + xs[|xs| - 1]]
  }

  function Lengths(runs: seq<seq<int>>): seq<int> {
    seq(|runs|, i requires 0 <= i < |runs| => |runs[i]|)
  }

  /** `torch.cat`: the runs one after another. */
  function Flatten(runs: seq<seq<int>>): seq<int> {
    if |runs| == 0 then [] else Flatten(runs[..|runs| - 1]) + runs[|runs| - 1]
  }

  /** The offsets list: `[0]`, then every length appended, the last entry
      dropped (`offsets[:-1]`), then `cumsum`. */
  function Offsets(lengths: seq<int>): seq<int> {
    var list := [0] + lengths;
    CumSum(list[..|list| - 1])
  }

  /** The text pipeline's encoding of every sample of a batch, in order. */
  function Encode(v: Vocab, tokenize: string -> seq<string>, batch: seq<Sample>): seq<seq<int>> {
    seq(|batch|, i requires 0 <= i < |batch| => TextPipeline(v, tokenize, batch[i].text))
  }

  lemma {:induction false} SumAppend(a: seq<int>, b: seq<int>)
    ensures Sum(a + b) == Sum(a) + Sum(b)
  {
    if |b| == 0 {
      assert a + b == a;
    } else {
      var b' := b[..|b| - 1];
      assert (a + b)[..|a + b| - 1] == a + b';
      SumAppend(a, b');
    }
  }

  /** The running total at position i is the sum of the first i + 1 elements. */
  lemma {:induction false} CumSumIsRunningTotal(xs: seq<int>)
    ensures forall i | 0 <= i < |xs| :: CumSum(xs)[i] == Sum(xs[..i + 1])
  {
    if |xs| > 0 {
      var init := xs[..|xs| - 1];
      CumSumIsRunningTotal(init);
      forall i | 0 <= i < |xs|
        ensures CumSum(xs)[i] == Sum(xs[..i + 1])
      {
        if i < |xs| - 1 {
          assert init[..i + 1] == xs[..i + 1];
        } else {
          assert xs[..i + 1] == xs;
          if i > 0 {
            assert init[..i] == init;
          }
        }
      }
    }
  }

  /** The offsets are an exclusive prefix sum: one per sample, the first 0,
      each the total length of the samples before it, and consecutive offsets
      differ by the length of the sample between them. */
  lemma OffsetsArePrefixSums(lengths: seq<int>)
    ensures |Offsets(lengths)| == |lengths|
    ensures forall i | 0 <= i < |lengths| :: Offsets(lengths)[i] == Sum(lengths[..i])
    ensures |lengths| > 0 ==> Offsets(lengths)[0] == 0
    ensures forall i | 0 <= i < |lengths| - 1 :: Offsets(lengths)[i + 1] == Offsets(lengths)[i] + lengths[i]
  {
    var list := [0] + lengths;
    CumSumIsRunningTotal(list[..|list| - 1]);
    forall i | 0 <= i < |lengths|
      ensures Offsets(lengths)[i] == Sum(lengths[..i])
    {
      assert list[..|list| - 1][..i + 1] == [0] + lengths[..i];
      SumAppend([0], lengths[..i]);
    }
    forall i | 0 <= i < |lengths| - 1
      ensures Sum(lengths[..i + 1]) == Sum(lengths[..i]) + lengths[i]
    {
      assert lengths[..i + 1][..i] == lengths[..i];
    }
    if |lengths| > 0 {
      assert lengths[..0] == [];
    }
  }

  /** With lengths that are never negative the offsets never decrease. */
  lemma OffsetsMonotone(lengths: seq<int>)
    requires forall i | 0 <= i < |lengths| :: lengths[i] >= 0
    ensures forall i, j | 0 <= i <= j < |lengths| :: Offsets(lengths)[i] <= Offsets(lengths)[j]
  {
    OffsetsArePrefixSums(lengths);
    forall i, j | 0 <= i <= j < |lengths|
      ensures Offsets(lengths)[i] <= Offsets(lengths)[j]
    {
      var k := i;
      while k < j
        invariant i <= k <= j
        invariant Offsets(lengths)[i] <= Offsets(lengths)[k]
      {
        k := k + 1;
      }
    }
  }

  lemma {:induction false} FlattenAppend(a: seq<seq<int>>, b: seq<seq<int>>)
    ensures Flatten(a + b) == Flatten(a) + Flatten(b)
  {
    if |b| == 0 {
      assert a + b == a;
    } else {
      var b' := b[..|b| - 1];
      assert (a + b)[..|a + b| - 1] == a + b';
      FlattenAppend(a, b');
    }
  }

  /** The concatenation is exactly as long as all runs together. */
  lemma {:induction false} FlattenLength(runs: seq<seq<int>>)
    ensures |Flatten(runs)| == Sum(Lengths(runs))
  {
    if |runs| > 0 {
      var init := runs[..|runs| - 1];
      FlattenLength(init);
      assert Lengths(runs)[..|runs| - 1] == Lengths(init);
    }
  }

  /** Run i of the concatenation starts at the total length of the runs before
      it and holds exactly `runs[i]`. */
  lemma FlattenRunAt(runs: seq<seq<int>>, i: nat)
    requires i < |runs|
    ensures 0 <= Sum(Lengths(runs)[..i])
    ensures Sum(Lengths(runs)[..i]) + |runs[i]| <= |Flatten(runs)|
    ensures Flatten(runs)[Sum(Lengths(runs)[..i]) .. Sum(Lengths(runs)[..i]) + |runs[i]|] == runs[i]
  {
    var pre, post := runs[..i], runs[i + 1..];
    assert runs == pre + [runs[i]] + post;
    FlattenAppend(pre + [runs[i]], post);
    FlattenAppend(pre, [runs[i]]);
    assert Flatten([runs[i]]) == runs[i] by {
      assert [runs[i]][..0] == [];
    }
    FlattenLength(pre);
    assert Lengths(runs)[..i] == Lengths(pre);
  }

  /** The offsets of encoded runs `runs`: one per run, each the exclusive
      prefix sum of the run lengths, so the first is 0 and they never
      decrease. */
  ghost predicate PrefixOffsets(offsets: seq<int>, runs: seq<seq<int>>) {
    && |offsets| == |runs|
    && (|runs| > 0 ==> offsets[0] == 0)
    && (forall i | 0 <= i < |runs| :: 0 <= offsets[i] == Sum(Lengths(runs)[..i]))
    && (forall i, j | 0 <= i <= j < |runs| :: offsets[i] <= offsets[j])
  }

  /** A concatenation of `runs` addressed by `offsets`: exactly as long as all
      runs together, with run i found at offset i. */
  ghost predicate RunsAt(text: seq<int>, offsets: seq<int>, runs: seq<seq<int>>) {
    && |offsets| == |runs|
    && |text| == Sum(Lengths(runs))
    && (forall i | 0 <= i < |runs| ::
          && 0 <= offsets[i]
          && offsets[i] + |runs[i]| <= |text|
          && text[offsets[i] .. offsets[i] + |runs[i]|] == runs[i])
  }

  /** The offsets `collate_batch` computes are the exclusive prefix sums. */
  lemma OffsetsLayout(runs: seq<seq<int>>)
    ensures PrefixOffsets(Offsets(Lengths(runs)), runs)
  {
    var lengths := Lengths(runs);
    OffsetsArePrefixSums(lengths);
    forall i | 0 <= i < |runs|
      ensures 0 <= Sum(lengths[..i])
    {
      assert forall k | 0 <= k < |lengths[..i]| :: lengths[..i][k] >= 0;
    }
    OffsetsMonotone(lengths);
  }

  /** Run i sits in the concatenation at the offset computed for it. */
  lemma RunAtOffset(runs: seq<seq<int>>, i: nat)
    requires i < |runs|
    ensures |Offsets(Lengths(runs))| == |runs|
    ensures 0 <= Offsets(Lengths(runs))[i]
    ensures Offsets(Lengths(runs))[i] + |runs[i]| <= |Flatten(runs)|
    ensures Flatten(runs)[Offsets(Lengths(runs))[i] .. Offsets(Lengths(runs))[i] + |runs[i]|] == runs[i]
  {
    OffsetsArePrefixSums(Lengths(runs));
    FlattenRunAt(runs, i);
  }

  /** `torch.cat` of the runs holds run i at offset i. */
  lemma TextLayout(runs: seq<seq<int>>)
    ensures RunsAt(Flatten(runs), Offsets(Lengths(runs)), runs)
  {
    FlattenLength(runs);
    OffsetsArePrefixSums(Lengths(runs));
    forall i | 0 <= i < |runs|
      ensures 0 <= Offsets(Lengths(runs))[i]
      ensures Offsets(Lengths(runs))[i] + |runs[i]| <= |Flatten(runs)|
      ensures Flatten(runs)[Offsets(Lengths(runs))[i] .. Offsets(Lengths(runs))[i] + |runs[i]|] == runs[i]
    {
      RunAtOffset(runs, i);
    }
  }

  /** `collate_batch(batch)`. A label that `int()` rejects raises out of the
      loop; otherwise every sample contributes its label, its text pipeline
      encoding and its offset, in batch order. */
  method CollateBatch(v: Vocab, tokenize: string -> seq<string>, batch: seq<Sample>) returns (r: Result<Batch>)
    requires |batch| > 0
    ensures r.Success? <==> forall i | 0 <= i < |batch| :: LabelPipeline(batch[i].rawLabel).Success?
    ensures r.Failure? ==> exists i | 0 <= i < |batch| ::
      && LabelPipeline(batch[i].rawLabel) == Failure(r.error)
      && forall j | 0 <= j < i :: LabelPipeline(batch[j].rawLabel).Success?
    ensures r.Success? ==>
      && |r.value.labels| == |batch|
      && forall i | 0 <= i < |batch| :: r.value.labels[i] == LabelPipeline(batch[i].rawLabel).value
    ensures r.Success? ==> PrefixOffsets(r.value.offsets, Encode(v, tokenize, batch))
    ensures r.Success? ==> RunsAt(r.value.text, r.value.offsets, Encode(v, tokenize, batch))
  {
    var labelList: seq<int> := [];
    var textList: seq<seq<int>> := [];
    var offsetList: seq<int> := [0];
    for i := 0 to |batch|
      invariant |labelList| == i
      invariant forall j | 0 <= j < i :: LabelPipeline(batch[j].rawLabel) == Success(labelList[j])
      invariant textList == Encode(v, tokenize, batch)[..i]
      invariant offsetList == [0] + Lengths(textList)
    {
      var encodedLabel := LabelPipeline(batch[i].rawLabel);
      if encodedLabel.Failure? {
        return Failure(encodedLabel.error);
      }
      labelList := labelList + [encodedLabel.value];
      var processed := TextPipeline(v, tokenize, batch[i].text);
      assert Lengths(textList + [processed]) == Lengths(textList) + [|processed|];
      textList := textList + [processed];
      offsetList := offsetList + [|processed|];
    }
    assert textList == Encode(v, tokenize, batch);
    OffsetsLayout(textList);
    TextLayout(textList);
    r := Success(Batch(labelList, Flatten(textList), CumSum(offsetList[..|offsetList| - 1])));
  }
}
