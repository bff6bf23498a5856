/** The per-sample pipelines (`label_pipeline`, `text_pipeline`) and the label
    mapping of `predict`. The tokenizer and the classifier's forward pass are
    library code and enter as parameters. */
module Pipelines {
  import opened Results
  import opened IntLiteral
  import opened Vocabulary

  /** A raw label as the dataset yields it: AG_NEWS gives integers, the
      documentation example passes the string '10'. */
  datatype RawLabel = Num(n: int) | Text(s: string)

  /** One (label, text) pair from the corpus iterator. */
  datatype Sample = Sample(rawLabel: RawLabel, text: string)

  /** The four AG_NEWS categories, keyed by the dataset's 1-based label. */
  const AgNewsLabel: map<int, string> :=
    map[1 := "World", 2 := "Sports", 3 := "Business", 4 := "Sci/Tec"]

  const NumClass: nat := 4

  /** Python's `int(x)` on either kind of raw label. */
  function ToInt(x: RawLabel): Result<int> {
    match x
    case Num(n) => Success(n)
    case Text(s) => ParseInt(s)
  }

  /** `label_pipeline = lambda x: int(x) - 1`. */
  function LabelPipeline(x: RawLabel): Result<int> {
    match ToInt(x)
    case Success(n) => Success(n - 1)
    case Failure(e) => Failure(e)
  }

  /** `text_pipeline = lambda x: vocab(tokenizer(x))`: one index per token. */
  function TextPipeline(v: Vocab, tokenize: string -> seq<string>, text: string): (r: seq<int>)
    ensures |r| == |tokenize(text)|
    ensures forall i | 0 <= i < |r| :: r[i] == Index(v, tokenize(text)[i])
  {
    Lookup(v, tokenize(text))
  }

  /** `argmax` over one row of logits: the first index holding the maximum. */
  function Argmax(logits: seq<real>): (k: nat)
    requires |logits| > 0
    ensures k < |logits|
    ensures forall j | 0 <= j < |logits| :: logits[j] <= logits[k]
    ensures forall j | 0 <= j < k :: logits[j] < logits[k]
  {
    if |logits| == 1 then 0
    else
      var k := Argmax(logits[..|logits| - 1]);
      if logits[|logits| - 1] > logits[k] then |logits| - 1 else k
  }

  /** `predict`: the 1-based label of the highest logit of the single row. */
  function Predict(logits: seq<real>): (category: int)
    requires |logits| > 0
    ensures 1 <= category <= |logits|
    ensures forall j | 0 <= j < |logits| :: logits[j] <= logits[category - 1]
    ensures forall j | 0 <= j < category - 1 :: logits[j] < logits[category - 1]
  {
    Argmax(logits) + 1
  }

  /** For an integer label the pipeline is the shift by one. */
  lemma LabelPipelineShift(n: int)
    ensures LabelPipeline(Num(n)) == Success(n - 1)
    ensures LabelPipeline(Text(ShowInt(n))) == Success(n - 1)
  {
    ParseShowRoundTrip(n);
  }

  /** The documented example: `label_pipeline('10')` is 9. */
  lemma LabelPipelineExample()
    ensures LabelPipeline(Text("10")) == Success(9)
  {
    assert ShowInt(10) == "10";
    LabelPipelineShift(10);
  }

  /** A string label with no digit at all raises ValueError. */
  lemma LabelPipelineRejects(s: string)
    requires forall i | 0 <= i < |s| :: !IsDigit(s[i])
    ensures LabelPipeline(Text(s)) == Failure(ValueError(s))
  {
    ParseRejectsDigitless(s);
  }

  /** The AG_NEWS labels are exactly the labels the pipeline sends into the
      class range 0 .. NUM_CLASS - 1, and distinct labels go to distinct
      classes: a bijection from the labels 1..4 onto the classes 0..3. */
  lemma LabelPipelineBijective(l: int, l': int)
    ensures l in AgNewsLabel <==> LabelPipeline(Num(l)).Success? && 0 <= LabelPipeline(Num(l)).value < NumClass
    ensures LabelPipeline(Num(l)) == LabelPipeline(Num(l')) <==> l == l'
  {
    assert AgNewsLabel.Keys == {1, 2, 3, 4};
  }

  /** A prediction over the four classes names an AG_NEWS category, and the
      label pipeline maps it back to the predicted class index. */
  lemma PredictInvertsLabelPipeline(logits: seq<real>)
    requires |logits| == NumClass
    ensures Predict(logits) in AgNewsLabel
    ensures LabelPipeline(Num(Predict(logits))) == Success(Argmax(logits))
  {
  }

  /** The pipelines on the tutorial's example sentence, for a tokenizer that
      splits it at the spaces and a vocabulary holding the documented indices
      ("the" at 2). */
  lemma TextPipelineExample(v: Vocab, tokenize: string -> seq<string>)
    requires tokenize("here is the an example") == ["here", "is", "the", "an", "example"]
    requires "here" in v.stoi && v.stoi["here"] == 475
    requires "is" in v.stoi && v.stoi["is"] == 21
    requires "the" in v.stoi && v.stoi["the"] == 2
    requires "an" in v.stoi && v.stoi["an"] == 30
    requires "example" in v.stoi && v.stoi["example"] == 5286
    ensures TextPipeline(v, tokenize, "here is the an example") == [475, 21, 2, 30, 5286]
  {
  }

  /** Tokens the vocabulary does not know are encoded as "<unk>". */
  lemma TextPipelineUnknown(stoi: map<string, int>, tokenize: string -> seq<string>, text: string)
    requires Unk in stoi
    ensures forall i | 0 <= i < |tokenize(text)| && tokenize(text)[i] !in stoi ::
      TextPipeline(WithUnkDefault(stoi), tokenize, text)[i] == stoi[Unk]
  {
  }
}
