/** The vocabulary the tutorial builds from the training corpus: a token-to-index
    map plus the index returned for tokens it does not contain. How the map is
    built (tokenizer rules, index assignment order) belongs to the text library
    and is taken as given. */
module Vocabulary {

  /** The one special token reserved when the vocabulary is built. */
  const Unk: string := "<unk>"

  datatype Vocab = Vocab(stoi: map<string, int>, defaultIndex: int)

  /** `vocab[t]` once a default index is set. */
  function Index(v: Vocab, t: string): int {
    if t in v.stoi then v.stoi[t] else v.defaultIndex
  }

  /** `vocab.set_default_index(vocab["<unk>"])`: every token outside the map is
      from now on looked up exactly as "<unk>" is. */
  function WithUnkDefault(stoi: map<string, int>): (v: Vocab)
    requires Unk in stoi
    ensures v.stoi == stoi
    ensures forall t | t !in stoi :: Index(v, t) == Index(v, Unk) == stoi[Unk]
  {
    Vocab(stoi, stoi[Unk])
  }

  /** `vocab(tokens)`: the index of every token, in order. */
  function Lookup(v: Vocab, tokens: seq<string>): (r: seq<int>)
    ensures |r| == |tokens|
    ensures forall i | 0 <= i < |tokens| :: r[i] == Index(v, tokens[i])
  {
    if |tokens| == 0 then []
    else Lookup(v, tokens[..|tokens| - 1]) + [Index(v, tokens[|tokens| - 1])]
  }

  /** The shape of a vocabulary built with the special "<unk>" placed first:
      indices 0 .. |stoi|-1, one token each, "<unk>" at 0 and used as default. */
  ghost predicate Valid(v: Vocab) {
    && Unk in v.stoi
    && v.stoi[Unk] == 0
    && v.defaultIndex == v.stoi[Unk]
    && (forall t | t in v.stoi :: 0 <= v.stoi[t] < |v.stoi|)
    && (forall t, u | t in v.stoi && u in v.stoi && t != u :: v.stoi[t] != v.stoi[u])
  }

  /** Looking up a concatenation is concatenating the lookups. */
  lemma {:induction false} LookupAppend(v: Vocab, a: seq<string>, b: seq<string>)
    ensures Lookup(v, a + b) == Lookup(v, a) + Lookup(v, b)
  {
    if |b| == 0 {
      assert a + b == a;
    } else {
      var b' := b[..|b| - 1];
      assert (a + b)[..|a + b| - 1] == a + b';
      LookupAppend(v, a, b');
    }
  }

  /** With a valid vocabulary every looked-up index is an embedding row:
      in [0, |stoi|); unknown tokens land on 0, the "<unk>" row. */
  lemma LookupInRange(v: Vocab, tokens: seq<string>)
    requires Valid(v)
    ensures forall i | 0 <= i < |tokens| :: 0 <= Lookup(v, tokens)[i] < |v.stoi|
    ensures forall i | 0 <= i < |tokens| :: tokens[i] !in v.stoi ==> Lookup(v, tokens)[i] == 0
  {
    forall i | 0 <= i < |tokens|
      ensures 0 <= Lookup(v, tokens)[i] < |v.stoi|
    {
      if tokens[i] !in v.stoi {
        assert Unk in v.stoi.Keys;
        assert |v.stoi.Keys| >= 1;
      }
    }
  }

  /** The vocabulary is one-to-one on the tokens it knows: two sequences of
      known tokens with the same indices are the same sequence. */
  lemma LookupInjectiveOnKnown(v: Vocab, a: seq<string>, b: seq<string>)
    requires Valid(v)
    requires forall i | 0 <= i < |a| :: a[i] in v.stoi
    requires forall i | 0 <= i < |b| :: b[i] in v.stoi
    requires Lookup(v, a) == Lookup(v, b)
    ensures a == b
  {
    assert |a| == |Lookup(v, a)| == |b|;
    forall i | 0 <= i < |a|
      ensures a[i] == b[i]
    {
      assert Lookup(v, a)[i] == Lookup(v, b)[i];
    }
  }

  /** The documented lookup `vocab(['here', 'is', 'an', 'example'])`. */
  lemma LookupExample(v: Vocab)
    requires "here" in v.stoi && v.stoi["here"] == 475
    requires "is" in v.stoi && v.stoi["is"] == 21
    requires "an" in v.stoi && v.stoi["an"] == 30
    requires "example" in v.stoi && v.stoi["example"] == 5286
    ensures Lookup(v, ["here", "is", "an", "example"]) == [475, 21, 30, 5286]
  {
  }
}
