/** The epoch loop's learning-rate rule: after each epoch the validation
    accuracy is compared with the best seen so far; an accuracy strictly
    below it decays the learning rate once (StepLR with step size 1 and
    gamma 0.1), anything else becomes the new best. */
module Plateau {
  import opened Results

  const Epochs: nat := 10
  const BaseRate: real := 5.0
  const Gamma: real := 0.1

  /** `total_accu` (None before the first epoch), the optimizer's current
      learning rate and the number of `scheduler.step()` calls so far. */
  datatype Schedule = Schedule(best: Option<real>, rate: real, decays: nat)

  const Initial: Schedule := Schedule(None, BaseRate, 0)

  function Max(a: real, b: real): real {
    if a < b then b else a
  }

  function Pow(x: real, n: nat): real {
    if n == 0 then 1.0 else Pow(x, n - 1) * x
  }

  /** The largest accuracy of a non-empty run of epochs. */
  function MaxOf(accs: seq<real>): (m: real)
    requires |accs| > 0
    ensures forall i | 0 <= i < |accs| :: accs[i] <= m
    ensures exists i | 0 <= i < |accs| :: accs[i] == m
  {
    if |accs| == 1 then accs[0]
    else
      var init := accs[..|accs| - 1];
      var m := Max(MaxOf(init), accs[|accs| - 1]);
      assert forall i | 0 <= i < |init| :: accs[i] == init[i];
      m
  }

  /** The epochs whose accuracy is strictly below the best accuracy of the
      epochs before it. */
  function Drops(accs: seq<real>): set<nat> {
    set e: nat | 0 < e < |accs| && accs[e] < MaxOf(accs[..e])
  }

  /** One epoch of the loop: the schedule after validation accuracy `accuVal`.
      The best becomes the larger of the old best and `accuVal`; the rate is
      multiplied by gamma exactly when `accuVal` falls strictly below the old
      best, which a tie does not. */
  function Step(s: Schedule, accuVal: real): (t: Schedule)
    ensures t.best == Some(if s.best.Some? then Max(s.best.value, accuVal) else accuVal)
    ensures s.best.Some? && accuVal < s.best.value ==> t.decays == s.decays + 1 && t.rate == s.rate * Gamma
    ensures s.best.None? || s.best.value <= accuVal ==> t.decays == s.decays && t.rate == s.rate
  {
    if s.best.Some? && s.best.value > accuVal then
      s.(rate := s.rate * Gamma, decays := s.decays + 1)
    else
      s.(best := Some(accuVal))
  }

  /** The schedule after the epochs with validation accuracies `accs`. */
  function Run(accs: seq<real>): Schedule {
    if |accs| == 0 then Initial else Step(Run(accs[..|accs| - 1]), accs[|accs| - 1])
  }

  /** After at least one epoch `total_accu` is the best accuracy so far, and
      before any it is None. */
  lemma {:induction false} RunBestIsMax(accs: seq<real>)
    ensures |accs| == 0 ==> Run(accs).best == None
    ensures |accs| > 0 ==> Run(accs).best == Some(MaxOf(accs))
  {
    if |accs| > 1 {
      RunBestIsMax(accs[..|accs| - 1]);
    }
  }

  /** Adding an epoch adds it to the drops exactly when it falls strictly
      below the best before it. */
  lemma DropsExtend(accs: seq<real>)
    requires |accs| > 0
    ensures var n := |accs|;
      Drops(accs) == Drops(accs[..n - 1]) + (if n > 1 && accs[n - 1] < MaxOf(accs[..n - 1]) then {n - 1} else {})
  {
    var n := |accs|;
    var init := accs[..n - 1];
    forall e | 0 < e < n - 1
      ensures init[..e] == accs[..e] && init[e] == accs[e]
    {
    }
  }

  /** The number of decays is the number of epochs that fell strictly below
      the best before them. */
  lemma {:induction false} RunDecaysAreDrops(accs: seq<real>)
    ensures Run(accs).decays == |Drops(accs)|
  {
    var n := |accs|;
    if n == 0 {
      assert Drops(accs) == {};
    } else {
      var init := accs[..n - 1];
      RunDecaysAreDrops(init);
      RunBestIsMax(init);
      DropsExtend(accs);
    }
  }

  /** StepLR's closed form: the rate is the base rate multiplied by gamma once
      per decay. */
  lemma {:induction false} RateIsDecayed(accs: seq<real>)
    ensures Run(accs).rate == BaseRate * Pow(Gamma, Run(accs).decays)
  {
    var n := |accs|;
    if n > 0 {
      var s := Run(accs[..n - 1]);
      RateIsDecayed(accs[..n - 1]);
      assert BaseRate * Pow(Gamma, s.decays) * Gamma == BaseRate * Pow(Gamma, s.decays + 1);
    }
  }

  /** Epoch e decays the rate exactly when its accuracy is strictly below the
      best of the epochs before it. */
  lemma DecayIffBelowBest(accs: seq<real>, e: nat)
    requires e < |accs|
    ensures Run(accs[..e + 1]).decays == Run(accs[..e]).decays + 1 <==> e > 0 && accs[e] < MaxOf(accs[..e])
    ensures Run(accs[..e + 1]).decays <= Run(accs[..e]).decays + 1
  {
    var pre := accs[..e + 1];
    assert pre[..e] == accs[..e];
    RunBestIsMax(accs[..e]);
  }

  /** The best accuracy never goes down from one epoch to a later one. */
  lemma BestNeverDecreases(accs: seq<real>, i: nat, j: nat)
    requires 0 < i <= j <= |accs|
    ensures Run(accs[..i]).best.Some? && Run(accs[..j]).best.Some?
    ensures Run(accs[..i]).best.value <= Run(accs[..j]).best.value
  {
    RunBestIsMax(accs[..i]);
    RunBestIsMax(accs[..j]);
    var k :| 0 <= k < i && accs[..i][k] == MaxOf(accs[..i]);
    assert accs[..j][k] == accs[k];
  }

  /** The first epoch never decays, so a run decays at most once per later
      epoch (at most 9 times over the `EPOCHS = 10` epochs) and the rate stays
      positive. */
  lemma {:induction false} DecaysBounded(accs: seq<real>)
    requires |accs| > 0
    ensures Run(accs).decays <= |accs| - 1
    ensures 0.0 < Run(accs).rate <= BaseRate
  {
    if |accs| > 1 {
      DecaysBounded(accs[..|accs| - 1]);
    }
    RateIsDecayed(accs);
    PowGammaBounds(Run(accs).decays);
  }

  lemma {:induction false} PowGammaBounds(n: nat)
    ensures 0.0 < Pow(Gamma, n) <= 1.0
  {
    if n > 0 {
      PowGammaBounds(n - 1);
    }
  }
}
