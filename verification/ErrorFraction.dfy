/** What the moving average of packet errors means, over the reals, for every history of packet outcomes. */
module ErrorFraction {
  const MOVING_AVERAGE_PERIOD: nat := 6

  function Min(a: nat, b: nat): nat {
    if a > b then b else a
  }

  function ErrorValue(success: bool): real {
    if success then 0.0 else 1.0
  }

  function Errors(h: seq<bool>): nat {
    if h == [] then 0 else Errors(h[..|h| - 1]) + if h[|h| - 1] then 0 else 1
  }

  /** One moving-average step, where `count` already includes the new packet. */
  function AfterPacket(fraction: real, count: nat, success: bool): real
    requires count > 0
  {
    fraction + (ErrorValue(success) - fraction) / (Min(count, MOVING_AVERAGE_PERIOD) as real)
  }

  /** The running fraction after the outcomes `h`, oldest first. */
  function Fraction(h: seq<bool>): real {
    if h == [] then 0.0 else AfterPacket(Fraction(h[..|h| - 1]), |h|, h[|h| - 1])
  }

  lemma AppendPacket(h: seq<bool>, success: bool)
    ensures Errors(h + [success]) == Errors(h) + if success then 0 else 1
    ensures Fraction(h + [success]) == AfterPacket(Fraction(h), |h| + 1, success)
  {
    assert (h + [success])[..|h|] == h;
  }

  /** The share of a packet outcome in the average of `n` packets; it depends on no outcome. */
  function Weight(i: nat, n: nat): (w: real)
    requires i < n
    ensures w > 0.0
  {
    if n <= MOVING_AVERAGE_PERIOD then 1.0 / n as real
    else if i == n - 1 then 1.0 / 6.0
    else Weight(i, n - 1) * 5.0 / 6.0
  }

  /** A step moves the fraction a share `w` of the way to the new outcome; the share depends on the count alone. */
  lemma StepShare(count: nat) returns (w: real)
    requires count > 0
    ensures 0.0 < w <= 1.0 && (w == 1.0 <==> count == 1)
    ensures forall f: real, x: bool :: AfterPacket(f, count, x) == (1.0 - w) * f + w * ErrorValue(x)
    ensures Weight(count - 1, count) == w
    ensures forall i: nat :: i < count - 1 ==> Weight(i, count) == (1.0 - w) * Weight(i, count - 1)
  {
    var m := Min(count, MOVING_AVERAGE_PERIOD);
    if
    case m == 1 => w := 1.0;
    case m == 2 => w := 1.0 / 2.0;
    case m == 3 => w := 1.0 / 3.0;
    case m == 4 => w := 1.0 / 4.0;
    case m == 5 => w := 1.0 / 5.0;
    case m == 6 => w := 1.0 / 6.0;
  }

  lemma MixExtremes(w: real, f: real, x: real)
    requires 0.0 < w <= 1.0 && 0.0 <= f <= 1.0 && (x == 0.0 || x == 1.0)
    ensures 0.0 <= (1.0 - w) * f + w * x <= 1.0
    ensures (1.0 - w) * f + w * x == 0.0 <==> x == 0.0 && (w == 1.0 || f == 0.0)
    ensures (1.0 - w) * f + w * x == 1.0 <==> x == 1.0 && (w == 1.0 || f == 1.0)
  {
    var v := 1.0 - w;
    assert 0.0 <= v * f <= v by {
      assert v * f >= 0.0;
      assert v * (1.0 - f) >= 0.0;
      assert v * (1.0 - f) == v - v * f;
    }
    if v > 0.0 {
      assert v * f == 0.0 ==> f == 0.0;
      assert v * (1.0 - f) == v - v * f;
      assert v * f == v ==> v * (1.0 - f) == 0.0;
      assert v * (1.0 - f) == 0.0 ==> f == 1.0;
    }
  }

  lemma StepExtremes(count: nat, f: real, success: bool)
    requires count > 0 && 0.0 <= f <= 1.0
    ensures var g := AfterPacket(f, count, success);
      && 0.0 <= g <= 1.0
      && (g == 0.0 <==> success && (count == 1 || f == 0.0))
      && (g == 1.0 <==> !success && (count == 1 || f == 1.0))
  {
    var w := StepShare(count);
    MixExtremes(w, f, ErrorValue(success));
  }

  /** The fraction is a fraction; it is 0 exactly when nothing failed and 1 exactly when everything did. */
  lemma {:induction false} FractionExtremes(h: seq<bool>)
    ensures 0.0 <= Fraction(h) <= 1.0
    ensures Fraction(h) == 0.0 <==> Errors(h) == 0
    ensures Fraction(h) == 1.0 <==> h != [] && Errors(h) == |h|
    ensures Errors(h) <= |h|
  {
    if h == [] {
    } else {
      var init, last := h[..|h| - 1], h[|h| - 1];
      FractionExtremes(init);
      StepExtremes(|h|, Fraction(init), last);
    }
  }

  /** For the first six packets the moving average is the plain error rate. */
  lemma {:induction false} PlainRateAtFirst(h: seq<bool>)
    requires 0 < |h| <= MOVING_AVERAGE_PERIOD
    ensures Fraction(h) == Errors(h) as real / |h| as real
  {
    var init, last := h[..|h| - 1], h[|h| - 1];
    var n := |h| as real;
    if |h| > 1 {
      PlainRateAtFirst(init);
      var k := Errors(init) as real;
      assert Fraction(init) * (n - 1.0) == k;
      assert Fraction(h) * n == Fraction(init) * n + (ErrorValue(last) - Fraction(init));
    }
  }

  lemma StepOnError(count: nat, f: real)
    requires count > 0
    ensures AfterPacket(f, count, false) == AfterPacket(f, count, true) + Weight(count - 1, count)
  {
    var w := StepShare(count);
  }

  lemma Distribute(a: real, x: real, y: real)
    ensures a * (x + y) == a * x + a * y
  {}

  lemma StepOnRaised(count: nat, f: real, i: nat, x: bool)
    requires i < count - 1
    ensures AfterPacket(f + Weight(i, count - 1), count, x) == AfterPacket(f, count, x) + Weight(i, count)
  {
    var w := StepShare(count);
    Distribute(1.0 - w, f, Weight(i, count - 1));
  }

  /** Turning one success into an error raises the fraction, by exactly that packet's weight. */
  lemma {:induction false} ErrorRaisesByWeight(h: seq<bool>, i: nat)
    requires i < |h| && h[i]
    ensures Fraction(h[i := false]) == Fraction(h) + Weight(i, |h|)
    decreases |h|
  {
    var n := |h|;
    var bad := h[i := false];
    if i == n - 1 {
      assert bad[..n - 1] == h[..n - 1];
      StepOnError(n, Fraction(h[..n - 1]));
    } else {
      assert bad[..n - 1] == h[..n - 1][i := false];
      ErrorRaisesByWeight(h[..n - 1], i);
      StepOnRaised(n, Fraction(h[..n - 1]), i, h[n - 1]);
    }
  }

  lemma StepMonotone(count: nat, f: real, g: real, better: bool, worse: bool)
    requires count > 0 && f <= g && (worse ==> better)
    ensures AfterPacket(f, count, better) <= AfterPacket(g, count, worse)
  {
    var x, y := ErrorValue(better), ErrorValue(worse);
    var m := Min(count, MOVING_AVERAGE_PERIOD);
    if
    case m == 1 => assert AfterPacket(f, count, better) == x;
    case m == 2 => assert AfterPacket(f, count, better) == f + (x - f) / 2.0;
    case m == 3 => assert AfterPacket(f, count, better) == f + (x - f) / 3.0;
    case m == 4 => assert AfterPacket(f, count, better) == f + (x - f) / 4.0;
    case m == 5 => assert AfterPacket(f, count, better) == f + (x - f) / 5.0;
    case m == 6 => assert AfterPacket(f, count, better) == f + (x - f) / 6.0;
  }

  /** Outcome by outcome, a history with more errors never has a lower fraction. */
  lemma {:induction false} FractionMonotone(better: seq<bool>, worse: seq<bool>)
    requires |better| == |worse|
    requires forall i :: 0 <= i < |worse| && worse[i] ==> better[i]
    ensures Fraction(better) <= Fraction(worse)
  {
    if better == [] {
    } else {
      var n := |better|;
      FractionMonotone(better[..n - 1], worse[..n - 1]);
      StepMonotone(n, Fraction(better[..n - 1]), Fraction(worse[..n - 1]), better[n - 1], worse[n - 1]);
    }
  }
}
