/** The polled quadrature decoder: one sample of the two encoder phases per
    call, a step counted on every edge of phase A, its direction read from
    phase B. */
module Encoder {

  /** A digital pin level as a pin read returns it: LOW is 0, HIGH is 1. */
  type Level = x: int | 0 <= x <= 1

  /** One poll of the encoder: the levels of phase A and phase B. */
  datatype Sample = Sample(a: Level, b: Level)

  /** The change one poll makes to the pending step counter, given the
      phase-A level remembered from the previous poll. */
  function StepDelta(last: Level, a: Level, b: Level): (d: int)
    ensures -1 <= d <= 1
    ensures d == 0 <==> a == last
    ensures d == 1 <==> a != last && b != a
  {
    if a != last then (if b != a then 1 else -1) else 0
  }

  /** The phase-A level remembered after polling `samples`, starting from
      `last`: every poll stores the level it read, changed or not. */
  function FinalA(last: Level, samples: seq<Sample>): (r: Level)
    ensures samples != [] ==> r == samples[|samples| - 1].a
    ensures samples == [] ==> r == last
    decreases |samples|
  {
    if samples == [] then last else FinalA(samples[0].a, samples[1..])
  }

  /** How many of the polls saw phase A change. */
  function Edges(last: Level, samples: seq<Sample>): (e: nat)
    ensures e <= |samples|
    decreases |samples|
  {
    if samples == [] then 0
    else (if samples[0].a != last then 1 else 0) + Edges(samples[0].a, samples[1..])
  }

  /** The net change to the step counter over a run of polls: only an
      edge of phase A moves it, and by exactly one. */
  function NetSteps(last: Level, samples: seq<Sample>): (n: int)
    ensures -(Edges(last, samples) as int) <= n <= Edges(last, samples)
    ensures n % 2 == Edges(last, samples) % 2
    decreases |samples|
  {
    if samples == [] then 0
    else StepDelta(last, samples[0].a, samples[0].b) + NetSteps(samples[0].a, samples[1..])
  }

  /** Polling two runs one after the other counts what each run counts on
      its own, the second starting from the level the first left behind. */
  lemma {:induction false} NetStepsAppend(last: Level, s: seq<Sample>, t: seq<Sample>)
    ensures NetSteps(last, s + t) == NetSteps(last, s) + NetSteps(FinalA(last, s), t)
    ensures FinalA(last, s + t) == FinalA(FinalA(last, s), t)
    decreases |s|
  {
    if s == [] {
      assert s + t == t;
    } else {
      assert (s + t)[0] == s[0];
      assert (s + t)[1..] == s[1..] + t;
      NetStepsAppend(s[0].a, s[1..], t);
      assert FinalA(s[0].a, s[1..]) == FinalA(last, s);
    }
  }

  /** The same run with phase B inverted: the rotation read backwards. */
  function Mirror(samples: seq<Sample>): (m: seq<Sample>)
    ensures |m| == |samples|
  {
    seq(|samples|, i requires 0 <= i < |samples| => Sample(samples[i].a, 1 - samples[i].b))
  }

  /** Swapping the sense of phase B reverses every counted step. */
  lemma {:induction false} NetStepsMirror(last: Level, s: seq<Sample>)
    ensures NetSteps(last, Mirror(s)) == -NetSteps(last, s)
    decreases |s|
  {
    if s != [] {
      assert Mirror(s)[0] == Sample(s[0].a, 1 - s[0].b);
      assert Mirror(s)[1..] == Mirror(s[1..]);
      NetStepsMirror(s[0].a, s[1..]);
    }
  }

  /** With phase B held at `b`, the count is a potential of phase A alone:
      1 when A differs from B, 0 when it equals it. */
  function HeldBPotential(a: Level, b: Level): int
  {
    if a != b then 1 else 0
  }

  /** Chatter on phase A while phase B stays put only ever moves the
      counter between two neighbouring values: the net count is fixed by
      where A starts and where it ends. */
  lemma {:induction false} HeldBTelescopes(last: Level, s: seq<Sample>, b: Level)
    requires forall i :: 0 <= i < |s| ==> s[i].b == b
    ensures NetSteps(last, s) == HeldBPotential(FinalA(last, s), b) - HeldBPotential(last, b)
    decreases |s|
  {
    if s != [] {
      assert s[0].b == b;
      HeldBTelescopes(s[0].a, s[1..], b);
      assert FinalA(s[0].a, s[1..]) == FinalA(last, s);
    }
  }

  /** A bounce of any length on phase A, with B fixed, that ends at the
      level it started from leaves the counter where it was. */
  lemma BounceHasNoNetEffect(last: Level, s: seq<Sample>, b: Level)
    requires forall i :: 0 <= i < |s| ==> s[i].b == b
    requires FinalA(last, s) == last
    ensures NetSteps(last, s) == 0
  {
    HeldBTelescopes(last, s, b);
  }

  /** The shortest bounce: A toggles away and straight back, B fixed. */
  lemma ToggleAndBackCancels(last: Level, b: Level)
    ensures NetSteps(last, [Sample(1 - last, b), Sample(last, b)]) == 0
  {
    BounceHasNoNetEffect(last, [Sample(1 - last, b), Sample(last, b)], b);
  }

  /** One full quadrature cycle with phase A leading, from A = B = LOW. */
  const Clockwise: seq<Sample> := [Sample(1, 0), Sample(1, 1), Sample(0, 1), Sample(0, 0)]

  /** `k` copies of `s` polled back to back. */
  function Repeat(k: nat, s: seq<Sample>): (r: seq<Sample>)
    ensures |r| == k * |s|
  {
    if k == 0 then [] else s + Repeat(k - 1, s)
  }

  /** Each full cycle with A leading counts +2 (both edges of A), and the
      decoder ends where it began. */
  lemma {:induction false} ClockwiseTurns(k: nat)
    ensures NetSteps(0, Repeat(k, Clockwise)) == 2 * k
    ensures FinalA(0, Repeat(k, Clockwise)) == 0
  {
    if k > 0 {
      ClockwiseTurns(k - 1);
      NetStepsAppend(0, Clockwise, Repeat(k - 1, Clockwise));
      assert NetSteps(0, Clockwise) == 2;
    }
  }

  /** The same cycles with phase B leading count -2 each. */
  lemma CounterClockwiseTurns(k: nat)
    ensures NetSteps(0, Mirror(Repeat(k, Clockwise))) == -2 * k
  {
    ClockwiseTurns(k);
    NetStepsMirror(0, Repeat(k, Clockwise));
  }
}
