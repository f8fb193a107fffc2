/** The 32-bit millisecond counter and the periodic gate at the top of the
    main loop: the gate fires when the unsigned difference between the
    counter and the stored timestamp exceeds 25 ms. */
module Clock {

  /** The counter wraps after 2^32 milliseconds (about 49.7 days). */
  const WRAP: int := 0x1_0000_0000

  /** A reading of the 32-bit unsigned millisecond counter. */
  type Millis = x: int | 0 <= x < 0x1_0000_0000

  /** The gate fires only when strictly more than this many milliseconds
      have passed. */
  const GATE_INTERVAL: int := 25

  /** The counter reading at absolute time `t`, in milliseconds since the
      counter last read zero from power-up. */
  function Reading(t: nat): (m: Millis)
    ensures (t - m) % WRAP == 0
  {
    t % WRAP
  }

  /** The counter reading `d` milliseconds after the reading `last`. */
  function Advance(last: Millis, d: nat): (m: Millis)
  {
    (last + d) % WRAP
  }

  /** The unsigned 32-bit difference `now - last`: the one number of
      milliseconds below 2^32 that, added to `last` on the wrapping
      counter, gives `now`. */
  function Elapsed(now: Millis, last: Millis): (r: Millis)
    ensures Advance(last, r) == now
  {
    (now - last) % WRAP
  }

  /** The difference is the only such number: any count of milliseconds
      below 2^32 that carries `last` to `now` is `Elapsed(now, last)`. */
  lemma ElapsedUnique(now: Millis, last: Millis, d: nat)
    requires d < WRAP && Advance(last, d) == now
    ensures d == Elapsed(now, last)
  {
    if last + d < WRAP {
      assert (last + d) % WRAP == last + d;
    } else {
      assert (last + d) % WRAP == last + d - WRAP;
    }
  }

  /** Whether the loop's gate fires on a poll that reads `now`, given the
      timestamp `last` it stored when it last fired. */
  predicate GateFires(now: Millis, last: Millis): (fires: bool)
    ensures fires <==> forall d: nat :: d <= GATE_INTERVAL ==> Advance(last, d) != now
  {
    ElapsedUniqueAll(now, last);
    Elapsed(now, last) > GATE_INTERVAL
  }

  /** `ElapsedUnique` for every candidate count at once. */
  lemma ElapsedUniqueAll(now: Millis, last: Millis)
    ensures forall d: nat :: d < WRAP && Advance(last, d) == now ==> d == Elapsed(now, last)
  {
    forall d: nat | d < WRAP && Advance(last, d) == now
      ensures d == Elapsed(now, last)
    {
      ElapsedUnique(now, last, d);
    }
  }

  /** Wraparound safety: as long as fewer than 2^32 ms separate the two
      readings, the unsigned difference is the true elapsed time, even
      when the counter wrapped in between. */
  lemma ElapsedIsTrueTime(lastTime: nat, nowTime: nat)
    requires lastTime <= nowTime < lastTime + WRAP
    ensures Elapsed(Reading(nowTime), Reading(lastTime)) == nowTime - lastTime
  {
  }

  /** The gate fires on a poll exactly when more than 25 ms of true time
      have passed since the timestamp was stored, across any wrap of the
      counter, provided the poll comes less than 2^32 ms after the stored
      timestamp. */
  lemma GateFiresIffIntervalPassed(lastTime: nat, nowTime: nat)
    requires lastTime <= nowTime < lastTime + WRAP
    ensures GateFires(Reading(nowTime), Reading(lastTime)) <==> nowTime - lastTime > GATE_INTERVAL
  {
    ElapsedIsTrueTime(lastTime, nowTime);
  }

  /** Wraparound safety at the loop's polling rate. Suppose the last poll
      at `prevTime` found the gate shut, at most 25 ms after the timestamp
      `lastTime`. If the next poll comes less than 2^32 - 25 ms later and
      more than 25 ms after the timestamp, it fires. So, without a pause of
      nearly 2^32 ms between two polls, the gate never aliases. */
  lemma FrequentPollingFires(lastTime: nat, prevTime: nat, nowTime: nat)
    requires lastTime <= prevTime <= lastTime + GATE_INTERVAL
    requires lastTime + GATE_INTERVAL < nowTime
    requires nowTime - prevTime < WRAP - GATE_INTERVAL
    ensures GateFires(Reading(nowTime), Reading(lastTime))
  {
    GateFiresIffIntervalPassed(lastTime, nowTime);
  }

  /** The limit of the modular difference: a poll that comes a whole
      counter period (plus at most 25 ms) after the stored timestamp looks
      too recent, and the gate stays shut. */
  lemma GateAliasesAfterFullWrap(lastTime: nat, d: nat)
    requires d <= GATE_INTERVAL
    ensures !GateFires(Reading(lastTime + WRAP + d), Reading(lastTime))
  {
    ReadingPeriodic(lastTime + d);
    ElapsedIsTrueTime(lastTime, lastTime + d);
  }

  /** The counter reads the same one whole period later. */
  lemma ReadingPeriodic(t: nat)
    ensures Reading(t + WRAP) == Reading(t)
  {
  }
}
