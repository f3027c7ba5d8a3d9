/** The timing rule of the xrWaitFrame thunk, on values: what one successful
    wait does to the latched times, and what a whole run of them leaves behind. */
module FrameTiming {
  import opened OpenXR

  /** The latched timing statics: the previous predicted display time, the
      last frame period and the last predicted display time, all in
      nanoseconds. */
  datatype Latch = Latch(prevNs: XrTime, lastPeriodNs: int, lastTimeNs: XrTime)

  /** The values the statics hold at load time. */
  const Initial: Latch := Latch(0, 0, 0)

  /** True when capturing t after prev yields a new period: there is a
      previous sample (prev is not the sentinel 0) and time moved forward. */
  predicate Advances(prev: XrTime, t: XrTime) {
    prev != 0 && t as int - prev > 0
  }

  /** One latch of predicted display time t. The period is replaced by the
      delta only when there is a previous sample and the delta is positive;
      a first sample, a repeat or a regression keeps the old period. */
  function Capture(l: Latch, t: XrTime): (l': Latch)
    ensures l'.prevNs == t && l'.lastTimeNs == t
    ensures Advances(l.prevNs, t) ==> l'.lastPeriodNs == t as int - l.prevNs
    ensures !Advances(l.prevNs, t) ==> l'.lastPeriodNs == l.lastPeriodNs
    ensures l.lastPeriodNs >= 0 ==> l'.lastPeriodNs >= 0
  {
    var period :=
      if l.prevNs != 0 then
        var delta := t as int - l.prevNs;
        if delta > 0 then delta else l.lastPeriodNs
      else l.lastPeriodNs;
    Latch(t, period, t)
  }

  /** The latch after capturing the times ts in order, from load time. */
  function Replay(ts: seq<XrTime>): (l: Latch)
    ensures l.prevNs == l.lastTimeNs
    ensures l.lastPeriodNs >= 0
    ensures ts == [] ==> l == Initial
    ensures ts != [] ==> l.lastTimeNs == ts[|ts| - 1]
  {
    if ts == [] then Initial
    else Capture(Replay(ts[..|ts| - 1]), ts[|ts| - 1])
  }

  /** Step j of the run ts (1 <= j) produced a new period. */
  predicate AdvancesAt(ts: seq<XrTime>, j: int)
    requires 1 <= j < |ts|
  {
    Advances(ts[j - 1], ts[j])
  }

  /** No step at or after j produced a new period. */
  predicate QuietFrom(ts: seq<XrTime>, j: int) {
    forall k :: j <= k < |ts| && 1 <= k ==> !AdvancesAt(ts, k)
  }

  /** Capturing one more time extends the replay by that capture. */
  lemma ReplaySnoc(ts: seq<XrTime>, t: XrTime)
    ensures Replay(ts + [t]) == Capture(Replay(ts), t)
  {
    assert (ts + [t])[..|ts + [t]| - 1] == ts;
  }

  /** The capture of the last time of a run of two or more follows the
      capture of the one before it. */
  lemma ReplayLast(ts: seq<XrTime>)
    requires |ts| >= 2
    ensures Replay(ts) == Capture(Replay(ts[..|ts| - 1]), ts[|ts| - 1])
    ensures Replay(ts[..|ts| - 1]).prevNs == ts[|ts| - 2]
  {
    assert ts[..|ts| - 1][..|ts| - 2] == ts[..|ts| - 2];
  }

  /** A run in which no step advanced leaves the period at 0. */
  lemma {:induction false} QuietPeriod(ts: seq<XrTime>)
    requires QuietFrom(ts, 1)
    ensures Replay(ts).lastPeriodNs == 0
  {
    if |ts| >= 2 {
      var init := ts[..|ts| - 1];
      ReplayLast(ts);
      assert !AdvancesAt(ts, |ts| - 1);
      assert QuietFrom(init, 1) by {
        forall k | 1 <= k < |init| ensures !AdvancesAt(init, k) {
          assert !AdvancesAt(ts, k);
        }
      }
      QuietPeriod(init);
    }
  }

  /** A run whose last advancing step is j leaves the period at that step's
      delta. */
  lemma {:induction false} LastAdvancePeriod(ts: seq<XrTime>, j: int)
    requires 1 <= j < |ts| && AdvancesAt(ts, j) && QuietFrom(ts, j + 1)
    ensures Replay(ts).lastPeriodNs == ts[j] as int - ts[j - 1]
  {
    var init := ts[..|ts| - 1];
    ReplayLast(ts);
    if j < |ts| - 1 {
      assert !AdvancesAt(ts, |ts| - 1);
      assert AdvancesAt(init, j);
      assert QuietFrom(init, j + 1) by {
        forall k | j + 1 <= k < |init| ensures !AdvancesAt(init, k) {
          assert !AdvancesAt(ts, k);
        }
      }
      LastAdvancePeriod(init, j);
    }
  }

  /** The period left by a run is the delta of its last advancing step, or 0
      when no step advanced. This characterises the latched period without
      reference to the step-by-step update. */
  lemma ReplayPeriod(ts: seq<XrTime>)
    ensures QuietFrom(ts, 1) ==> Replay(ts).lastPeriodNs == 0
    ensures forall j :: 1 <= j < |ts| && AdvancesAt(ts, j) && QuietFrom(ts, j + 1) ==>
              Replay(ts).lastPeriodNs == ts[j] as int - ts[j - 1]
  {
    if QuietFrom(ts, 1) {
      QuietPeriod(ts);
    }
    forall j | 1 <= j < |ts| && AdvancesAt(ts, j) && QuietFrom(ts, j + 1)
      ensures Replay(ts).lastPeriodNs == ts[j] as int - ts[j - 1]
    {
      LastAdvancePeriod(ts, j);
    }
  }

  /** When the second-to-last sample is nonzero and the last one is later
      than it, the latched period is the last frame-to-frame delta; otherwise
      it is the period the run had one sample earlier. */
  lemma SteadyPeriod(ts: seq<XrTime>)
    requires |ts| >= 2
    ensures ts[|ts| - 2] != 0 && ts[|ts| - 2] < ts[|ts| - 1] ==>
              Replay(ts).lastPeriodNs == ts[|ts| - 1] as int - ts[|ts| - 2]
    ensures !(ts[|ts| - 2] != 0 && ts[|ts| - 2] < ts[|ts| - 1]) ==>
              Replay(ts).lastPeriodNs == Replay(ts[..|ts| - 1]).lastPeriodNs
  {
    ReplayLast(ts);
  }

  /** A regression or a repeated time keeps the period of the run before it. */
  lemma RegressionKeepsPeriod(ts: seq<XrTime>, t: XrTime)
    requires ts != [] && t <= ts[|ts| - 1]
    ensures Replay(ts + [t]).lastPeriodNs == Replay(ts).lastPeriodNs
    ensures Replay(ts + [t]).lastTimeNs == t
  {
    ReplaySnoc(ts, t);
  }

  /** A worked run in nanoseconds: 0, 11.1 ms, 22.2 ms, then back to 11.1 ms.
      The first sample is the sentinel 0, so the second yields no period; the
      third yields 11.1 ms, and the regression keeps it. */
  lemma RegressionScenario()
    ensures var ts: seq<XrTime> := [0, 11_100_000, 22_200_000, 11_100_000];
      && Replay(ts[..1]) == Latch(0, 0, 0)
      && Replay(ts[..2]) == Latch(11_100_000, 0, 11_100_000)
      && Replay(ts[..3]) == Latch(22_200_000, 11_100_000, 22_200_000)
      && Replay(ts) == Latch(11_100_000, 11_100_000, 11_100_000)
  {
    var ts: seq<XrTime> := [0, 11_100_000, 22_200_000, 11_100_000];
    assert ts[..1][..0] == [];
    assert ts[..2][..1] == ts[..1];
    assert ts[..3][..2] == ts[..2];
    assert ts[..3] == ts[..|ts| - 1];
  }
}
