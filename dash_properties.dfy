/**
 Properties of the dash state machine over single calls and over sequences of
 calls: the redundant timestamp guard, per-direction timers, holding never
 re-triggering a press, direct reversals, and double-tap timing.
 */
module DashProperties {
  import opened DashTiming

  /**
   On a fresh press the guard on the previous value always holds in a valid
   state (a fresh press means the previous value was zero), so the pressed
   direction's timestamp is always refreshed, dash or not.
   */
  lemma FreshPressRefreshesTimer(s: DashState, value: real, now: int)
    requires Valid(s) && IsNewPress(s, value)
    ensures s.lastMovementValue == 0.0
    ensures value > 0.0 ==> Step(s, value, now).lastRightPress == now
    ensures value < 0.0 ==> Step(s, value, now).lastLeftPress == now
  {
  }

  /** The outcome of a right press does not depend on the left timestamp. */
  lemma RightPressIgnoresLeftTimer(s: DashState, otherLeft: int, value: real, now: int)
    requires value > 0.0
    ensures var r, r' := Step(s, value, now), Step(s.(lastLeftPress := otherLeft), value, now);
      r.maxWalkSpeed == r'.maxWalkSpeed && r.lastRightPress == r'.lastRightPress
  {
  }

  /** The outcome of a left press does not depend on the right timestamp. */
  lemma LeftPressIgnoresRightTimer(s: DashState, otherRight: int, value: real, now: int)
    requires value < 0.0
    ensures var r, r' := Step(s, value, now), Step(s.(lastRightPress := otherRight), value, now);
      r.maxWalkSpeed == r'.maxWalkSpeed && r.lastLeftPress == r'.lastLeftPress
  {
  }

  /**
   A direct reversal from one direction to the other is not a fresh press:
   the held flag is still set, so speed and both timestamps stay as the
   first press left them.
   */
  lemma DirectReversalIsNotAPress(s: DashState, v1: real, t1: int, v2: real, t2: int)
    requires v1 != 0.0 && v2 != 0.0 && (v1 > 0.0 <==> v2 < 0.0)
    ensures var s1 := Step(s, v1, t1);
      var s2 := Step(s1, v2, t2);
      !IsNewPress(s1, v2)
      && s2.maxWalkSpeed == s1.maxWalkSpeed
      && s2.lastLeftPress == s1.lastLeftPress
      && s2.lastRightPress == s1.lastRightPress
  {
  }

  /**
   The timestamps start at construction time, so the first press in either
   direction dashes exactly when it comes less than the leeway after
   construction.
   */
  lemma FirstPressAfterConstruction(created: int, value: real, now: int)
    requires value != 0.0
    ensures var r := Step(Initial(created), value, now);
      && (r.maxWalkSpeed == DefaultMaxDashSpeed <==> Elapsed(now, created) < DashInputLeeway)
      && (value > 0.0 ==> r.lastRightPress == now && r.lastLeftPress == created)
      && (value < 0.0 ==> r.lastLeftPress == now && r.lastRightPress == created)
  {
  }

  /** Running `a` and then `b` is running `a + b`. */
  lemma {:induction false} RunAppend(s: DashState, a: seq<Sample>, b: seq<Sample>)
    ensures Run(s, a + b) == Run(Run(s, a), b)
    decreases |a|
  {
    if a == [] {
      assert a + b == b;
    } else {
      assert (a + b)[0] == a[0];
      assert (a + b)[1..] == a[1..] + b;
      RunAppend(Step(s, a[0].value, a[0].now), a[1..], b);
    }
  }

  /**
   While the axis stays away from neutral, however long and even through
   direct reversals, no call is a fresh press: the speed mode and both
   timestamps are those of the state the hold started from.
   */
  lemma {:induction false} HeldNeverRetriggers(s: DashState, samples: seq<Sample>)
    requires s.movementHeld
    requires forall i :: 0 <= i < |samples| ==> samples[i].value != 0.0
    ensures var r := Run(s, samples);
      && r.movementHeld
      && r.maxWalkSpeed == s.maxWalkSpeed
      && r.lastLeftPress == s.lastLeftPress
      && r.lastRightPress == s.lastRightPress
    decreases |samples|
  {
    if samples != [] {
      HeldNeverRetriggers(Step(s, samples[0].value, samples[0].now), samples[1..]);
    }
  }

  /** Calls that never push right leave the right timestamp alone. */
  lemma {:induction false} RunKeepsRightTimer(s: DashState, samples: seq<Sample>)
    requires forall i :: 0 <= i < |samples| ==> samples[i].value <= 0.0
    ensures Run(s, samples).lastRightPress == s.lastRightPress
    decreases |samples|
  {
    if samples != [] {
      RunKeepsRightTimer(Step(s, samples[0].value, samples[0].now), samples[1..]);
    }
  }

  /** Calls that never push left leave the left timestamp alone. */
  lemma {:induction false} RunKeepsLeftTimer(s: DashState, samples: seq<Sample>)
    requires forall i :: 0 <= i < |samples| ==> samples[i].value >= 0.0
    ensures Run(s, samples).lastLeftPress == s.lastLeftPress
    decreases |samples|
  {
    if samples != [] {
      RunKeepsLeftTimer(Step(s, samples[0].value, samples[0].now), samples[1..]);
    }
  }

  /**
   Timers are per direction: after any calls that never push right and end
   at neutral, a right press is judged against the right timestamp the
   state had before them, no matter which left presses happened meanwhile.
   */
  lemma RightPressAfterOtherInput(s: DashState, gap: seq<Sample>, value: real, now: int)
    requires gap != [] && gap[|gap| - 1].value == 0.0
    requires forall i :: 0 <= i < |gap| ==> gap[i].value <= 0.0
    requires value > 0.0
    ensures var r := Step(Run(s, gap), value, now);
      r.maxWalkSpeed == DefaultMaxDashSpeed <==> Elapsed(now, s.lastRightPress) < DashInputLeeway
  {
    RunKeepsRightTimer(s, gap);
  }

  /** The mirror of RightPressAfterOtherInput for a left press. */
  lemma LeftPressAfterOtherInput(s: DashState, gap: seq<Sample>, value: real, now: int)
    requires gap != [] && gap[|gap| - 1].value == 0.0
    requires forall i :: 0 <= i < |gap| ==> gap[i].value >= 0.0
    requires value < 0.0
    ensures var r := Step(Run(s, gap), value, now);
      r.maxWalkSpeed == DefaultMaxDashSpeed <==> Elapsed(now, s.lastLeftPress) < DashInputLeeway
  {
    RunKeepsLeftTimer(s, gap);
  }

  /**
   Double tap to the right: a fresh right press at `t1`, held for `hold`,
   then released through calls that never push right and end at neutral,
   then a right press at `t2`. The second press dashes exactly when it comes
   less than the leeway after `t1` (the neutral dwell does not reset the
   clock), and it refreshes the right timestamp.
   */
  lemma DoubleTapRight(s: DashState, v1: real, t1: int, hold: seq<Sample>, gap: seq<Sample>, v2: real, t2: int)
    requires Valid(s) && !s.movementHeld
    requires v1 > 0.0 && v2 > 0.0
    requires forall i :: 0 <= i < |hold| ==> hold[i].value > 0.0
    requires gap != [] && gap[|gap| - 1].value == 0.0
    requires forall i :: 0 <= i < |gap| ==> gap[i].value <= 0.0
    ensures var r := Step(Run(Step(s, v1, t1), hold + gap), v2, t2);
      && r.maxWalkSpeed == (if Elapsed(t2, t1) < DashInputLeeway then DefaultMaxDashSpeed else DefaultMaxWalkSpeed)
      && r.lastRightPress == t2
  {
    var s1 := Step(s, v1, t1);
    FreshPressRefreshesTimer(s, v1, t1);
    RunAppend(s1, hold, gap);
    HeldNeverRetriggers(s1, hold);
    var s2 := Run(s1, hold);
    RunKeepsRightTimer(s2, gap);
    var s3 := Run(s2, gap);
    assert s3.lastRightPress == t1 && !s3.movementHeld;
    FreshPressRefreshesTimer(s3, v2, t2);
  }

  /** The mirror of DoubleTapRight for the left direction. */
  lemma DoubleTapLeft(s: DashState, v1: real, t1: int, hold: seq<Sample>, gap: seq<Sample>, v2: real, t2: int)
    requires Valid(s) && !s.movementHeld
    requires v1 < 0.0 && v2 < 0.0
    requires forall i :: 0 <= i < |hold| ==> hold[i].value < 0.0
    requires gap != [] && gap[|gap| - 1].value == 0.0
    requires forall i :: 0 <= i < |gap| ==> gap[i].value >= 0.0
    ensures var r := Step(Run(Step(s, v1, t1), hold + gap), v2, t2);
      && r.maxWalkSpeed == (if Elapsed(t2, t1) < DashInputLeeway then DefaultMaxDashSpeed else DefaultMaxWalkSpeed)
      && r.lastLeftPress == t2
  {
    var s1 := Step(s, v1, t1);
    FreshPressRefreshesTimer(s, v1, t1);
    RunAppend(s1, hold, gap);
    HeldNeverRetriggers(s1, hold);
    var s2 := Run(s1, hold);
    RunKeepsLeftTimer(s2, gap);
    var s3 := Run(s2, gap);
    assert s3.lastLeftPress == t1 && !s3.movementHeld;
    FreshPressRefreshesTimer(s3, v2, t2);
  }

  /**
   A concrete session: created at second 0, a right press at second 10 is
   slow, a release and a right press at second 11 dashes, a release and a
   right press at second 14 is slow again.
   */
  lemma DoubleTapSession()
    ensures var s1 := Run(Initial(0), [Sample(1.0, 10), Sample(0.0, 10)]);
      var s2 := Run(s1, [Sample(1.0, 11), Sample(0.0, 11)]);
      var s3 := Step(s2, 1.0, 14);
      && s1.maxWalkSpeed == DefaultMaxWalkSpeed
      && s2.maxWalkSpeed == DefaultMaxDashSpeed
      && s3.maxWalkSpeed == DefaultMaxWalkSpeed
  {
  }
}
