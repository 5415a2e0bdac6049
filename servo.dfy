/** The servo driver of RFID_PROJECT: TIM2 runs with a period of 1999
    counts, channel 1 starts with a compare pulse of 0, and the two sweeps
    step the compare register CCR1 up and down by 20.

    The timer becomes a class whose `ccr1` is the compare register and whose
    `writes` records every value the program stores into it, oldest first.
    Delay_Ms between two writes only waits and is left out. */
module Servo {
  /** TIM_Period, the auto-reload value of TIM2. */
  const Period: int := 1999
  /** The distance between two consecutive compare values of a sweep. */
  const Step: int := 20

  /** The values `for (i = from; i <= 1999; i += 20)` stores, in order. */
  function UpFrom(from: int): (s: seq<int>)
    decreases Period + 1 - from
  {
    if from <= Period then [from] + UpFrom(from + Step) else []
  }

  /** The values `for (i = from; i >= 0; i -= 20)` stores, in order. */
  function DownFrom(from: int): (s: seq<int>)
    decreases from + 1
  {
    if from >= 0 then [from] + DownFrom(from - Step) else []
  }

  /** An upward sweep from `from` is the arithmetic progression from, from +
      20, ... up to the last value not above the period. */
  lemma {:induction false} UpFromShape(from: int)
    requires 0 <= from <= Period
    ensures |UpFrom(from)| == (Period - from) / Step + 1
    ensures forall k :: 0 <= k < |UpFrom(from)| ==> UpFrom(from)[k] == from + Step * k
    decreases Period + 1 - from
  {
    if from + Step <= Period {
      UpFromShape(from + Step);
    } else {
      assert UpFrom(from + Step) == [];
    }
  }

  /** A downward sweep from `from` is the progression from, from - 20, ...
      down to the last value not below zero. */
  lemma {:induction false} DownFromShape(from: int)
    requires 0 <= from
    ensures |DownFrom(from)| == from / Step + 1
    ensures forall k :: 0 <= k < |DownFrom(from)| ==> DownFrom(from)[k] == from - Step * k
    decreases from + 1
  {
    if from - Step >= 0 {
      DownFromShape(from - Step);
    } else {
      assert DownFrom(from - Step) == [];
    }
  }

  /** ServoOn's sweep: exactly 100 values 0, 20, ..., 1980, strictly
      increasing by 20, all within [0, Period], ending at 1980. */
  lemma UpSweep()
    ensures |UpFrom(0)| == 100
    ensures forall k :: 0 <= k < 100 ==> UpFrom(0)[k] == Step * k
    ensures forall k :: 0 <= k < 100 ==> 0 <= UpFrom(0)[k] <= Period
    ensures forall k :: 0 < k < 100 ==> UpFrom(0)[k] == UpFrom(0)[k - 1] + Step
    ensures UpFrom(0)[99] == 1980
  {
    UpFromShape(0);
  }

  /** ServoOff's sweep: exactly 100 values 1999, 1979, ..., 19, strictly
      decreasing by 20, all within [19, Period] and so never 0, ending at
      19. */
  lemma DownSweep()
    ensures |DownFrom(Period)| == 100
    ensures forall k :: 0 <= k < 100 ==> DownFrom(Period)[k] == Period - Step * k
    ensures forall k :: 0 <= k < 100 ==> 19 <= DownFrom(Period)[k] <= Period
    ensures forall k :: 0 < k < 100 ==> DownFrom(Period)[k] == DownFrom(Period)[k - 1] - Step
    ensures DownFrom(Period)[99] == 19
  {
    DownFromShape(Period);
  }

  /** Every value in `s` is a compare value the period admits. */
  ghost predicate WithinPeriod(s: seq<int>)
  {
    forall k :: 0 <= k < |s| ==> 0 <= s[k] <= Period
  }

  class Tim2 {
    /** TIM2->CCR1, the channel-1 compare value. */
    var ccr1: int
    /** Every value stored into CCR1, oldest first. */
    var writes: seq<int>

    /** The duty never exceeds the period: every compare value ever stored
        lies in [0, Period], and CCR1 holds the last of them. */
    ghost predicate Valid()
      reads this
    {
      writes != [] && WithinPeriod(writes) && ccr1 == writes[|writes| - 1]
    }

    /** PWM_Init: the timer starts with TIM_Pulse = 0 as its first compare
        value. */
    constructor PwmInit()
      ensures Valid() && ccr1 == 0 && writes == [0]
    {
      ccr1 := 0;
      writes := [0];
    }

    /** ServoOn: the upward sweep 0, 20, ..., 1980 is appended to the
        writes, and CCR1 is left at 1980. */
    method ServoOn()
      requires Valid()
      modifies this
      ensures Valid() && writes == old(writes) + UpFrom(0) && ccr1 == 1980
    {
      UpSweep();
      var i := 0;
      while i <= Period
        invariant 0 <= i <= Period + Step && i % Step == 0
        invariant Valid() && writes + UpFrom(i) == old(writes) + UpFrom(0)
        invariant i > 0 ==> ccr1 == i - Step
        decreases Period + 1 - i
      {
        ghost var before := writes;
        ccr1 := i;
        writes := writes + [i];
        assert before + UpFrom(i) == writes + UpFrom(i + Step);
        i := i + Step;
      }
      assert writes == old(writes) + UpFrom(0);
    }

    /** ServoOff: the downward sweep 1999, 1979, ..., 19 is appended to the
        writes, and CCR1 is left at 19. */
    method ServoOff()
      requires Valid()
      modifies this
      ensures Valid() && writes == old(writes) + DownFrom(Period) && ccr1 == 19
    {
      DownSweep();
      var i := Period;
      while i >= 0
        invariant -Step <= i <= Period && (Period - i) % Step == 0
        invariant Valid() && writes + DownFrom(i) == old(writes) + DownFrom(Period)
        invariant i < Period ==> ccr1 == i + Step
        decreases i + 1
      {
        ghost var before := writes;
        ccr1 := i;
        writes := writes + [i];
        assert before + DownFrom(i) == writes + DownFrom(i - Step);
        i := i - Step;
      }
      assert writes == old(writes) + DownFrom(Period);
    }
  }
}
