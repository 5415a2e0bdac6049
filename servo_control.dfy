/** The Servo_control test program: after PWM_Init, its main loop sweeps
    TIM2's channel-1 compare value up from 0 to 1980 and back down from 1999
    to 19, for ever.  Its PWM_Init and its two loops are the same code as
    RFID_PROJECT's PWM_Init, ServoOn and ServoOff, and are modelled by
    them. */
module ServoControl {
  import opened Servo

  /** The writes one iteration of the main loop makes: the upward sweep,
      then the downward one. */
  function CycleWrites(): (s: seq<int>)
  {
    UpFrom(0) + DownFrom(Period)
  }

  /** The writes of `n` iterations of a loop whose every iteration writes
      `c`, in order. */
  function Repeat(c: seq<int>, n: nat): (s: seq<int>)
  {
    if n == 0 then [] else Repeat(c, n - 1) + c
  }

  /** One iteration writes 200 values: 0, 20, ..., 1980 and then 1999,
      1979, ..., 19, every one of them within [0, Period]. */
  lemma CycleShape()
    ensures |CycleWrites()| == 200
    ensures forall k :: 0 <= k < 100 ==> CycleWrites()[k] == Step * k
    ensures forall k :: 100 <= k < 200 ==> CycleWrites()[k] == Period - Step * (k - 100)
    ensures WithinPeriod(CycleWrites())
  {
    UpSweep();
    DownSweep();
  }

  /** Repeating a run of compare values within the period any number of
      times stays within the period. */
  lemma {:induction false} RepeatWithinPeriod(c: seq<int>, n: nat)
    requires WithinPeriod(c)
    ensures |Repeat(c, n)| == n * |c|
    ensures WithinPeriod(Repeat(c, n))
  {
    if n > 0 {
      RepeatWithinPeriod(c, n - 1);
    }
  }

  /** `n` iterations of the main loop write 200 n values, all within
      [0, Period]. */
  lemma CyclesWithinPeriod(n: nat)
    ensures |Repeat(CycleWrites(), n)| == 200 * n
    ensures WithinPeriod(Repeat(CycleWrites(), n))
  {
    CycleShape();
    RepeatWithinPeriod(CycleWrites(), n);
  }

  /** The writes after one more iteration. */
  lemma RepeatStep(before: seq<int>, c: seq<int>, k: nat)
    requires before == [0] + Repeat(c, k)
    ensures before + c == [0] + Repeat(c, k + 1)
  {
  }

  /** One iteration of the main loop. */
  method Cycle(t: Tim2)
    requires t.Valid()
    modifies t
    ensures t.Valid() && t.writes == old(t.writes) + CycleWrites() && t.ccr1 == 19
  {
    t.ServoOn();
    t.ServoOff();
  }

  /** main, cut off after `n` iterations of its endless loop: PWM_Init
      stores the initial pulse 0, then each iteration appends its two
      sweeps. */
  method Run(n: nat) returns (t: Tim2)
    ensures t.Valid() && t.writes == [0] + Repeat(CycleWrites(), n)
    ensures n > 0 ==> t.ccr1 == 19
  {
    t := new Tim2.PwmInit();
    var k := 0;
    while k < n
      invariant 0 <= k <= n && t.Valid() && t.writes == [0] + Repeat(CycleWrites(), k)
      invariant k > 0 ==> t.ccr1 == 19
    {
      ghost var before := t.writes;
      Cycle(t);
      RepeatStep(before, CycleWrites(), k);
      k := k + 1;
    }
  }
}
