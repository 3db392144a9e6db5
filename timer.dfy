/** The periodic timer of the utility header: it raises a job bit in a shared
    bitmask at most once per interval.  The consumer clearing that bit is the
    acknowledgement; the next elapsed tick after the acknowledgement only rebases
    the interval, and a later one fires again.

    `unsigned long` is 32 bits on both targets, so times and durations range over
    [0, 2^32) and `time - beginTime` is the wrap-around difference.  The
    shared `int` bitmask is modelled by the set of positions of its one bits:
    `jobs & mask != 0` is a non-empty intersection and `jobs |= mask` a union. */
module Timers {

  const TwoTo32: int := 0x1_0000_0000

  /** An `unsigned long`. */
  type ULong = x: int | 0 <= x < TwoTo32

  /** Unsigned subtraction: the difference modulo 2^32, so a timestamp that has wrapped
      past zero still measures the right distance from an earlier one. */
  function WrapSub(a: ULong, b: ULong): (d: ULong)
    ensures d == (a - b) % TwoTo32
    ensures a >= b ==> d == a - b
  {
    if a >= b then a - b else a - b + TwoTo32
  }

  /** A bit position of the `int` job bitmask. */
  newtype Bit = b: int | 0 <= b < 32

  /** A bitmask, as the set of the positions of its one bits. */
  type Mask = set<Bit>

  /** The shared job bitmask that every timer holds a reference to. */
  class JobFlags {
    var bits: Mask

    constructor (bits: Mask)
      ensures this.bits == bits
    {
      this.bits := bits;
    }
  }

  /** What a timer is built with: its interval and the job bit(s) it owns. */
  datatype TimerConfig = TimerConfig(duration: ULong, jobOnComplete: Mask)

  /** The timer's mutable fields. */
  datatype TimerState = TimerState(beginTime: ULong, alreadyTriggered: bool)

  /** The effect of one tick: the timer's new fields, the new bitmask, and the value returned. */
  datatype Outcome = Outcome(state: TimerState, jobs: Mask, elapsed: bool)

  /** Has a whole interval passed since `beginTime`?  The difference wraps modulo 2^32. */
  predicate Elapsed(cfg: TimerConfig, s: TimerState, time: ULong) {
    !(WrapSub(time, s.beginTime) < cfg.duration)
  }

  /** Is a bit the timer owns still set, i.e. the last firing not yet acknowledged? */
  predicate Pending(cfg: TimerConfig, jobs: Mask) {
    jobs * cfg.jobOnComplete != {}
  }

  /** The state `reset(time)` leaves: rebased to `time` and disarmed. */
  function ResetState(time: ULong): (s: TimerState)
    ensures s.beginTime == time && !s.alreadyTriggered
  {
    TimerState(time, false)
  }

  /** One call of `tick(time)`: the three ordered guards, then the set stage. */
  function Step(cfg: TimerConfig, s: TimerState, jobs: Mask, time: ULong): (r: Outcome)
    ensures r.elapsed <==> Elapsed(cfg, s, time)
    ensures !r.elapsed ==> r.state == s && r.jobs == jobs
    ensures jobs <= r.jobs
    ensures r.jobs - cfg.jobOnComplete == jobs - cfg.jobOnComplete
    ensures r.state.beginTime == s.beginTime || r.state.beginTime == time
  {
    if !Elapsed(cfg, s, time) then Outcome(s, jobs, false)
    else if Pending(cfg, jobs) then Outcome(s, jobs, true)
    else if s.alreadyTriggered then Outcome(ResetState(time), jobs, true)
    else Outcome(TimerState(s.beginTime, true), jobs + cfg.jobOnComplete, true)
  }

  /** Which of the four branches of `tick` a call takes. */
  datatype Stage = Waiting | Unacknowledged | Rebase | Fire

  function StageOf(cfg: TimerConfig, s: TimerState, jobs: Mask, time: ULong): (st: Stage) {
    if !Elapsed(cfg, s, time) then Waiting
    else if Pending(cfg, jobs) then Unacknowledged
    else if s.alreadyTriggered then Rebase
    else Fire
  }

  /** A tick raises the owned bit exactly when the interval has elapsed, the bit is
      clear and the timer is not armed; no other call ever sets it. */
  lemma RaisesBitIff(cfg: TimerConfig, s: TimerState, jobs: Mask, time: ULong)
    requires cfg.jobOnComplete != {}
    ensures (!Pending(cfg, jobs) && Pending(cfg, Step(cfg, s, jobs, time).jobs))
        <==> (Elapsed(cfg, s, time) && !Pending(cfg, jobs) && !s.alreadyTriggered)
  {
  }

  /** A tick returns true while the owned bit is clear only in the rebase stage:
      "returned true" does not mean "the bit is set". */
  lemma TrueWithBitClearIsRebase(cfg: TimerConfig, s: TimerState, jobs: Mask, time: ULong)
    requires cfg.jobOnComplete != {}
    ensures (Step(cfg, s, jobs, time).elapsed && !Pending(cfg, Step(cfg, s, jobs, time).jobs))
        <==> StageOf(cfg, s, jobs, time) == Rebase
  {
  }

  /** While the last firing is unacknowledged, a tick changes nothing and reports
      only whether the interval has elapsed. */
  lemma UnacknowledgedIsInert(cfg: TimerConfig, s: TimerState, jobs: Mask, time: ULong)
    requires Pending(cfg, jobs)
    ensures Step(cfg, s, jobs, time) == Outcome(s, jobs, Elapsed(cfg, s, time))
  {
  }

  /** After the rebase stage at `time`, no tick earlier than a whole interval later
      changes anything, whatever the bitmask then holds: the next firing comes no
      earlier than `time + duration` (modulo 2^32). */
  lemma RebaseDelaysNextFiring(cfg: TimerConfig, s: TimerState, jobs: Mask, time: ULong,
                               jobs': Mask, later: ULong)
    requires StageOf(cfg, s, jobs, time) == Rebase
    requires WrapSub(later, time) < cfg.duration
    ensures Step(cfg, s, jobs, time) == Outcome(ResetState(time), jobs, true)
    ensures Step(cfg, ResetState(time), jobs', later) == Outcome(ResetState(time), jobs', false)
  {
  }

  /** The set stage: the whole owned mask is ORed into the bitmask, the timer arms
      itself, the begin time is kept, and the tick returns true. */
  lemma FireStage(cfg: TimerConfig, s: TimerState, jobs: Mask, time: ULong)
    requires StageOf(cfg, s, jobs, time) == Fire
    ensures Step(cfg, s, jobs, time) == Outcome(TimerState(s.beginTime, true), jobs + cfg.jobOnComplete, true)
  {
  }

  /** The whole cycle from one firing to the next: the timer fires at `t0`; the consumer
      acknowledges by clearing the owned bits; the first tick `t1` a whole interval after
      the begin time only rebases to `t1`, with the bits still clear; a tick `t2` a whole
      interval after `t1` fires again and raises the bits. */
  lemma FiringCycle(cfg: TimerConfig, s: TimerState, jobs: Mask, t0: ULong, t1: ULong, t2: ULong)
    requires cfg.jobOnComplete != {}
    requires StageOf(cfg, s, jobs, t0) == Fire
    requires !(WrapSub(t1, s.beginTime) < cfg.duration)
    requires !(WrapSub(t2, t1) < cfg.duration)
    ensures Step(cfg, s, jobs, t0).state == TimerState(s.beginTime, true)
    ensures Pending(cfg, Step(cfg, s, jobs, t0).jobs)
    ensures StageOf(cfg, TimerState(s.beginTime, true), Step(cfg, s, jobs, t0).jobs - cfg.jobOnComplete, t1) == Rebase
    ensures Step(cfg, TimerState(s.beginTime, true), Step(cfg, s, jobs, t0).jobs - cfg.jobOnComplete, t1)
         == Outcome(ResetState(t1), Step(cfg, s, jobs, t0).jobs - cfg.jobOnComplete, true)
    ensures StageOf(cfg, ResetState(t1), Step(cfg, s, jobs, t0).jobs - cfg.jobOnComplete, t2) == Fire
    ensures Pending(cfg, Step(cfg, ResetState(t1), Step(cfg, s, jobs, t0).jobs - cfg.jobOnComplete, t2).jobs)
  {
    FireStage(cfg, s, jobs, t0);
    var acked := Step(cfg, s, jobs, t0).jobs - cfg.jobOnComplete;
    AcknowledgedFiresAgain(cfg, TimerState(s.beginTime, true), acked, t1, t2);
  }

  /** Re-arming: once the consumer has cleared the bit of an armed timer, the first
      elapsed tick (at `t1`) only rebases, and a tick a whole interval after `t1`, with
      the bit still clear, raises it again. */
  lemma AcknowledgedFiresAgain(cfg: TimerConfig, s: TimerState, jobs: Mask, t1: ULong, t2: ULong)
    requires cfg.jobOnComplete != {}
    requires s.alreadyTriggered && !Pending(cfg, jobs) && Elapsed(cfg, s, t1)
    requires !(WrapSub(t2, t1) < cfg.duration)
    ensures StageOf(cfg, s, jobs, t1) == Rebase
    ensures !Pending(cfg, Step(cfg, s, jobs, t1).jobs)
    ensures StageOf(cfg, ResetState(t1), jobs, t2) == Fire
    ensures Pending(cfg, Step(cfg, ResetState(t1), jobs, t2).jobs)
  {
  }

  /** The record of a run of ticks with no acknowledgement in between. */
  datatype Trace = Trace(state: TimerState, jobs: Mask, results: seq<bool>)

  /** Tick at each of `times` in turn, starting from `s` and `jobs`. */
  function Run(cfg: TimerConfig, s: TimerState, jobs: Mask, times: seq<ULong>): (t: Trace)
    ensures |t.results| == |times|
    decreases |times|
  {
    if times == [] then Trace(s, jobs, [])
    else
      var o := Step(cfg, s, jobs, times[0]);
      var rest := Run(cfg, o.state, o.jobs, times[1..]);
      Trace(rest.state, rest.jobs, [o.elapsed] + rest.results)
  }

  /** How many ticks of the run take the set stage. */
  function FireCount(cfg: TimerConfig, s: TimerState, jobs: Mask, times: seq<ULong>): (n: nat)
    decreases |times|
  {
    if times == [] then 0
    else
      var o := Step(cfg, s, jobs, times[0]);
      (if StageOf(cfg, s, jobs, times[0]) == Fire then 1 else 0)
        + FireCount(cfg, o.state, o.jobs, times[1..])
  }

  /** No run of ticks clears a job bit, and none touches a bit the timer does not own. */
  lemma {:induction false} RunNeverClearsJobs(cfg: TimerConfig, s: TimerState, jobs: Mask, times: seq<ULong>)
    ensures jobs <= Run(cfg, s, jobs, times).jobs
    ensures Run(cfg, s, jobs, times).jobs - cfg.jobOnComplete == jobs - cfg.jobOnComplete
    decreases |times|
  {
    if times != [] {
      var o := Step(cfg, s, jobs, times[0]);
      RunNeverClearsJobs(cfg, o.state, o.jobs, times[1..]);
    }
  }

  /** While no tick of a run reaches a whole interval, the run changes nothing and
      every tick returns false. */
  lemma {:induction false} RunWithinInterval(cfg: TimerConfig, s: TimerState, jobs: Mask, times: seq<ULong>)
    requires forall i :: 0 <= i < |times| ==> WrapSub(times[i], s.beginTime) < cfg.duration
    ensures Run(cfg, s, jobs, times).state == s
    ensures Run(cfg, s, jobs, times).jobs == jobs
    ensures forall i :: 0 <= i < |times| ==> !Run(cfg, s, jobs, times).results[i]
    decreases |times|
  {
    if times != [] {
      RunWithinInterval(cfg, s, jobs, times[1..]);
    }
  }

  /** While the owned bit stays set, a run changes nothing and never fires; each
      tick reports whether the interval has elapsed since the same `beginTime`. */
  lemma {:induction false} RunWhilePending(cfg: TimerConfig, s: TimerState, jobs: Mask, times: seq<ULong>)
    requires Pending(cfg, jobs)
    ensures Run(cfg, s, jobs, times).state == s
    ensures Run(cfg, s, jobs, times).jobs == jobs
    ensures forall i :: 0 <= i < |times| ==> Run(cfg, s, jobs, times).results[i] == Elapsed(cfg, s, times[i])
    ensures FireCount(cfg, s, jobs, times) == 0
    decreases |times|
  {
    if times != [] {
      RunWhilePending(cfg, s, jobs, times[1..]);
    }
  }

  /** Without an acknowledgement, a timer that owns a bit fires at most once, however
      many ticks elapse: an unacknowledged firing is never repeated. */
  lemma {:induction false} AtMostOneFiringUnacknowledged(cfg: TimerConfig, s: TimerState, jobs: Mask, times: seq<ULong>)
    requires cfg.jobOnComplete != {}
    ensures FireCount(cfg, s, jobs, times) <= 1
    decreases |times|
  {
    if times != [] {
      var o := Step(cfg, s, jobs, times[0]);
      if StageOf(cfg, s, jobs, times[0]) == Fire {
        RunWhilePending(cfg, o.state, o.jobs, times[1..]);
      } else {
        AtMostOneFiringUnacknowledged(cfg, o.state, o.jobs, times[1..]);
      }
    }
  }

  /** The timer object.  `jobs` is the shared bitmask it was built with: other timers
      and the job handlers see the bit it raises. */
  class Timer {
    const duration: ULong
    const jobs: JobFlags
    const jobOnComplete: Mask
    var beginTime: ULong
    var alreadyTriggered: bool

    function Config(): (cfg: TimerConfig) {
      TimerConfig(duration, jobOnComplete)
    }

    function State(): (s: TimerState)
      reads this
    {
      TimerState(beginTime, alreadyTriggered)
    }

    /** A new timer starts at time 0, disarmed. */
    constructor (duration: ULong, jobs: JobFlags, jobOnComplete: Mask)
      ensures this.duration == duration && this.jobs == jobs && this.jobOnComplete == jobOnComplete
      ensures State() == TimerState(0, false)
    {
      this.duration := duration;
      this.jobs := jobs;
      this.jobOnComplete := jobOnComplete;
      beginTime := 0;
      alreadyTriggered := false;
    }

    /** Rebase to `time` and disarm; the bitmask is not in the frame, so it is untouched. */
    method Reset(time: ULong)
      modifies this
      ensures State() == ResetState(time)
    {
      beginTime := time;
      alreadyTriggered := false;
    }

    /** One tick: the new fields, the new bitmask and the result are those of `Step`. */
    method Tick(time: ULong) returns (elapsed: bool)
      modifies this, jobs
      ensures Outcome(State(), jobs.bits, elapsed) == Step(Config(), old(State()), old(jobs.bits), time)
    {
      if WrapSub(time, beginTime) < duration {
        return false;
      }
      if jobs.bits * jobOnComplete != {} {
        return true;
      }
      if alreadyTriggered {
        Reset(time);
        return true;
      }
      jobs.bits := jobs.bits + jobOnComplete;
      alreadyTriggered := true;
      return true;
    }
  }

  /** A fresh timer of 1000 ticks owning bit 0, ticked at 999, 1000, 1500, 2000 and 2500,
      with the consumer clearing the bit right after the tick at 1000.  `results` are the
      values `tick` returns; `bitSet` says whether the bit is set just after each tick. */
  method AcknowledgedIntervalTrace() returns (results: seq<bool>, bitSet: seq<bool>)
    ensures results == [false, true, true, false, true]
    ensures bitSet == [false, true, false, false, true]
  {
    var jobs := new JobFlags({});
    var timer := new Timer(1000, jobs, {0});
    var r0 := timer.Tick(999);
    var b0 := 0 in jobs.bits;
    var r1 := timer.Tick(1000);
    var b1 := 0 in jobs.bits;
    jobs.bits := jobs.bits - {0};
    var r2 := timer.Tick(1500);
    var b2 := 0 in jobs.bits;
    var r3 := timer.Tick(2000);
    var b3 := 0 in jobs.bits;
    var r4 := timer.Tick(2500);
    var b4 := 0 in jobs.bits;
    results := [r0, r1, r2, r3, r4];
    bitSet := [b0, b1, b2, b3, b4];
  }

  /** Two timers sharing one bitmask: each raises only its own bit, and a pending bit
      of one does not hold back the other. */
  method SharedBitmaskTrace() returns (afterFirst: Mask, afterSecond: Mask)
    ensures afterFirst == {0} && afterSecond == {0, 1}
  {
    var jobs := new JobFlags({});
    var refresh := new Timer(1000, jobs, {0});
    var lights := new Timer(500, jobs, {1});
    var _ := refresh.Tick(1000);
    afterFirst := jobs.bits;
    var _ := lights.Tick(1000);
    afterSecond := jobs.bits;
  }
}
