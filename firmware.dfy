/** The adapter's run-time state and the code that changes it in place:
    md_sched_update over the global schedule array, md_init, the busy-wait
    of loop6 and the timer overflow handler. Each method is proved against
    the value-level model of the same step. */
module Firmware {
  import opened Sfc
  import opened Layout
  import opened Schedule
  import PhaseEngine

  class Adapter {
    /** The global button mode. */
    var mode: Mode
    /** The global eight-entry output schedule. */
    var schedule: array<bv8>
    /** The restart flag kept in register r5. */
    var restart: bool
    /** Whether timer 1 is counting (has a clock source). */
    var timerRunning: bool
    /** The label loop6 is at. */
    var phase: nat
    /** The byte loop6 keeps ready in a register for the next write. */
    var next: bv8
    /** The Mega Drive data port register. */
    var port: bv8

    ghost predicate Valid()
      reads this
    {
      schedule.Length == 8 && phase < 8
    }

    /** The shared state as a value of the phase engine model. */
    function State(): (e: PhaseEngine.Engine)
      reads this, schedule
      requires Valid()
      ensures PhaseEngine.WellFormed(e)
    {
      PhaseEngine.Engine(phase, next, restart, timerRunning, schedule[..], port)
    }

    /** Static storage before setup: the mode and the schedule are zero, so
        the mode is BC; the port register and the timer are at their reset
        state (0, stopped); the restart register holds whatever `r5` held. */
    constructor (r5: bool)
      ensures Valid() && fresh(schedule)
      ensures mode == Initial && schedule[..] == [0, 0, 0, 0, 0, 0, 0, 0]
      ensures restart == r5 && !timerRunning && phase == 0 && next == 0 && port == 0
    {
      mode := Initial;
      schedule := new bv8[8](_ => 0);
      restart := r5;
      timerRunning := false;
      phase := 0;
      next := 0;
      port := 0;
    }

    /** md_sched_update: overwrite the eight schedule entries in place with
        the bytes for snapshot `state` under the current mode. */
    method SchedUpdate(state: bv16)
      requires Valid()
      modifies schedule
      ensures schedule[..] == Build(mode, state)
    {
      var r := Build(mode, state);
      forall i | 0 <= i < 8 {
        schedule[i] := r[i];
      }
    }

    /** md_init: install the all-released schedule, read the controller once
        and choose the mode from the buttons held. The timer's overflow
        interrupt is enabled but the timer is not started. */
    method MdInit(samples: seq<bool>)
      requires Valid() && |samples| == Width
      modifies this, schedule
      ensures Valid() && schedule == old(schedule)
      ensures schedule[..] == IdleSchedule
      ensures mode == Choose(Pack(samples))
      ensures mode == AB <==> !samples[6]
      ensures mode == BC <==> samples[6] && !samples[7]
      ensures restart == old(restart) && timerRunning == old(timerRunning)
      ensures phase == old(phase) && next == old(next) && port == old(port)
    {
      SchedUpdate(Idle);
      IdleInEveryMode(mode);
      var state := Read(samples);
      mode := Choose(state);
      ChooseFromSamples(samples);
    }

    /** Entry to loop6: keep entry 0 ready and wait at phase 0. */
    method EnterLoop()
      requires Valid()
      modifies this
      ensures Valid() && schedule == old(schedule) && mode == old(mode)
      ensures phase == 0 && next == schedule[0] && PhaseEngine.Synced(State())
      ensures restart == old(restart) && timerRunning == old(timerRunning) && port == old(port)
    {
      next := schedule[0];
      phase := 0;
    }

    /** One pass of loop6's busy-wait at the current phase: the restart check
        of RESTART_ (or the clearing of the flag at phases 0 and 1), the test
        of the select line, and on the awaited level the port write, the load
        of the next entry and the timer restart. `wrote` tells whether the
        port was written. */
    method Spin(selectHigh: bool) returns (wrote: bool)
      requires Valid()
      modifies this
      ensures Valid() && schedule == old(schedule) && mode == old(mode)
      ensures State() == PhaseEngine.Spin(old(State()), selectHigh)
      ensures wrote == PhaseEngine.Proceeds(old(State()), selectHigh)
    {
      if phase >= 2 && restart {
        phase := phase % 2;
        wrote := false;
      } else {
        if phase < 2 {
          restart := false;
        }
        if selectHigh == (phase % 2 == 0) {
          port := next;
          next := schedule[(phase + 1) % 8];
          timerRunning := true;
          phase := (phase + 1) % 8;
          wrote := true;
        } else {
          wrote := false;
        }
      }
    }

    /** ISR(TIMER1_OVF_vect): only raised while the timer counts. Stop the
        timer, raise the restart flag, read the controller and rebuild the
        schedule in place. */
    method TimerOverflow(samples: seq<bool>)
      requires Valid() && timerRunning && |samples| == Width
      modifies this, schedule
      ensures Valid() && schedule == old(schedule) && mode == old(mode)
      ensures State() == PhaseEngine.TimerOverflow(old(State()), mode, Pack(samples))
    {
      timerRunning := false;
      restart := true;
      var state := Read(samples);
      SchedUpdate(state);
    }
  }

  /** setup followed by the entry to loop6: static storage, md_init with the
      controller read at power-on, then phase 0 with entry 0 kept ready. The
      engine starts in step with the all-released schedule and with the timer
      stopped; a stale restart flag is cleared by the first spin at phase 0. */
  method PowerOn(r5: bool, samples: seq<bool>) returns (a: Adapter)
    requires |samples| == Width
    ensures a.Valid() && fresh(a) && fresh(a.schedule)
    ensures a.mode == Choose(Pack(samples))
    ensures a.State() == PhaseEngine.Engine(0, 0x9F, r5, false, IdleSchedule, 0)
    ensures PhaseEngine.Synced(a.State()) && PhaseEngine.Consistent(a.State())
  {
    a := new Adapter(r5);
    a.MdInit(samples);
    a.EnterLoop();
  }
}
