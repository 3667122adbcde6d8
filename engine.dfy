/** The phase engine of loop6 and the timer overflow handler, as a state
    machine over values. One `Spin` is one pass through a phase label of
    loop6: the restart check (or the clearing of the restart flag at phases
    0 and 1), then one test of the select line. `TimerOverflow` is the
    interrupt handler, taken as one atomic step between two spins. */
module PhaseEngine {
  import opened Sfc
  import opened Layout
  import opened Schedule

  /** The state the engine and the handler share. `phase` is the label loop6
      is at, `next` the byte kept ready in a register for the next write,
      `port` the last byte written to the data port. */
  datatype Engine = Engine(
    phase: nat,
    next: bv8,
    restart: bool,
    timerRunning: bool,
    schedule: seq<bv8>,
    port: bv8)

  predicate WellFormed(e: Engine)
  {
    e.phase < 8 && |e.schedule| == 8
  }

  /** A pending restart has the timer stopped: the handler stops the timer
      when it raises the flag, and with the handler taken as atomic between
      spins no spin starts the timer before the flag is cleared. So the
      handler cannot fire a second time while a restart is pending. */
  predicate Consistent(e: Engine)
  {
    e.restart ==> !e.timerRunning
  }

  /** The byte kept ready is the schedule entry of the current phase. */
  predicate Synced(e: Engine)
    requires WellFormed(e)
  {
    e.next == e.schedule[e.phase]
  }

  /** The select level phase `p` waits for: high at even phases, low at odd. */
  function Awaited(p: nat): bool
  {
    p % 2 == 0
  }

  /** RESTART_: phases 2 to 7 abandon their wait when the flag is set. */
  predicate Abandons(e: Engine)
  {
    e.phase >= 2 && e.restart
  }

  /** The spin gets past the select test and writes the port. */
  predicate Proceeds(e: Engine, selectHigh: bool)
  {
    !Abandons(e) && selectHigh == Awaited(e.phase)
  }

  /** One pass of the busy-wait at the current phase label. An even phase
      from 2 up with the flag set jumps to phase 0, an odd one to phase 1;
      phases 0 and 1 clear the flag. A select level that is not the awaited
      one leaves the engine at its phase. The awaited level writes the kept
      byte to the port, loads the next entry, zeroes and starts the timer and
      moves on to the next phase. The schedule is never written here. */
  function Spin(e: Engine, selectHigh: bool): (r: Engine)
    requires WellFormed(e)
    ensures WellFormed(r) && r.schedule == e.schedule
    ensures Consistent(e) ==> Consistent(r)
    ensures r.restart ==> e.restart
    ensures Proceeds(e, selectHigh) ==> r.timerRunning && r.port == e.next
    ensures !Proceeds(e, selectHigh) ==> r.port == e.port && r.next == e.next && r.timerRunning == e.timerRunning
  {
    if Abandons(e) then
      e.(phase := e.phase % 2)
    else
      var e' := if e.phase < 2 then e.(restart := false) else e;
      if selectHigh == Awaited(e.phase) then
        e'.(port := e'.next,
            next := e'.schedule[(e.phase + 1) % 8],
            timerRunning := true,
            phase := (e.phase + 1) % 8)
      else
        e'
  }

  /** ISR(TIMER1_OVF_vect): stop the timer, raise the restart flag, read the
      controller and rebuild the whole schedule from the new snapshot. The
      phase, the kept byte and the port are left as they were. */
  function TimerOverflow(e: Engine, m: Mode, snapshot: bv16): (r: Engine)
    requires WellFormed(e) && e.timerRunning
    ensures WellFormed(r) && Consistent(r)
    ensures r.restart && !r.timerRunning && r.schedule == Build(m, snapshot)
    ensures r.phase == e.phase && r.next == e.next && r.port == e.port
  {
    e.(timerRunning := false, restart := true, schedule := Build(m, snapshot))
  }

  /** The engine after a run of spins, one per select level in `levels`. */
  function Run(e: Engine, levels: seq<bool>): (r: Engine)
    requires WellFormed(e)
    ensures WellFormed(r) && r.schedule == e.schedule
    ensures Consistent(e) ==> Consistent(r)
    decreases |levels|
  {
    if levels == [] then e else Run(Spin(e, levels[0]), levels[1..])
  }

  /** The bytes written to the port during a run of spins, in order. */
  function Writes(e: Engine, levels: seq<bool>): (w: seq<bv8>)
    requires WellFormed(e)
    ensures |w| <= |levels|
    decreases |levels|
  {
    if levels == [] then []
    else
      (if Proceeds(e, levels[0]) then [Spin(e, levels[0]).port] else [])
      + Writes(Spin(e, levels[0]), levels[1..])
  }

  /** `k` select changes in a row, starting at level `high`. */
  function Alternating(high: bool, k: nat): (levels: seq<bool>)
    ensures |levels| == k
    decreases k
  {
    if k == 0 then [] else [high] + Alternating(!high, k - 1)
  }

  /** A select level other than the awaited one, with no restart pending,
      writes nothing and keeps the phase. */
  lemma WaitsForEdge(e: Engine, selectHigh: bool)
    requires WellFormed(e) && !e.restart && selectHigh != Awaited(e.phase)
    ensures Writes(e, [selectHigh]) == []
    ensures Spin(e, selectHigh) == e
  {
    assert [selectHigh][1..] == [];
  }

  /** The awaited select level writes the kept byte, keeps the engine in
      step with the schedule and advances the phase by one modulo 8. */
  lemma AdvanceOnEdge(e: Engine)
    requires WellFormed(e) && !e.restart && Synced(e)
    ensures var r := Spin(e, Awaited(e.phase));
      && r.port == e.schedule[e.phase]
      && r.phase == (e.phase + 1) % 8
      && r.timerRunning && !r.restart && Synced(r)
  {
  }

  /** Any spin that gets past the select test, whether or not the engine is
      in step, writes the kept byte, starts the timer, moves to the next phase
      modulo 8 and leaves the engine in step with the schedule; the flag is
      clear afterwards. This is how the engine catches up with a rebuilt
      schedule after a restart, however long the console waits first. */
  lemma Advance(e: Engine, selectHigh: bool)
    requires WellFormed(e) && Proceeds(e, selectHigh)
    ensures var r := Spin(e, selectHigh);
      && r.port == e.next && r.phase == (e.phase + 1) % 8
      && r.timerRunning && !r.restart && Synced(r)
  {
  }

  /** From any phase, with no restart pending and the kept byte in step,
      `k` alternating select changes write the schedule entries from the
      current phase on, in order and wrapping around, and leave the engine
      `k` phases further on, still in step. */
  lemma {:induction false} Cycle(e: Engine, k: nat)
    requires WellFormed(e) && !e.restart && Synced(e)
    ensures Writes(e, Alternating(Awaited(e.phase), k)) == Rotated(e.schedule, e.phase, k)
    ensures var r := Run(e, Alternating(Awaited(e.phase), k));
      r.phase == (e.phase + k) % 8 && !r.restart && Synced(r)
    decreases k
  {
    if k == 0 {
      assert Alternating(Awaited(e.phase), k) == [];
    } else {
      var e1 := Spin(e, Awaited(e.phase));
      FirstEdge(e, k);
      Cycle(e1, k - 1);
      CycleStep(e, k);
    }
  }

  /** The inductive step of `Cycle`: if the engine after the first edge
      writes the next `k - 1` rotated entries and ends in step, the engine
      before it writes `k` of them, its own entry first. */
  lemma CycleStep(e: Engine, k: nat)
    requires WellFormed(e) && !e.restart && Synced(e) && 0 < k
    requires var e1 := Spin(e, Awaited(e.phase));
      && WellFormed(e1)
      && Writes(e1, Alternating(Awaited(e1.phase), k - 1)) == Rotated(e.schedule, e1.phase, k - 1)
      && var r := Run(e1, Alternating(Awaited(e1.phase), k - 1));
      r.phase == (e1.phase + k - 1) % 8 && !r.restart && Synced(r)
    ensures Writes(e, Alternating(Awaited(e.phase), k)) == Rotated(e.schedule, e.phase, k)
    ensures var r := Run(e, Alternating(Awaited(e.phase), k));
      r.phase == (e.phase + k) % 8 && !r.restart && Synced(r)
  {
    var levels := Alternating(Awaited(e.phase), k);
    var e1 := Spin(e, Awaited(e.phase));
    FirstEdge(e, k);
    RotatedStep(e.schedule, e.phase, k);
    PhaseArith(e.phase, k - 1);
    assert Writes(e, levels) == [e.schedule[e.phase]] + Rotated(e.schedule, e1.phase, k - 1);
    assert Run(e, levels) == Run(e1, levels[1..]);
  }

  /** The entries of `s` from `p` on, `k` of them, wrapping around. */
  function Rotated(s: seq<bv8>, p: nat, k: nat): (r: seq<bv8>)
    requires |s| == 8
    ensures |r| == k
  {
    seq(k, i => s[(p + i) % 8])
  }

  /** Taking the first of `k` rotated entries leaves `k - 1` entries from the
      following phase. */
  lemma RotatedStep(s: seq<bv8>, p: nat, k: nat)
    requires |s| == 8 && p < 8 && 0 < k
    ensures Rotated(s, p, k) == [s[p]] + Rotated(s, (p + 1) % 8, k - 1)
  {
    var tail := Rotated(s, (p + 1) % 8, k - 1);
    forall i | 1 <= i < k
      ensures Rotated(s, p, k)[i] == tail[i - 1]
    {
      PhaseArith(p, i - 1);
    }
  }

  /** The first of `k` alternating select changes moves the engine on by one
      phase and writes the current entry; the rest of the run starts there. */
  lemma FirstEdge(e: Engine, k: nat)
    requires WellFormed(e) && !e.restart && Synced(e) && 0 < k
    ensures var levels := Alternating(Awaited(e.phase), k);
      var e1 := Spin(e, Awaited(e.phase));
      && e1.phase == (e.phase + 1) % 8 && !e1.restart && Synced(e1)
      && levels[1..] == Alternating(Awaited(e1.phase), k - 1)
      && Writes(e, levels) == [e.schedule[e.phase]] + Writes(e1, levels[1..])
      && Run(e, levels) == Run(e1, levels[1..])
  {
    var high := Awaited(e.phase);
    var levels := Alternating(high, k);
    assert levels[1..] == Alternating(!high, k - 1);
    AdvanceOnEdge(e);
  }

  /** Counting phases modulo 8 one at a time or all at once agrees. */
  lemma PhaseArith(p: nat, i: nat)
    requires p < 8
    ensures ((p + 1) % 8 + i) % 8 == (p + 1 + i) % 8
  {
    if p == 7 {
      assert (p + 1 + i) % 8 == (8 + i) % 8 == i % 8;
    }
  }

  /** Eight select changes from phase 0, high first, with no restart: entries
      0 to 7 are written in order, each once, and the engine is back at
      phase 0 in step with the schedule. */
  lemma FullCycle(e: Engine)
    requires WellFormed(e) && e.phase == 0 && !e.restart && Synced(e)
    ensures Writes(e, Alternating(true, 8)) == e.schedule
    ensures var r := Run(e, Alternating(true, 8)); r.phase == 0 && !r.restart && Synced(r)
  {
    var levels := Alternating(Awaited(e.phase), 8);
    Cycle(e, 8);
    assert Writes(e, levels) == Rotated(e.schedule, 0, 8);
    RotatedWhole(e.schedule);
    assert levels == Alternating(true, 8);
  }

  /** Eight entries from phase 0 are the whole schedule. */
  lemma RotatedWhole(s: seq<bv8>)
    requires |s| == 8
    ensures Rotated(s, 0, 8) == s
  {
    forall i | 0 <= i < 8
      ensures Rotated(s, 0, 8)[i] == s[i]
    {
      assert (0 + i) % 8 == i;
    }
  }

  /** The port only ever gets the byte kept ready: the first write of any run
      of spins is the kept byte the run starts with. */
  lemma {:induction false} FirstWriteIsKept(e: Engine, levels: seq<bool>)
    requires WellFormed(e)
    ensures Writes(e, levels) != [] ==> Writes(e, levels)[0] == e.next
    decreases |levels|
  {
    if levels != [] && !Proceeds(e, levels[0]) {
      FirstWriteIsKept(Spin(e, levels[0]), levels[1..]);
    }
  }

  /** A restart raised while phase 2 to 7 waits: the next spin jumps to
      phase 0 from an even phase and to phase 1 from an odd one, so the
      awaited select level is kept, and changes nothing else. The spin after
      that clears the flag; on the awaited level it writes the byte kept from
      before the restart, and from then on the engine is in step with the
      new schedule. */
  lemma RestartResumes(e: Engine, m: Mode, snapshot: bv16, selectHigh: bool)
    requires WellFormed(e) && e.timerRunning && e.phase >= 2
    ensures var j := Spin(TimerOverflow(e, m, snapshot), selectHigh);
      && j.phase == e.phase % 2 && Awaited(j.phase) == Awaited(e.phase)
      && j.next == e.next && j.port == e.port && j.restart && !j.timerRunning
      && j.schedule == Build(m, snapshot)
      && var w := Spin(j, Awaited(j.phase));
      && w.port == e.next && w.phase == j.phase + 1
      && !w.restart && w.timerRunning && Synced(w)
  {
  }

  /** A restart raised while phase 0 or 1 waits: the flag is cleared on the
      next spin and the phase is kept, so the first write still sends the
      byte kept from before the restart. */
  lemma RestartAtStart(e: Engine, m: Mode, snapshot: bv16)
    requires WellFormed(e) && e.timerRunning && e.phase < 2
    ensures var j := Spin(TimerOverflow(e, m, snapshot), !Awaited(e.phase));
      && j.phase == e.phase && !j.restart && !j.timerRunning
      && j.next == e.next && j.schedule == Build(m, snapshot)
    ensures var w := Spin(TimerOverflow(e, m, snapshot), Awaited(e.phase));
      && w.port == e.next && w.phase == e.phase + 1 && !w.restart && Synced(w)
  {
  }

  /** A restart that abandons phase 5 resumes at phase 1 with the kept byte
      still entry 5 of the old schedule, so the first write at phase 1 has
      lines D0 to D3 low, Up and Down reading as held whatever the new
      snapshot says, where entry 1 carries the Up and Down buttons. */
  lemma StaleIdentificationAfterRestart(e: Engine, m: Mode, before: bv16, snapshot: bv16)
    requires WellFormed(e) && e.timerRunning && e.phase == 5 && Synced(e)
    requires e.schedule == Build(m, before)
    ensures var j := Spin(TimerOverflow(e, m, snapshot), true);
      && j.phase == 1
      && Spin(j, false).port == Build(m, before)[5]
      && Line(Spin(j, false).port, D0) == 0 && Line(Spin(j, false).port, D1) == 0
  {
  }

  /** A restart that abandons phase 6 resumes at phase 0 with the kept byte
      still entry 6 of the old schedule, so the first write at phase 0 sends
      logical Z, Y, X and Select of the old snapshot on D0 to D3, where
      entry 0 carries Up, Down, Left and Right. */
  lemma StaleExtraButtonsAfterRestart(e: Engine, m: Mode, before: bv16, snapshot: bv16)
    requires WellFormed(e) && e.timerRunning && e.phase == 6 && Synced(e)
    requires e.schedule == Build(m, before)
    ensures var j := Spin(TimerOverflow(e, m, snapshot), false);
      && j.phase == 0
      && var w := Spin(j, true);
      && w.port == Build(m, before)[6]
      && Line(w.port, D0) == Extra(m, LZ, before) && Line(w.port, D1) == Extra(m, LY, before)
      && Line(w.port, D2) == Extra(m, LX, before) && Line(w.port, D3) == Dec(before, Select)
  {
    ScheduleLines(m, before);
  }

  /** A restart that abandons phase 7 resumes at phase 1 with the kept byte
      still entry 7 of the old schedule, so the first write at phase 1 has
      lines D0 to D3 high, where entry 1 of the new schedule has D2 and D3
      low. */
  lemma StaleHighLinesAfterRestart(e: Engine, m: Mode, before: bv16, snapshot: bv16)
    requires WellFormed(e) && e.timerRunning && e.phase == 7 && Synced(e)
    requires e.schedule == Build(m, before)
    ensures var j := Spin(TimerOverflow(e, m, snapshot), true);
      && j.phase == 1
      && var w := Spin(j, false);
      && w.port == Build(m, before)[7]
      && Line(w.port, D0) == 1 && Line(w.port, D1) == 1
      && Line(w.port, D2) == 1 && Line(w.port, D3) == 1
      && Line(j.schedule[1], D2) == 0 && Line(j.schedule[1], D3) == 0
  {
    ScheduleLines(m, before);
    ScheduleLines(m, snapshot);
  }

  /** Phases 0 and 1 ignore the restart flag apart from clearing it: a spin
      there behaves the same whether the flag was set or not. */
  lemma FlagIgnoredAtStart(e: Engine, levels: seq<bool>)
    requires WellFormed(e) && e.phase < 2 && levels != []
    ensures Writes(e, levels) == Writes(e.(restart := false), levels)
    ensures Run(e, levels) == Run(e.(restart := false), levels)
  {
    assert Spin(e, levels[0]) == Spin(e.(restart := false), levels[0]);
  }

  /** The state loop6 starts in after power-on, with whatever value the
      restart register `r5` held: the first eight select changes, high first,
      write the all-released schedule in order and come back to phase 0. */
  lemma PowerOnCycle(r5: bool)
    ensures var e := Engine(0, 0x9F, r5, false, IdleSchedule, 0);
      && Writes(e, Alternating(true, 8)) == IdleSchedule
      && Run(e, Alternating(true, 8)).phase == 0
  {
    var e := Engine(0, 0x9F, r5, false, IdleSchedule, 0);
    FlagIgnoredAtStart(e, Alternating(true, 8));
    FullCycle(e.(restart := false));
  }
}
