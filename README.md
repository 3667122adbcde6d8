# sfc2md in Dafny

A model of the sfc2md adapter firmware. The firmware reads an SFC/SNES pad, which is a 16-bit shift register on a cable. It then answers the Mega Drive console as a 6-button pad would. The model covers four parts:

- **Controller read.** `sfc_read` latches the pad and clocks out 16 bits, most significant first. Buttons are active low.
- **Layout choice.** At power-on, `md_init` picks one of three button layouts (`BC`, `AB`, `XC`) from the buttons held.
- **Output schedule.** `md_sched_update` builds eight port bytes from a snapshot and the layout, one byte per change of the select line. The builder is made of `SFC_DEC`, `MD_ENC`, the six remapping functions `md_sched_a`..`md_sched_z` and the eight byte functions `md_sched0`..`md_sched7`.
- **Phase engine.** `loop6`, built from its `PHASE_` and `RESTART_` macros, follows the select line and writes the schedule to the port. `ISR(TIMER1_OVF_vect)` resamples the pad when the console stops polling and makes `loop6` restart its schedule.

Files and modules:

- `sfc.dfy`, module `Sfc`: the button bit positions, `SFC_DEC`, the shift register (`Pack`) and the read loop (`Read`).
- `layout.dfy`, module `Layout`: the `Mode` enumeration and the power-on choice.
- `schedule.dfy`, module `Schedule`: the pin positions, `MD_ENC`, the remapping table, the eight byte functions and `Build`.
- `engine.dfy`, module `PhaseEngine`: the busy-wait and the overflow handler as a state machine over values (`Engine`, `Spin`, `TimerOverflow`), with runs of spins (`Run`, `Writes`).
- `firmware.dfy`, module `Firmware`: the class `Adapter`. It holds the firmware's state: the global `mode` and `schedule[8]` (an array), the `restart` register, the timer's running flag, and `loop6`'s phase and kept byte `next`. It also holds the port register. Its methods change this state in place. Each method is proved against the value-level step of the same name.

Representation choices:

- A snapshot is a `bv16` and a port byte a `bv8`, as `uint16_t` and `uint8_t` are in the source. Left shifts drop high bits as the C truncation to 16 or 8 bits does.
- `SFC_DEC(s, b)` shifts right by `b` and masks with 1. The model reads the same bit by testing the single-bit mask of `b` (`Masks[b]`), which keeps the bit-vector proofs small. The equality of the two forms is taken as the definition, not proved.
- The data line is given as the 16 levels it shows, in clock order. The select line is given as the level seen by each spin.

Behaviour worth noting:

- **Timer restarts at every phase.** Every phase, phase 0 included, zeroes and starts the timer when it writes the port (`sfc2md.c:357-358`).
- **Restart keeps the select polarity.** A restart resumes at phase 0 from phases 2, 4 and 6, and at phase 1 from phases 3, 5 and 7 (`sfc2md.c:360-361`). The awaited select level is therefore kept.
- **The handler does the resampling.** The interrupt handler itself reads the pad and rebuilds the whole schedule (`sfc2md.c:328-336`). The model takes the handler as one atomic step between two spins, so no spin ever sees a half-written schedule.
- **The first write after a restart is stale.** `next` lives in a register of `loop6`, and a restart does not reload it. So, with the handler running between two passes, the first write after a restart sends the byte kept before the restart, taken from the old schedule (`FirstWriteIsKept`, `RestartResumes`). From the second write on, every byte comes from the new schedule (`Advance`). When the restart abandons phase 5, 6 or 7, that stale byte is not even the entry of the phase it is written at:
  - abandoning phase 5 makes phase 1 send old entry 5, with D0 to D3 low (`StaleIdentificationAfterRestart`);
  - abandoning phase 6 makes phase 0 send old entry 6, with logical Z, Y, X and Select on D0 to D3 where entry 0 carries the directions (`StaleExtraButtonsAfterRestart`);
  - abandoning phase 7 makes phase 1 send old entry 7, with D0 to D3 high where entry 1 has D2 and D3 low (`StaleHighLinesAfterRestart`).
- **Buttons are active low.** A snapshot bit is 0 when the button is held (`sfc2md.c:48`, `sfc2md.c:309-320`).
- **The idle schedule is built before the mode is chosen.** `md_init` builds the idle schedule while `mode` still has its zero value, `BC`. `Build` gives the same idle schedule in every mode (`IdleInEveryMode`), so this makes no difference.
- **Phase 0 waits for select high.** Even phases wait for the select line to be high and odd phases wait for it to be low (`sfc2md.c:345-354`, `360-363`).

## Model

| member | source | states |
|---|---|---|
| `Sfc.Dec` | sfc2md.c:48 | SFC_DEC yields a 0/1 line value |
| `Sfc.Level` | sfc2md.c:81 | the sample shifted in is 1 exactly when the data line reads high |
| `Sfc.ShiftInBound` | sfc2md.c:81 | shifting a sample into an accumulator below 2^n gives one below 2^(n+1) |
| `Sfc.ShiftInLow` | sfc2md.c:81 | the sample shifted in lands at bit 0 |
| `Sfc.ShiftInMoves` | sfc2md.c:81 | shifting moves bit k of the accumulator to bit k+1 |
| `Sfc.PackBound` | sfc2md.c:66-84 | after n of the 16 samples the accumulator is below 2^n |
| `Sfc.PackBit` | sfc2md.c:77-84 | of n samples, sample j ends up at bit n-1-j |
| `Sfc.Read` | sfc2md.c:63-87 | sfc_read returns the shift-register value of the 16 samples, with sample i (clock order) at bit 15-i, so the first sample is bit 15 (SFC_B) |
| `Layout.Choose` | sfc2md.c:309-320 | AB exactly when Left's bit is clear; BC exactly when Left's is set and Right's clear; XC exactly when both are set; Left wins when both are held |
| `Layout.ChooseFromSamples` | sfc2md.c:307-320 | the layout follows the 7th (Left) and 8th (Right) data-line samples of the power-on read |
| `Schedule.Port` | sfc2md.c:240-242 | the OR of MD_ENC terms carries each of the six line values on its pin (D0=3, D1=2, D2=1, D3=0, D4=4, D5=7) and leaves bits 5 and 6 clear |
| `Schedule.PortRoundTrip` | sfc2md.c:96-117 | a port byte with bits 5 and 6 clear is rebuilt exactly from its six line values |
| `Schedule.Source` | sfc2md.c:139-221 | every logical button of every layout reads one of the physical buttons A, B, X, Y, L, R |
| `Schedule.Extra` | sfc2md.c:139-221 | md_sched_a..z yield a 0/1 line value |
| `Schedule.LayoutIsBijection` | sfc2md.c:139-221 | in each layout the six logical buttons read six distinct physical buttons, covering all of A, B, X, Y, L, R |
| `Schedule.YIsAlwaysX` | sfc2md.c:195-207 | logical Y is physical X in all three layouts |
| `Schedule.OnlyOneHeld` | sfc2md.c:139-221 | with only one physical button held, exactly the logical button mapped to it reads as held |
| `Schedule.Build` | sfc2md.c:277-287 | md_sched_update stores eight entries, one per select change; what they hold is stated by `ScheduleShape`, `IdleInEveryMode` and `ScheduleLines` |
| `Schedule.ScheduleShape` | sfc2md.c:238-275 | entries 2 and 4 equal entry 0 and entry 3 equals entry 1; bits 5-6 clear everywhere; entry 1 has bits 0-1 clear, entry 5 bits 0-3 clear, entry 7 bits 0-3 set; entries 1, 5, 7 agree on bits 4 and 7 |
| `Schedule.IdleInEveryMode` | sfc2md.c:238-287 | snapshot 0xFFFF (nothing held) gives 9F 9C 9F 9C 9F 90 9F 9F in every mode |
| `Schedule.ScheduleLines` | sfc2md.c:238-275 | read back line by line, each entry carries the buttons its md_schedN names (directions with B/C; Up/Down with A/Start; four low lines; Z/Y/X/Select with B/C; four high lines) |
| `PhaseEngine.Spin` | sfc2md.c:339-363 | one busy-wait pass never writes the schedule, never raises the restart flag and keeps "restart implies timer stopped"; a proceeding pass writes the kept byte and leaves the timer running; any other pass leaves port, kept byte and timer as they were |
| `PhaseEngine.TimerOverflow` | sfc2md.c:328-336 | the handler stops the timer, raises restart and replaces all eight entries with the build of the new snapshot, leaving phase, kept byte and port alone |
| `PhaseEngine.Run` | sfc2md.c:377-387 | a run of passes keeps the engine well formed, leaves the schedule alone and keeps "restart implies timer stopped" |
| `PhaseEngine.Writes` | sfc2md.c:355 | a run of passes writes the port at most once per pass |
| `PhaseEngine.WaitsForEdge` | sfc2md.c:343-354 | with no restart pending, a select level other than the awaited one writes nothing and changes nothing |
| `PhaseEngine.Advance` | sfc2md.c:343-363 | any pass that gets past the select test, in step or not, writes the kept byte, starts the timer, clears the flag, moves to the next phase mod 8 and leaves the kept byte equal to that phase's entry, so one awaited edge after a restart brings the engine in step with the new schedule |
| `PhaseEngine.AdvanceOnEdge` | sfc2md.c:355-358 | the awaited level writes the current entry, starts the timer and moves to the next phase mod 8 with the next entry kept |
| `PhaseEngine.Cycle` | sfc2md.c:376-387 | from any phase, k alternating select changes write the k entries from that phase on, wrapping around, and end k phases further on, still in step |
| `PhaseEngine.FullCycle` | sfc2md.c:376-387 | eight alternating changes from phase 0 write schedule[0..7] in order and return to phase 0 in step |
| `PhaseEngine.FirstWriteIsKept` | sfc2md.c:355-356 | the first byte any run of passes writes is the byte kept when the run began |
| `PhaseEngine.RestartResumes` | sfc2md.c:328-361 | after an overflow at phase 2-7 the next pass jumps to phase 0 (even) or 1 (odd), keeping the awaited level and the old kept byte; the following awaited edge writes that old byte, clears the flag and brings the engine in step with the new schedule |
| `PhaseEngine.RestartAtStart` | sfc2md.c:328-336 | after an overflow at phase 0 or 1 the next pass clears the flag and keeps the phase; on the awaited level it writes the old kept byte and is in step with the new schedule |
| `PhaseEngine.StaleIdentificationAfterRestart` | sfc2md.c:339-361 | a restart abandoning phase 5 makes phase 1 write old entry 5, with lines D0 and D1 (Up, Down) low |
| `PhaseEngine.StaleExtraButtonsAfterRestart` | sfc2md.c:339-361 | a restart abandoning phase 6 makes phase 0 write old entry 6, whose D0-D3 carry logical Z, Y, X and Select of the old snapshot |
| `PhaseEngine.StaleHighLinesAfterRestart` | sfc2md.c:339-361 | a restart abandoning phase 7 makes phase 1 write old entry 7, with D0-D3 high, where entry 1 of the new schedule has D2 and D3 low |
| `PhaseEngine.FlagIgnoredAtStart` | sfc2md.c:362-363 | at phases 0 and 1 a set restart flag changes nothing but itself |
| `PhaseEngine.PowerOnCycle` | sfc2md.c:376-387 | from the power-on state, whatever the restart register held, the first eight select changes write the idle schedule and return to phase 0 |
| `Firmware.Adapter.constructor` | sfc2md.c:127-135 | static storage starts with mode BC, a zero schedule, timer stopped and the restart register's unknown value |
| `Firmware.Adapter.SchedUpdate` | sfc2md.c:277-287 | md_sched_update overwrites the schedule array in place with the build of the snapshot under the current mode |
| `Firmware.Adapter.MdInit` | sfc2md.c:289-326 | md_init installs the idle schedule, reads the pad once and sets mode by the power-on rule, leaving the timer stopped |
| `Firmware.Adapter.EnterLoop` | sfc2md.c:376 | loop6 starts at phase 0 with entry 0 kept ready |
| `Firmware.Adapter.Spin` | sfc2md.c:339-363 | the in-place busy-wait pass produces exactly the state of the value-level pass and reports whether it wrote the port |
| `Firmware.Adapter.TimerOverflow` | sfc2md.c:328-336 | the in-place handler produces exactly the state of the value-level handler for the snapshot read from the samples |
| `Firmware.PowerOn` | sfc2md.c:390-395 | setup and loop6 entry leave mode chosen from the power-on read, phase 0, 0x9F kept, the idle schedule, timer stopped |

## Left out

- Pin direction and pull-up setup in `sfc_init` and `md_init` (`DDRB`, `DDRD`, `PORTB` writes): register configuration with no logic.
- The latch and clock line toggling and the `_delay_us` timings of `sfc_read`: the model keeps only the 16 data-line levels, in clock order.
- The timer's count, prescaler and overflow period (`TCNT1`, `TCCR1A`, `TCCR1B`, `TIMSK1`): the timer is only running or stopped, and an overflow may happen at any point while it runs. Durations cannot be stated in the model.
- `PhaseEngine.TimerOverflow` and `Firmware.Adapter.TimerOverflow` require the timer to be running, because the hardware raises the overflow only while the timer counts.
- Overflows inside a pass: the model runs the handler only between two passes, so it does not capture an overflow that fires inside a proceeding pass, after the select test (`sfc2md.c:345-354`) and before the timer restart (`sfc2md.c:358`). In the firmware that pass restarts the timer with the flag still set, so "restart implies timer stopped" (`Consistent`) does not hold there. If the overflow lands after the port write (`sfc2md.c:355`), `next` is loaded from the new schedule, so the first write after the jump is a new-schedule byte rather than the stale one `FirstWriteIsKept` describes.
- Interrupt preemption, `sei()` and the binding of `restart` to register r5: the handler is one atomic step between two passes of the busy-wait, not a concurrent task. The unknown start value of r5 is a constructor parameter.
- The manual unrolling of `loop6` and its response time: the eight phase labels become a phase number.
- `setup`, `loop` and `main`: every mode dispatches to `loop6`. `PowerOn` covers what `setup` and the entry to `loop6` do.
- GPIO reads: the data-line samples and the select levels are parameters.
