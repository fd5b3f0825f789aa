# A model of the Game Boy emulator's timing core

The emulator is a set of tick-driven state machines that a scheduler keeps in lockstep. This project
models those machines in Dafny and proves what the rest of the program takes for granted about them.

- **Picture.** `PpuPipe`, `Ppu`: the scanline renderer with its two-phase background fetcher, stalling sprite fetcher,
  two pixel FIFOs and one-shot window restart, under register writes between any two dots. `PpuPipeTiming`,
  `PpuTiming`, `PpuFrame`: drawing always ends in time, batches are dots, frames have a fixed length. `PpuStat`: the
  STAT interrupt over whole runs. `PpuScan`, `LineSpec`, `PpuRender`, `PpuLine`, `PpuPicture`: the lines and frames
  that reach the screen are those a simple painter's algorithm describes. `Pixels`, `Containers`, `PixelStores`: pixel
  priority and the ring buffer and bounded vector under the FIFOs and the sprite buffer.
- **Time.** `Timer`, `TimerWrites`, `TimerClosedForm`: the divider-driven timer with delayed reload, its batches, what
  register writes do to it, and a closed form for every overflow. `Scheduler`, `Engine`: the batch scheduler and the
  whole machine under it, with the processor free to do anything.
- **Processor.** `CpuModel`, `CpuRunner`: the fetch, execute, halt and interrupt machine with overlapped fetch.
  `CpuInvariant`, `CpuDiscipline`, `CpuEiDelay`, `CpuEiBatches`, `CpuEiThenDi`, `CpuSplit`, `CpuReturn`, `CpuCall`:
  steps in order for any chunking, termination despite a step that consumes nothing, the delay after EI, when ticks
  may be cut anyhow, and the round trips of interrupt and RETI and of CALL and RET. `Interrupts`: request and enable
  flags. `Decimal`: ADC, SBC and DAA as multi-byte decimal arithmetic. `CpuEngine`: the processor in the engine.
- **Memory.** `OamDma`, `OamDmaLive`: the DMA engine as a block copy, with memory still and under a running program.
  `MemoryMap`, `MemoryMapUnit`: the page table against searching the regions, and paged memory as one flat memory.
- **Sound and cable.** `Clocked`, `ApuChannels`, `ApuTiming`, `ApuLaws`, `Resampler`, `Apu`, `ApuRuns`: channel
  timers, the bounds kept over every register write, and drift-free sampling. `Serial`: the serial link.

Code that works by updating fields is modelled twice: a class with those fields (modules ending in `Unit`, and
`Containers`, `Decimal.Registers`, `Interrupts.InterruptController`), whose methods have the original's loops and
branches, and a state machine on values. Every method's contract equates its new state with the state
machine's; the theorems are about the state machine, over all inputs, register writes and splits of time.

Integers are unbounded unless typed: `byte` and `word` carry the original's 8- and 16-bit ranges and every
wrap-around is written out. The CPU's registers reach the PPU, timer, DMA, audio and serial models as arbitrary
writes between ticks; memory is a 64K map whose reads have no side effects.

## Where the code is not what its names suggest

The model follows the code in each of these places.

- The timer's third horizon is the smaller of 1 and the distance to the next clock-bit edge
  (gameboy-cpp/timer/timer_system.cppm:39), so the timer always announces exactly one tick and every round of the
  engine is a single tick. The engine's indifference to how ticks are split rests on it.
- The EI countdown subtracts the whole batch offered, not the ticks consumed
  (gameboy-cpp/engine/cpu.cppm:55), so the delay after EI holds of runs of short calls only: of all runs of calls of
  at most b ticks exactly when b is at most 3 (`CpuEiBatches.DelayIffShortCalls`). The engine's calls are of one tick
  (`CpuEngine.EiDelayInEngine`).
- Leaving a halt with the interrupt master enable off fetches the next opcode whole, however few ticks the call
  offers (gameboy-cpp/engine/cpu.cppm:224-231), so there too it matters how ticks are cut (`CpuSplit.WakeNotSplit`);
  without it and without an EI countdown it never does (`CpuSplit.TickSplit`).
- Changing the timer clock compares the masked bits as numbers, so moving to a lower bit steps the counter
  even when that bit is set (gameboy-cpp/timer/timer_system.cppm:118-135).
- Starting an OAM DMA while one is waiting to take over abandons the running transfer at once
  (gameboy-cpp/graphics/graphics_oam.cppm:154-162).
- Objects partly left of the screen are drawn whole from column 0, and a window with WX below 7 starts
  unshifted at column 0.
- The 7-bit noise mode clears the whole shift register before setting bit 6
  (gameboy-cpp/audio/audio_noise.cppm:76-80), because of a logical instead of a bitwise negation.
- Above the master clock rate the sampling loop can return with samples still owed
  (`Resampler.ExactIffRate` gives the exact condition).
- A serial tick longer than the announced batch goes on shifting after the transfer has ended
  (`Serial.TicksSplitIff` gives the exact condition under which a call may be split).
- Switching the LCD off leaves the sprite buffer as it is and the line two dots in, so the first line after switching
  on begins with stale objects and misses the first OAM entry (`PpuScan.FirstLineObjects`).

## Model

| member | source | states |
|---|---|---|
| `PpuLine.LineIsPainted` | gameboy-cpp/graphics/graphics_ppu.cppm:333-435 | From dot 0 of any visible line, registers and memory held still, exactly one line is handed to the screen in the next 456 dots, and it equals, column by column, a painter's-algorithm picture of the line with the first ten objects on it: tile map or window, mixed with the front-most sprite pixel, through the palettes |
| `PpuLine.RestOfLineIsPainted` | gameboy-cpp/graphics/graphics_ppu.cppm:333-435 | The same from any dot of the scan, with the objects the scan ends with, those left over from before included, when they are distinct |
| `PpuPicture.FrameIsPainted` | gameboy-cpp/graphics/graphics_ppu.cppm:438-474 | From dot 0 of line 0, registers and memory held still: after n <= 144 lines the screen has received exactly the first n lines of the painted picture, top to bottom, window rows counted from the window's top line |
| `PpuPicture.FirstFrameIsPainted` | gameboy-cpp/graphics/graphics_ppu.cppm:438-474 | The same for a frame joined at any dot of line 0's scan: all lines are the picture's but for the sprites of line 0, which are those its scan ends with, when they are distinct |
| `PpuPicture.SwitchedOnIsPainted` | gameboy-cpp/graphics/graphics_ppu.cppm:233-260 | So for the 144 lines after the LCD is switched off and on again, line 0 with the objects left in the buffer and the visible ones from OAM entry 1 on |
| `LineSpec.SpriteAtIsFront` | gameboy-cpp/graphics/graphics_pixel_fetcher.cppm:130-160 | In that picture the sprite pixel of a column is the opaque pixel, among all objects covering it, with the least (x, OAM index), or transparent if there is none |
| `LineSpec.SameColumn` | gameboy-cpp/graphics/graphics_pixel_fetcher.cppm:130-160 | Fetching the objects of a column in any order paints the same pixel there |
| `PpuRender.DotRenders` | gameboy-cpp/graphics/graphics_ppu.cppm:333-435 | One dot of the real pipeline keeps the correspondence with the picture: columns already drawn are right, both FIFOs hold exactly the pixels the coming columns need |
| `Pixels.FoldIsFront` | gameboy-cpp/graphics/graphics_pixel_fetcher.cppm:130-160 | Folding the pairwise priority rule over pixels of distinct objects yields the opaque pixel with least (x, OAM index) |
| `Pixels.FoldOrderIndependent` | gameboy-cpp/graphics/graphics_pixel_fetcher.cppm:130-160 | The outcome is the same for every order of the same pixels |
| `PpuTiming.DrawingAlwaysEnds` | gameboy-cpp/graphics/graphics_ppu.cppm:333-435 | Under every endless supply of register writes with the LCD left on, mode 3 lasts at least 172 and at most 307 dots, so h-blank begins before dot 456 |
| `PpuTiming.PlainLineLength` | gameboy-cpp/graphics/graphics_ppu.cppm:312-327 | With no buffered sprite and the window off, mode 3 lasts exactly 172 + SCX mod 8 dots, SCX taken when the scan ends |
| `PpuTiming.NeverStalls` | gameboy-cpp/graphics/graphics_ppu.cppm:204-216 | After any run of writes, LCD switching and dots, the announced batch is at least 1 and never underflows |
| `PpuTiming.BatchPositive` | gameboy-cpp/graphics/graphics_ppu.cppm:204-216 | The announced batch is positive and never crosses the end of the current phase |
| `PpuTiming.StepInv` | gameboy-cpp/graphics/graphics_ppu.cppm:278-291 | A step over any part of the announced batch keeps the line invariant in every mode |
| `PpuTiming.ApplyInv` | gameboy-cpp/graphics/graphics_ppu.cppm:233-275 | Every register write keeps it too, and with the LCD left on moves neither mode, dot, line nor pipeline |
| `PpuTiming.BatchIsDots` | gameboy-cpp/graphics/graphics_ppu.cppm:278-330 | A step over part of the announced batch equals that many single dots, including the order of interrupts and lines sent |
| `PpuTiming.DotsSplit` | gameboy-cpp/graphics/graphics_ppu.cppm:219-230 | Ticking a + b dots equals ticking a and then b |
| `PpuFrame.FrameLength` | gameboy-cpp/graphics/graphics_ppu.cppm:438-498 | From dot c of line 0 with the LCD kept on, k * 70224 - c dots end at line 0, dot 0, OAM scan, with lines 0..143 sent in order exactly k times and exactly k v-blank requests; c is 0 at power-on |
| `PpuFrame.RunPosition` | gameboy-cpp/graphics/graphics_ppu.cppm:438-498 | From any moment of any line with the LCD kept on, which lines have been sent since and how many v-blanks requested is a function of the starting position and the number of dots alone |
| `PpuFrame.FirstFrame` | gameboy-cpp/graphics/graphics_ppu.cppm:233-260 | Switching the LCD on, whatever went before, starts a frame of 70222 dots: all 144 lines in order and one v-blank |
| `PpuPipeTiming.DotProgress` | gameboy-cpp/graphics/graphics_pixel_fetcher.cppm:193-363 | Every dot lowers an upper bound on the dots left by at least one and a lower bound by at most one, whatever the registers |
| `PpuPipeTiming.PixelSupply` | gameboy-cpp/graphics/graphics_pixel_fetcher.cppm:275-348 | Once the first tile is in and until a window restart, FIFO count + fetcher dot is 8 after every dot, the fetcher is never in its push step, and every unstalled dot pops a pixel |
| `PpuPipeTiming.NoObjectLeftBehind` | gameboy-cpp/graphics/graphics_ppu.cppm:368-390 | When a pixel is drawn with objects on, no object starting at or before it is still buffered |
| `PpuScan.VisibleIsFilter` | gameboy-cpp/graphics/graphics_oam.cppm:109-115 | The specification list holds exactly the OAM objects touching the line, from the given entry on, by increasing OAM index |
| `PpuScan.ScanCollectsFirstTen` | gameboy-cpp/graphics/graphics_ppu.cppm:293-330 | A scan from dot 0, whatever is written during it short of switching the LCD off, changing the object size or touching object memory, ends at dot 80 with exactly the first ten such objects in OAM order |
| `PpuScan.ScanCollects` | gameboy-cpp/graphics/graphics_ppu.cppm:293-330 | From any dot of a scan, under the same writes: the first ten of the objects already buffered and those among the entries not yet looked at |
| `PpuScan.FirstLineObjects` | gameboy-cpp/graphics/graphics_ppu.cppm:233-330 | After the LCD is switched off and on the first line starts with the objects buffered when it went off and never looks at OAM entry 0 |
| `PpuUnit.PixelProcessingUnit.constructor` | gameboy-cpp/graphics/graphics_ppu.cppm:127-131 | A new unit is at line 0, dot 0, in OAM scan with the LCD on, within its invariant |
| `PpuUnit.PixelProcessingUnit.Tick` | gameboy-cpp/graphics/graphics_ppu.cppm:219-230 | The object ticked by n is the state machine moved by n single dots; the loop ends and keeps the invariant |
| `PpuUnit.PixelProcessingUnit.HandleDraw` | gameboy-cpp/graphics/graphics_ppu.cppm:333-435 | The in-place drawing handler computes one dot of the pipeline and consumes one tick |
| `PpuUnit.PixelProcessingUnit.HandleScanOam` | gameboy-cpp/graphics/graphics_ppu.cppm:293-330 | The scan handler computes the dots of the scan it consumes, and the start of drawing at dot 80 |
| `PpuUnit.PixelProcessingUnit.HandleHBlank` | gameboy-cpp/graphics/graphics_ppu.cppm:438-474 | The h-blank handler's whole new state: line sent, next line or v-blank entered exactly at dot 456 |
| `PpuUnit.PixelProcessingUnit.HandleVBlank` | gameboy-cpp/graphics/graphics_ppu.cppm:477-498 | The v-blank handler's whole new state, wrapping to line 0 after line 153 |
| `PpuUnit.PixelProcessingUnit.TurnLcd` | gameboy-cpp/graphics/graphics_ppu.cppm:233-260 | Switching the LCD off restarts the line state and latches the comparison bit; switching on re-evaluates the STAT line |
| `PpuUnit.PixelProcessingUnit.UpdateStatLine` | gameboy-cpp/graphics/graphics_ppu.cppm:501-520 | The in-place update is the state machine's: a request exactly on a rising edge of the combined condition |
| `PpuStat.RequestsAreRises` | gameboy-cpp/graphics/graphics_ppu.cppm:501-520 | Over every run of register writes, LCD switching and dots, the STAT requests made are the low-to-high moves of the STAT line, one for one |
| `PpuStat.ActStat` | gameboy-cpp/graphics/graphics_ppu.cppm:233-498 | The line follows its condition at every change of mode or line number, every LYC and source write and every switching on, and keeps still at anything else |
| `PixelStores.PopObjectAtX` | gameboy-cpp/graphics/graphics_object_buffer.cppm:12-27 | Removes and returns the first buffered object whose columns start at or before x, or changes nothing |
| `PixelStores.MergeSpriteRow` | gameboy-cpp/graphics/graphics_pixel_fetcher.cppm:486-528 | A completed sprite fetch leaves the ring buffer equal to the pointwise winner of its padded old contents and the new row |
| `Containers.FixedSizeQueue.TryPush` | gameboy-cpp/utilities/fixed_size_queue.cppm:27-39 | Appends one element exactly when there is room, around the end of the storage if need be |
| `Containers.FixedSizeQueue.TryPushRange` | gameboy-cpp/utilities/fixed_size_queue.cppm:64-89 | Appends all of a range or nothing, with the copy cut in two where the storage ends |
| `Containers.FixedSizeQueue.TryPop` | gameboy-cpp/utilities/fixed_size_queue.cppm:91-103 | Removes and returns the oldest element, or nothing when empty |
| `Containers.RingAppends` | gameboy-cpp/utilities/fixed_size_queue.cppm:64-89 | Overwriting the storage behind the last element, modulo the size, appends to the ring's contents and disturbs none of them |
| `Containers.FixedCapacityVector.PushBack` | gameboy-cpp/utilities/fixed_capacity_vector.cppm:28-29 | Appends to the contents |
| `Containers.FixedCapacityVector.Erase` | gameboy-cpp/utilities/fixed_capacity_vector.cppm:31-38 | Removes exactly the element at the given position, order kept |
| `Timer.BatchAlwaysOne` | gameboy-cpp/timer/timer_system.cppm:138-154 | After every mix of register writes and advances from reset, overflow and TMA-window flags agree with their countdowns and the announced batch is exactly 1 |
| `Timer.ActInv` | gameboy-cpp/timer/timer_system.cppm:49-135 | Every register write and every advance keeps: overflow pending iff its countdown is 1..4, TMA window open iff its countdown is 1..4 |
| `Timer.AdvanceSplit` | gameboy-cpp/timer/timer_system.cppm:174-219 | advance(j + k) equals advance(j); advance(k), requests included, whenever j + k is within the pending reload or the next counter step |
| `Timer.AdvanceIsTicks` | gameboy-cpp/timer/timer_system.cppm:157-219 | A batch within that horizon equals as many single ticks |
| `Timer.TicksSplit` | gameboy-cpp/timer/timer_system.cppm:157-171 | Ticking a + b equals ticking a and then b |
| `TimerClosedForm.ClosedForm` | gameboy-cpp/timer/timer_system.cppm:157-219 | From a zeroed enabled timer of period P and modulo m the k-th overflow is at tick P(256 + (k-1)(256-m)); the counter then reads 0 for four ticks, then m plus elapsed periods, and the k-th request comes at the fourth tick, across divider wrap-around |
| `TimerClosedForm.BeforeFirstOverflow` | gameboy-cpp/timer/timer_system.cppm:157-219 | Before the first overflow the counter is the number of whole periods and nothing is requested |
| `TimerWrites.ReloadCancelled` | gameboy-cpp/timer/timer_system.cppm:72-84 | A counter write while a reload is pending calls it off: no request, and the written value stays until the next counter step |
| `TimerWrites.ReloadTakesLatest` | gameboy-cpp/timer/timer_system.cppm:174-219 | A modulo write while a reload is pending is the value reloaded when the countdown ends, with exactly one request then and none before |
| `TimerWrites.WindowLastsFour` | gameboy-cpp/timer/timer_system.cppm:174-219 | The window after a reload is open for exactly four ticks |
| `TimerWrites.WindowDecides` | gameboy-cpp/timer/timer_system.cppm:72-219 | In the four ticks after a pending reload runs out a modulo write reaches the counter and a counter write does not; from the fourth on, up to the next counter step, it is the other way round |
| `TimerWrites.DividerCleared` | gameboy-cpp/timer/timer_system.cppm:49-65 | Clearing the divider steps the counter iff the selected bit was set, and the next step is exactly one period later |
| `TimerUnit.TimerSystem.Tick` | gameboy-cpp/timer/timer_system.cppm:157-171 | The object ticked by n in announced batches is the timer after n single ticks |
| `TimerUnit.TimerSystem.Progress` | gameboy-cpp/timer/timer_system.cppm:174-219 | The in-place advance computes the state machine's advance on every path |
| `TimerUnit.TimerSystem.WriteDivider` | gameboy-cpp/timer/timer_system.cppm:49-65 | A divider write steps the counter exactly on a falling edge of the selected bit |
| `TimerUnit.TimerSystem.WriteCounter` | gameboy-cpp/timer/timer_system.cppm:72-84 | A counter write cancels a pending reload, and is ignored while the TMA window is open |
| `TimerUnit.TimerSystem.WriteControl` | gameboy-cpp/timer/timer_system.cppm:100-135 | The control write's two glitches: a step when disabling with the bit high, a step when the newly selected bit is numerically lower |
| `OamDma.BlockCopy` | gameboy-cpp/graphics/graphics_oam.cppm:154-277 | A transfer started in any state and not restarted is over after exactly 648 ticks; with memory otherwise untouched object memory then holds the 160 source bytes as they were, pages from 0xE0 folded down |
| `OamDmaLive.LiveCopy` | gameboy-cpp/graphics/graphics_oam.cppm:154-277 | While the program goes on writing memory other than object memory, the transfer still ends after 648 ticks, object byte i is what its source held in the tick of its own step, the (12 + 4 i)th, and no tick of the engine changes anything but object memory |
| `OamDma.SourceOutsideOam` | gameboy-cpp/graphics/graphics_oam.cppm:261-277 | No source address ever lies in object memory, so the copy never reads what it wrote |
| `OamDma.NeverLeavesOam` | gameboy-cpp/graphics/graphics_oam.cppm:154-277 | Under any starts and restarts at any moments nothing outside 0xFE00..0xFE9F changes, and the announced batch stays positive |
| `OamDma.TicksSplit` | gameboy-cpp/graphics/graphics_oam.cppm:164-188 | Ticking a + b equals ticking a and then b, memory included |
| `OamDma.ActiveIsTicks` | gameboy-cpp/graphics/graphics_oam.cppm:235-259 | A chunk towards the next byte equals single ticks |
| `OamDma.RestartingIsTicks` | gameboy-cpp/graphics/graphics_oam.cppm:207-233 | A chunk while one transfer runs and another waits equals single ticks |
| `OamDmaUnit.OamDmaEngine.TickTransfer` | gameboy-cpp/graphics/graphics_oam.cppm:164-188 | The object ticked by n, in its own chunks, leaves its fields and memory as n single ticks do |
| `Interrupts.FirstPendingIsFirst` | gameboy-cpp/interrupts/interrupts_control.cppm:72-97 | The masked test holds iff some interrupt is enabled and requested, and the search finds the one with the lowest bit |
| `Interrupts.MaskedTest` | gameboy-cpp/interrupts/interrupts_control.cppm:72-75 | The bitwise test of the two registers is non-zero iff some of the five interrupts is set in both |
| `Interrupts.InterruptController.GetFirstPending` | gameboy-cpp/interrupts/interrupts_control.cppm:77-97 | The priority loop over the flag bytes returns the first pending interrupt of the set model |
| `CpuInvariant.StepKeeps` | gameboy-cpp/engine/cpu.cppm:48-232 | Every step, of any size in any state, keeps the runner's invariant and consumes at least one tick, except the one step that turns an instruction about to start into an interrupt |
| `CpuInvariant.NeverStuck` | gameboy-cpp/engine/cpu.cppm:36-69 | For every program, chunking and behaviour of the rest of the machine no instruction and no dispatch is handed a step it has no case for, where every table entry is promised a case only below the count it was fetched with; the announced batch stays positive |
| `CpuInvariant.ExecDefined` | gameboy-cpp/opcodes/instructions_subroutine.cppm:52-174 | A step below the count decided at fetch has a case in every multi-step switch and leaves that count unchanged, conditional calls and returns included |
| `CpuInvariant.TickUnfolds` | gameboy-cpp/engine/cpu.cppm:36-45 | tick(n) is one step followed by tick(n - consumed), and a step that consumes nothing leaves the execute state, so tick terminates |
| `CpuDiscipline.RunInOrder` | gameboy-cpp/engine/cpu.cppm:111-165 | Over every run the record is one of whole instructions: each fetch with count n is followed by steps 0 to n - 1 of that very opcode, once each and in order, and then its completion, unless an interrupt takes its place before the first of them |
| `CpuDiscipline.StepEveryFourTicks` | gameboy-cpp/engine/cpu.cppm:126-145 | However a run of execution ticks is cut, j + k ticks equal j and then k, and exactly steps 0 to (j + k) / 4 - 1 of the fetched count have been handed out |
| `CpuEiDelay.EiDelay` | gameboy-cpp/engine/cpu.cppm:53-57 | Over every program and every run of calls of at most three ticks, no interrupt is entered after EI arms until EI itself and one further instruction have completed |
| `CpuEiBatches.DelayIffShortCalls` | gameboy-cpp/engine/cpu.cppm:53-57 | All runs of calls of at most b ticks respect that delay exactly when b <= 3: the countdown takes the ticks offered, not those consumed |
| `CpuEiBatches.FourTickCallsBreak` | gameboy-cpp/engine/cpu.cppm:53-57 | A run that breaks it: three calls of four ticks from power-on enter an interrupt straight after EI |
| `CpuEngine.ProcessorAlone` | gameboy-cpp/engine/engine.cppm:79-91 | Inside the engine the modelled processor is the runner in calls of one tick, for every program and everything memory and requests may do |
| `CpuEngine.EiDelayInEngine` | gameboy-cpp/engine/engine.cppm:79-91 | So from power-on the delay after EI holds in the engine at every tick, instructions run whole and in order, and the batch the processor announces is positive |
| `CpuEiDelay.ArmsOnlyEi` | gameboy-cpp/opcodes/instructions_interrupt.cppm:14-20 | Only EI arms the countdown, and only from off with no countdown running |
| `CpuEiThenDi.EiThenDi` | gameboy-cpp/opcodes/instructions_interrupt.cppm:27-31 | EI directly followed by DI, from any tick of EI on, in calls of at most three ticks wherever they fall: whatever requests arrive, EI runs, DI runs and no interrupt is entered up to the fourth tick after DI; from DI's last tick the master enable is off with no countdown |
| `CpuEiThenDi.EiFetchesDi` | gameboy-cpp/engine/cpu.cppm:147-164 | The last tick of EI arms the countdown and fetches DI in the same tick, which is the state EiThenDi starts from |
| `CpuReturn.DispatchEnters` | gameboy-cpp/interrupts/interrupts_dispatch.cppm:22-67 | With the two stack bytes in memory proper, dispatch pushes the address of the next unexecuted instruction, clears exactly the request entered, drops the master enable and jumps to the handler |
| `CpuReturn.DispatchCancelled` | gameboy-cpp/interrupts/interrupts_dispatch.cppm:38-64 | For every stack position: dispatch is cancelled iff its own push disables the interrupt, and then the most urgent one still pending is entered and cleared, or address 0 with nothing cleared |
| `CpuReturn.RetiUndoesDispatch` | gameboy-cpp/opcodes/instructions_subroutine.cppm:143-174 | RETI after dispatch restores program counter, stack pointer and master enable, for every stack position in memory proper |
| `CpuCall.CallPushes` | gameboy-cpp/opcodes/instructions_subroutine.cppm:14-50 | CALL pushes the address after its operand, high byte first, and jumps to the operand |
| `CpuCall.RetUndoesCall` | gameboy-cpp/opcodes/instructions_subroutine.cppm:79-107 | RET undoes CALL: the program goes on after the operand with the stack pointer it had, for every stack position in memory proper |
| `CpuCall.ConditionalCall` | gameboy-cpp/opcodes/instructions_subroutine.cppm:52-72 | With its condition met a conditional call is CALL step for step; otherwise its three steps only skip the operand |
| `CpuCall.ConditionalRet` | gameboy-cpp/opcodes/instructions_subroutine.cppm:109-136 | With its condition met a conditional return is an idle step and then RET; otherwise it changes nothing |
| `CpuReturn.InterruptAndReturn` | gameboy-cpp/engine/cpu.cppm:113-164 | An interrupt taken by a running program whose handler is a bare RETI: 36 ticks later, however they are cut into calls, the processor is as before apart from a scratch byte, and the displaced instruction's opcode is fetched again |
| `CpuReturn.HaltAndReturn` | gameboy-cpp/engine/cpu.cppm:201-222 | The same from a halt, for every cut of the 36 ticks: the return goes to the instruction after HALT |
| `CpuReturn.RunningEnters` | gameboy-cpp/engine/cpu.cppm:113-198 | Sixteen ticks after an interrupt is taken, however they are cut into calls, all four dispatch steps have run and the handler's first fetch begins |
| `CpuReturn.HaltedEnters` | gameboy-cpp/engine/cpu.cppm:201-222 | The same sixteen ticks from a halt, for every cut |
| `CpuSplit.TickSplit` | gameboy-cpp/engine/cpu.cppm:36-69 | tick(a + b) equals tick(a); tick(b) whenever at no tick of the first part an EI countdown is running or a halt is being left with the master enable off |
| `CpuSplit.CallsAreTicks` | gameboy-cpp/engine/cpu.cppm:36-69 | So any calls over such a stretch, one tick each or otherwise, end in the state of one call of their sum |
| `CpuSplit.WakeFetchesWhole` | gameboy-cpp/engine/cpu.cppm:224-231 | Leaving a halt with the master enable off does a whole fetch for any offer of one to four ticks |
| `CpuSplit.WakeNotSplit` | gameboy-cpp/engine/cpu.cppm:224-231 | There, with no countdown running, the split fails in every case: two ticks at once and one by one end in different states |
| `CpuChunks.ChunkExecutes` | gameboy-cpp/engine/cpu.cppm:131-145 | A chunk up to the next machine-cycle boundary is its ticks one by one, the last of which runs a step |
| `CpuUnit.RunnerUnit.Tick` | gameboy-cpp/engine/cpu.cppm:36-45 | The object's tick loop terminates and ends in the state machine's state after that many ticks |
| `CpuUnit.RunnerUnit.OneStep` | gameboy-cpp/engine/cpu.cppm:48-69 | One call of step, in place, is the state machine's step and consumes as many ticks |
| `CpuUnit.RunnerUnit.HandleExecute` | gameboy-cpp/engine/cpu.cppm:111-165 | The execute handler with its chunk loop computes the per-tick execution, or enters the interrupt and consumes nothing |
| `CpuUnit.RunnerUnit.HandleHalt` | gameboy-cpp/engine/cpu.cppm:201-232 | The halt handler's whole new state: asleep, woken into an interrupt, or woken into a fetch |
| `CpuUnit.RunnerUnit.HandleInterrupt` | gameboy-cpp/engine/cpu.cppm:168-198 | The dispatch chunk loop computes the per-tick dispatch |
| `Decimal.ChainAdds` | gameboy-cpp/opcodes/instructions_arithmetic.cppm:324-346 | ADC then DAA over n little-endian packed-BCD bytes yields the digits of the decimal sum plus incoming carry, and the final carry |
| `Decimal.ChainSubtracts` | gameboy-cpp/opcodes/instructions_arithmetic.cppm:440-462 | SBC then DAA yields the decimal difference modulo 100^n and the final borrow |
| `Decimal.ChainCarry` | gameboy-cpp/opcodes/instructions_misc.cppm:42-75 | Without incoming carry the final flag is exactly overflow of the sum or negativity of the difference |
| `Decimal.AddDigits` | gameboy-cpp/opcodes/instructions_misc.cppm:42-75 | One byte: ADC then DAA of packed-BCD operands is two-digit decimal addition with carry, flags left fit for the next byte |
| `Decimal.SubtractDigits` | gameboy-cpp/opcodes/instructions_misc.cppm:42-75 | One byte: SBC then DAA is two-digit decimal subtraction with borrow |
| `Decimal.Registers.DecimalAdjust` | gameboy-cpp/opcodes/instructions_misc.cppm:46-74 | The in-place instruction computes the adjusted register and flags |
| `MemoryMap.CheckIsPartition` | gameboy-cpp/memory/memory_map.cppm:20-39 | For regions of whole pages in any order, the sorted check passes iff they partition the address space, and then every start is page-aligned |
| `MemoryMap.RegionsCoverAll` | gameboy-cpp/memory/memory_map.cppm:20-39 | The loop over the sorted regions decides contiguity from 0 to 64K |
| `MemoryMap.BuildRegionsIndexMapping` | gameboy-cpp/memory/memory_map.cppm:41-62 | Fills the entry of every page of every region with that region's index |
| `MemoryMap.LookupIsSearch` | gameboy-cpp/memory/memory_map.cppm:90-100 | For every address the entry of its page is the index of the one region containing it |
| `MemoryMap.MachineMapIsPartition` | gameboy-cpp/engine/memory.cppm:488-498 | The emulator's own nine regions pass the check |
| `MemoryMapUnit.PagedMemory.Read` | gameboy-cpp/memory/memory_map.cppm:90-100 | Reading through the page table gives the flat memory's byte |
| `MemoryMapUnit.PagedMemory.Write` | gameboy-cpp/memory/memory_map.cppm:102-112 | Writing through it changes that one address of the flat memory and no other |
| `Clocked.RunSplit` | gameboy-cpp/audio/audio_pulse.cppm:110-125 | Running a channel's timer loop for a + b ticks equals a and then b, a zero initial timer included |
| `Clocked.RunIsOnce` | gameboy-cpp/audio/audio_pulse.cppm:110-125 | The loop equals its ticks one by one |
| `Clocked.RunClosedForm` | gameboy-cpp/audio/audio_wave.cppm:57-81 | Where a running timer stands after n ticks, in closed form: how often it fired and what is left |
| `ApuTiming.PulseTicksSplit` | gameboy-cpp/audio/audio_pulse.cppm:110-125 | Pulse tick(a + b) equals tick(a); tick(b) |
| `ApuTiming.PulseClosedForm` | gameboy-cpp/audio/audio_pulse.cppm:110-125 | After n ticks the duty step has advanced once per period and the output is the waveform bit last passed times the volume |
| `ApuTiming.WaveTicksSplit` | gameboy-cpp/audio/audio_wave.cppm:57-81 | Wave tick(a + b) equals tick(a); tick(b) |
| `ApuTiming.WaveClosedForm` | gameboy-cpp/audio/audio_wave.cppm:57-81 | The wave channel plays the 32 nibbles of wave RAM round and round, one per period, at the volume taken at trigger |
| `ApuTiming.NoiseTicksSplit` | gameboy-cpp/audio/audio_noise.cppm:61-86 | Noise tick(a + b) equals tick(a); tick(b) |
| `Resampler.NoDrift` | gameboy-cpp/audio/audio_apu.cppm:356-385 | For 1 <= R <= 4194304: samples emitted = floor((acc + N R) / 4194304), the accumulator ends at the remainder, the channels receive exactly N ticks |
| `Resampler.ExactIffRate` | gameboy-cpp/audio/audio_apu.cppm:364-366 | That law holds for all N and all accumulators below the master clock iff R <= 4194304; above it the call can end with samples still owed |
| `Resampler.NothingLost` | gameboy-cpp/audio/audio_apu.cppm:356-385 | At every rate from 1 up, samples times master clock plus accumulator accounts for every tick, and the channels receive exactly N |
| `Resampler.Instants` | gameboy-cpp/audio/audio_apu.cppm:373-384 | Each sample is what the channels sound like after exactly ceil((4194304 (i+1) - acc) / R) ticks |
| `Resampler.PlaySplit` | gameboy-cpp/audio/audio_apu.cppm:356-385 | Sampling over a + b ticks equals a and then b, for rates up to the master clock |
| `Apu.WriteKeeps` | gameboy-cpp/audio/audio_apu.cppm:28-282 | Every decoded register write keeps: periods and sweep shadow <= 2047, volumes and outputs <= 15, lengths and timers bounded, an active channel has its DAC on and the DAC is as the envelope says, accumulator below the master clock |
| `Apu.FrameKeeps` | gameboy-cpp/audio/audio_apu.cppm:307-353 | So does every frame step: length, sweep and envelope ticks |
| `Apu.TickKeeps` | gameboy-cpp/audio/audio_apu.cppm:293-299 | So does every call of tick |
| `Apu.TickSweepQuieter` | gameboy-cpp/audio/audio_pulse.cppm:85-108 | A sweep step keeps the 11-bit bounds, its overflow check included, and never starts a channel |
| `ApuLaws.LengthExpires` | gameboy-cpp/audio/audio_pulse.cppm:72-83 | A sounding channel with its length timer on falls silent exactly at the tick that exhausts it |
| `ApuLaws.EnvelopeRamp` | gameboy-cpp/audio/audio_channels.cppm:120-153 | From a trigger on the volume moves one step every pace ticks and stays within 0..15 |
| `ApuLaws.PeriodWrites` | gameboy-cpp/audio/audio_memory.cppm:251-275 | The two period writes compose the 11 bits in either order, whatever was there before |
| `ApuRuns.RunExact` | gameboy-cpp/audio/audio_apu.cppm:293-385 | Over every run of register writes and ticks from a sound state the number of samples is exactly the elapsed ticks at the output rate, and the state stays sound |
| `ApuRuns.RunFromPowerOn` | gameboy-cpp/audio/audio_apu.cppm:293-385 | From power-on every run is sound, emits floor(ticks * R / 4194304) samples and no level beyond four bits |
| `ApuRuns.TickInstants` | gameboy-cpp/audio/audio_apu.cppm:376-384 | Sample i of a call is the four channels' levels after the frame step and the exact number of ticks of its instant |
| `ApuRuns.TickSplit` | gameboy-cpp/audio/audio_apu.cppm:293-299 | While the divider stands still, one call of tick equals two |
| `ApuRuns.RunFits` | gameboy-cpp/audio/audio_common.cppm:9-9 | Every level of every sample a run emits fits the four bits digital_sample is constrained to, so its range assertion never fires |
| `ApuUnit.PulseChannel.Tick` | gameboy-cpp/audio/audio_pulse.cppm:110-125 | The in-place loop terminates and equals the pulse channel's timer function |
| `ApuUnit.PulseChannel.TickSweep` | gameboy-cpp/audio/audio_pulse.cppm:85-108 | The in-place sweep computes shadow, period and the disabling overflow checks, keeping the invariant |
| `ApuUnit.PulseChannel.Trigger` | gameboy-cpp/audio/audio_pulse.cppm:49-65 | The whole state after a trigger, the sweep's overflow check included |
| `ApuUnit.WaveChannel.Tick` | gameboy-cpp/audio/audio_wave.cppm:57-81 | The in-place loop terminates and equals the wave channel's timer function |
| `ApuUnit.NoiseChannel.Tick` | gameboy-cpp/audio/audio_noise.cppm:61-86 | The in-place loop terminates and equals the noise channel's timer function |
| `ApuUnit.AudioProcessingUnit.TickChannels` | gameboy-cpp/audio/audio_apu.cppm:356-385 | The sampling loop over the four channel objects equals the resampler, and terminates |
| `ApuUnit.AudioProcessingUnit.Tick` | gameboy-cpp/audio/audio_apu.cppm:293-299 | The object's tick equals the audio state machine's, samples appended to the sink |
| `ApuUnit.AudioProcessingUnit.SetEnabled` | gameboy-cpp/audio/audio_apu.cppm:28-37 | Switching off resets everything but the sampling accumulator and wave RAM |
| `Serial.HorizonPositive` | gameboy-cpp/serial/serial_link.cppm:27-35 | Over ticks, external ticks and writes the bit count stays below 8, so the announced batch is at least 512 |
| `Serial.WireConserves` | gameboy-cpp/serial/serial_link.cppm:66-81 | The bits sent and the byte held are together the original byte followed by the bits received |
| `Serial.ByteInCalls` | gameboy-cpp/serial/serial_link.cppm:38-51 | However the ticks left of a byte are cut into calls, with bits and ticks left over from an aborted transfer or not: the bits still held go out, the other side's come in below them, whatever it answers, one interrupt is requested and the transfer ended; from the start of a byte the two sides swap bytes |
| `Serial.TicksSplitIff` | gameboy-cpp/serial/serial_link.cppm:38-51 | tick(a + b) equals tick(a); tick(b) exactly when the link is inactive, b is 0, or the bits moved by the first part, those before it included, are fewer than 8 |
| `Serial.OverrunShiftsOn` | gameboy-cpp/serial/serial_link.cppm:44-50 | A failing case, from the start of a byte: in one call of nine bits' ticks nine bits leave, in two calls of eight and one only eight |
| `SerialUnit.SerialLink.Tick` | gameboy-cpp/serial/serial_link.cppm:38-51 | The in-place loop equals the link's tick function |
| `Scheduler.ExactlyTheTicks` | gameboy-cpp/engine/scheduler.cppm:45-56 | Whatever the rounds, a clock moved only by an always-active component moves by exactly the ticks asked for |
| `Scheduler.UnitRounds` | gameboy-cpp/engine/scheduler.cppm:16-22 | If one component always announces 1, scheduling n ticks is n rounds of single ticks |
| `Scheduler.BatchSchedule` | gameboy-cpp/engine/scheduler.cppm:45-56 | The scheduling loop terminates when every horizon is positive, and computes the schedule |
| `Scheduler.GetNextTickBatch` | gameboy-cpp/engine/scheduler.cppm:16-22 | The minimum of all announced batches, capped at 2^32 - 1 |
| `Engine.NeverSpins` | gameboy-cpp/engine/engine.cppm:79-91 | In every state, whatever a processor that announces at least one tick writes, all six components announce at least 1 and the timer exactly 1 |
| `Engine.TickSplit` | gameboy-cpp/engine/engine.cppm:79-91 | engine tick(a + b) equals tick(a); tick(b), for every state, split and processor |
| `Engine.TickLast` | gameboy-cpp/engine/engine.cppm:79-91 | engine tick(n) is n rounds of one tick in the order processor, timer, PPU, DMA, audio, serial |
| `Engine.PpuAlone` | gameboy-cpp/engine/engine.cppm:79-91 | Inside the engine the PPU makes exactly one dot per tick, under the writes and memory of that tick |
| `Engine.EngineFrames` | gameboy-cpp/engine/common.cppm:10-10 | With the LCD left on, every 70224 engine ticks are one frame: lines 0..143 in order and one v-blank, whatever the rest of the machine does, the first frame possibly begun already |
| `Engine.TimerAlone` | gameboy-cpp/engine/engine.cppm:79-91 | Left alone by the program, the timer in the engine is the timer ticked by itself |
| `Engine.EngineSound` | gameboy-cpp/engine/engine.cppm:79-91 | With audio left on, the engine has emitted floor((acc + n R) / 4194304) samples after n ticks, for every program |
| `Engine.ProcessorGetsEveryTick` | gameboy-cpp/engine/engine.cppm:79-91 | The processor receives exactly the ticks asked for |

## Left out

- User interface, audio and video backends, joypad, file handling, metadata, threads and profiling: plumbing.
- Floating-point audio: converters, panning, mixing, normalisation and the high-pass filter; a sample is the four
  channels' digital levels.
- RGB palettes: a pixel's colour is its grey level 0..3 after the palette registers.
- Cartridge bank controllers, header parsing, the joypad and the read side of I/O registers.
- The bus access policies: the PPU and the DMA engine read memory even where the original would return 0xFF to the
  processor, and video and object memory are not locked during drawing.
- The opcode table: `CpuModel.Isa` is any table that gives an opcode one to six steps, a case for every step below
  that count and none promised beyond it, and leaves interrupt enabling, halting and the count itself alone while the
  instruction runs; EI, DI, HALT, RET, RETI, CALL and the conditional calls and returns are modelled as they are. The
  illegal opcodes, which the original dispatches to unreachable code, are outside `Legal`.
- Interrupt latency around 0xCB: the runner does not look at interrupts between a prefix and its instruction, and no
  claim is made there.
- `halt.interrupts_pending`, which HALT records and nothing reads.
- The noise channel's sequence: the shift register is carried along exactly as coded, but nothing is claimed about it.
- Sample rates above 2^32 - 4194304, where the original's 32-bit accumulator would wrap.
- STAT and LCD-control register decoding: writes arrive decoded, one field group at a time.
- Audio register setters in place: register writes are modelled on values in `Apu`; of the audio unit's own setters the
  class has the enable bit and the first channel's trigger.
- The PPU's fetchers and FIFOs inside `PpuUnit.PixelProcessingUnit` are values it replaces; the ring buffer and the
  sprite vector are proved in place separately, in `Containers` and `PixelStores`.
- `memory_map` with more than nine regions: the original's switch has nine cases.
- PpuPicture.FrameIsPainted: registers and memory are held still for the whole frame.
- PpuPicture.SwitchedOnIsPainted: the objects of line 0 are taken to be distinct; a stale object found again under the
  same OAM index has no place in the picture's ordering.
- PpuLine.LineIsPainted: registers and memory are held still for the line; under writes in mid-line only the timing
  results, pixel supply and sprite buffering are claimed, because the picture then has no simpler description.
- PpuTiming.DrawingAlwaysEnds: the LCD is left on, because switching it off ends the line instead.
- OamDmaLive.LiveCopy: the program does not write object memory itself during the transfer.
- CpuReturn.InterruptAndReturn: memory and requests are not touched by other components during the 36 ticks; the
  opcode fetched again is the displaced one unless the two stack bytes overwrote it.
- CpuReturn.HaltAndReturn: the same two provisos.
- Engine.PpuAlone: the processor is any function of the whole machine, not the modelled runner, whose memory does not
  contain the other components' registers.
- Engine.EngineSound: the processor leaves the audio master switch alone; the unit is inactive while it is off.
- Apu.WriteKeeps: panning and master volume are not state here.
