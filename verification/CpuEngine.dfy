/** The modelled processor inside the engine: it is offered one tick at a time, which is what the delay
    after EI needs. */
module CpuEngine {
  import opened Common
  import opened Interrupts
  import opened CpuModel
  import opened CpuRunner
  import opened CpuInvariant
  import opened Engine
  import Whole = Engine
  import CpuEiDelay
  import CpuDiscipline
  import CpuEiBatches

  /** A program and the processor running it, within the runner's invariant. */
  datatype Core = Core(isa: Isa, r: Runner)

  const IDLE := Isa((alu, op) => 1, (m, op, step) => Some(m), (alu, op) => 1, (m, op, step) => Some(m))

  type SaneCore = c: Core | Inv(c.isa, c.r) witness Core(IDLE, CpuEiBatches.SwitchedOn())

  /** How the rest of the machine looks to the processor, and what its machine state means to them:
      any memory, any interrupt flags and any writes will do. */
  datatype Wiring = Wiring(mem: Engine<SaneCore> -> Memory, irqs: Engine<SaneCore> -> Irqs,
                           writes: (Engine<SaneCore>, SaneCore) -> Effects<SaneCore>)

  /** What the processor finds when it is given `k` ticks. */
  ghost function InputAt(w: Wiring, e: Engine<SaneCore>, k: nat): Input {
    Input(w.mem(e), w.irqs(e), k)
  }

  ghost function RunCore(w: Wiring, e: Engine<SaneCore>, k: nat): SaneCore {
    Core(e.core.isa, RunOne(e.core.isa, e.core.r, InputAt(w, e, k)))
  }

  ghost function Announced(c: SaneCore): positive {
    c.r.left
  }

  ghost function Around(w: Wiring, peer: Serial.Peer, rate: sampleRate): Surroundings<SaneCore> {
    Surroundings(Announced, (e: Engine<SaneCore>, k: nat) => w.writes(e, RunCore(w, e, k)).(core := RunCore(w, e, k)),
                 peer, rate)
  }

  /** What the processor finds in each of the first `n` ticks. */
  ghost function Offered(w: Wiring, peer: Serial.Peer, rate: sampleRate, e: Engine<SaneCore>, n: nat)
    : (inputs: seq<Input>)
    ensures |inputs| == n
  {
    if n == 0 then []
    else Offered(w, peer, rate, e, n - 1) + [InputAt(w, Whole.Tick(Around(w, peer, rate), e, n - 1), 1)]
  }

  lemma OneTickEach(w: Wiring, peer: Serial.Peer, rate: sampleRate, e: Engine<SaneCore>, n: nat)
    ensures forall i :: i in Offered(w, peer, rate, e, n) ==> i.ticks == 1
  {
    hide Whole.Tick, Around;
  }

  lemma CoreRuns(w: Wiring, peer: Serial.Peer, rate: sampleRate, e: Engine<SaneCore>)
    ensures OneRound(Around(w, peer, rate), e).core == RunCore(w, e, 1)
  {
    CoreInRound(Around(w, peer, rate), e);
    hide OneRound, RunOne, Inv;
  }

  /** Inside the engine the processor is the runner in calls of one tick, whatever memory and requests
      the rest of the machine shows it. */
  lemma {:induction false} ProcessorAlone(w: Wiring, peer: Serial.Peer, rate: sampleRate, e: Engine<SaneCore>, n: nat)
    ensures Whole.Tick(Around(w, peer, rate), e, n).core
         == Core(e.core.isa, Run(e.core.isa, e.core.r, Offered(w, peer, rate, e, n)))
  {
    hide Whole.Tick, Around, OneRound, RunOne, Inv;
    var around := Around(w, peer, rate);
    if n == 0 {
      TickNone(around, e);
    } else {
      ProcessorAlone(w, peer, rate, e, n - 1);
      TickLast(around, e, n);
      var before := Whole.Tick(around, e, n - 1);
      CoreRuns(w, peer, rate, before);
      var inputs := Offered(w, peer, rate, e, n);
      assert inputs[..n - 1] == Offered(w, peer, rate, e, n - 1);
    }
  }

  /** So for every program, and whatever the other components do, the delay after EI holds in the
      engine, instructions run whole and in order, and the processor never stalls the scheduler. */
  lemma EiDelayInEngine(w: Wiring, peer: Serial.Peer, rate: sampleRate, e: Engine<SaneCore>, n: nat)
    requires Reset(e.core.r)
    ensures var r := Whole.Tick(Around(w, peer, rate), e, n).core.r;
      CpuEiDelay.EiRespected(r.log) && CpuDiscipline.InOrder(r.log) && !r.stuck && r.left >= 1
  {
    LegalCore(e.core);
    hide Whole.Tick, Around, Inv, CpuEiDelay.EiRespected, CpuDiscipline.InOrder, Reset, Run, Legal;
    var inputs := Offered(w, peer, rate, e, n);
    ProcessorAlone(w, peer, rate, e, n);
    OneTickEach(w, peer, rate, e, n);
    CpuEiDelay.EiDelay(e.core.isa, e.core.r, inputs);
    CpuDiscipline.RunInOrder(e.core.isa, e.core.r, inputs);
    NeverStuck(e.core.isa, e.core.r, inputs);
  }

  lemma LegalCore(c: SaneCore)
    ensures Legal(c.isa)
  {
  }
}
