/** The protocol of the poller as a table: which joystick line, read at which
    point of a poll, drives which output bit for each detected controller type;
    where in the select-edge sequence each read happens; and the boot-time
    classification. The imperative code in module Genesis is proved to meet
    these definitions. */
module Protocol {
  import opened AvrGeneral

  datatype Option<T> = None | Some(value: T)

  const STICK_GENESIS6: bv8 := 0
  const STICK_GENESIS3: bv8 := 1
  const STICK_ATARI: bv8 := 2

  /** The detected controller type, held by the source in `unsigned char sticktype`. */
  datatype StickType = Genesis6 | Genesis3 | Atari
  {
    /** The value of `sticktype` for this type. The poller's tests `!sticktype`,
        `sticktype < STICK_ATARI` and `sticktype == STICK_...` are made on it. */
    function Code(): (c: bv8)
      ensures c == STICK_GENESIS6 <==> this == Genesis6
      ensures c == STICK_GENESIS3 <==> this == Genesis3
      ensures c < STICK_ATARI <==> this != Atari
    {
      match this
      case Genesis6 => STICK_GENESIS6
      case Genesis3 => STICK_GENESIS3
      case Atari => STICK_ATARI
    }
  }

  /** The bytes on the PINA and PIND input registers at one moment. */
  datatype Inputs = Inputs(pinA: bv8, pinD: bv8)

  /** The attached controller as the chip sees it: the input bytes after a given
      number of rising edges of the select line since power-on, with the select
      line at a given level. The controller's multiplexer stays abstract. */
  type Pad = (nat, bool) -> Inputs

  /** The controller as seen `d` rising edges later. */
  function Shift(pad: Pad, d: nat): Pad {
    (e: nat, level: bool) => pad(e + d, level)
  }

  /** The joystick connector's signal pins, by connector pin number. */
  datatype Line =
    | Pin1  // Up, or Z in the six-button extra phase; PORTA bit 2
    | Pin2  // Down, or Y; PORTD bit 0
    | Pin3  // Left, or X; PORTD bit 1
    | Pin4  // Right; PORTA bit 1
    | Pin6  // A with select low, B (Atari fire) with select high; PORTA bit 0
    | Pin9  // Start with select low, C with select high; PORTD bit 3

  /** The level of a joystick line in the given input bytes. */
  predicate Level(i: Inputs, l: Line) {
    match l
    case Pin1 => Bit(i.pinA, 2)
    case Pin2 => Bit(i.pinD, 0)
    case Pin3 => Bit(i.pinD, 1)
    case Pin4 => Bit(i.pinA, 1)
    case Pin6 => Bit(i.pinA, 0)
    case Pin9 => Bit(i.pinD, 3)
  }

  /** The six lines are six distinct input bits: two input bytes agree on
      every line exactly when they agree on PINA bits 0-2 and PIND bits 0, 1
      and 3. */
  lemma LevelPins(i: Inputs, j: Inputs)
    ensures (forall l: Line :: Level(i, l) == Level(j, l)) <==>
      && Bit(i.pinA, 0) == Bit(j.pinA, 0) && Bit(i.pinA, 1) == Bit(j.pinA, 1)
      && Bit(i.pinA, 2) == Bit(j.pinA, 2) && Bit(i.pinD, 0) == Bit(j.pinD, 0)
      && Bit(i.pinD, 1) == Bit(j.pinD, 1) && Bit(i.pinD, 3) == Bit(j.pinD, 3)
  {
    if forall l: Line :: Level(i, l) == Level(j, l) {
      assert Level(i, Pin1) == Level(j, Pin1) && Level(i, Pin2) == Level(j, Pin2);
      assert Level(i, Pin3) == Level(j, Pin3) && Level(i, Pin4) == Level(j, Pin4);
      assert Level(i, Pin6) == Level(j, Pin6) && Level(i, Pin9) == Level(j, Pin9);
    }
  }

  /** The three groups of reads in a poll: the A/Start pair read where the
      select line is meant to be low, the full pad read after select is raised,
      and the six-button extra reads after the next raise. */
  datatype Phase = First | Second | Third

  /** The rising edges one `selectUp` makes from select level `s`. */
  function Rise(s: bool): nat {
    if s then 0 else 1
  }

  /** The point (edges since power-on, select level) at which a phase's reads
      happen, for a poll entered with `e` edges so far and select at level `s`. */
  function SamplePoint(t: StickType, ph: Phase, e: nat, s: bool): (r: (nat, bool))
    ensures t == Atari ==> r == (e, s)
    ensures t == Genesis6 && ph == First ==> !r.1
    ensures t != Atari && ph != First ==> r.1
    ensures e <= r.0 <= e + 3
  {
    match t
    case Genesis6 =>
      (match ph
       case First => (e + Rise(s), false)
       case Second => (e + Rise(s) + 1, true)
       case Third => (e + Rise(s) + 2, true))
    case Genesis3 =>
      (match ph
       case First => (e, s)
       case _ => (e + Rise(s), true))
    case Atari => (e, s)
  }

  /** The number of `selectUp` calls (select pulses) in one poll. */
  function PulseCount(t: StickType): nat {
    match t
    case Genesis6 => 4
    case Genesis3 => 2
    case Atari => 1
  }

  /** One read of the poller: a line, in a phase. */
  datatype Tap = Tap(phase: Phase, line: Line)

  /** The output table: the read that drives output bit `q` of `out`, if any.
      Outputs: D4 Up, D5 Down, D6 Left, B0 Right, B1 A, B2 B, B3 C, B4 X, B5 Y,
      B6 Z, B7 Start. An output with no read keeps its value. */
  function Wired(t: StickType, out: Bank, q: Pin): (w: Option<Tap>)
    ensures out == A ==> w == None
    ensures out == D ==> (w.Some? <==> 4 <= q <= 6)
    ensures out == D && w.Some? ==> w.value.phase == Second
    ensures w.Some? && w.value.phase == First ==> t != Atari && out == B
    ensures w.Some? && w.value.phase == Third ==> t == Genesis6 && out == B
    ensures t == Genesis6 && out == B ==> w.Some?
  {
    match out
    case A => None
    case B =>
      (match q
       case 0 => Some(Tap(Second, Pin4))
       case 1 => if t == Atari then None else Some(Tap(First, Pin6))
       case 2 => if t == Atari then None else Some(Tap(Second, Pin6))
       case 3 => Some(Tap(Second, Pin9))
       case 4 => if t == Genesis6 then Some(Tap(Third, Pin3)) else None
       case 5 => if t == Genesis6 then Some(Tap(Third, Pin2)) else None
       case 6 =>
         (match t
          case Genesis6 => Some(Tap(Third, Pin1))
          case Genesis3 => Some(Tap(First, Pin9))
          case Atari => None)
       case 7 =>
         (match t
          case Genesis6 => Some(Tap(First, Pin9))
          case Genesis3 => None
          case Atari => Some(Tap(Second, Pin6))))
    case D =>
      (match q
       case 4 => Some(Tap(Second, Pin1))
       case 5 => Some(Tap(Second, Pin2))
       case 6 => Some(Tap(Second, Pin3))
       case _ => None)
  }

  /** The part of the machine a poll works on: the registers and the number
      of rising select edges since power-on. */
  datatype Snapshot = Snapshot(regs: Registers, edges: nat)

  /** The select line, PORTD bit 2. */
  predicate Select(m: Snapshot) {
    Bit(m.regs.portD, 2)
  }

  /** The inputs a phase of a poll entered in state `m` reads. */
  function Sample(t: StickType, ph: Phase, m: Snapshot, pad: Pad): Inputs {
    var (e, s) := SamplePoint(t, ph, m.edges, Select(m));
    pad(e, s)
  }

  /** Bit `q` of output register `out` after one poll: select ends low, a wired
      output takes the level its line had when read, every other bit keeps its
      value. */
  predicate After(t: StickType, out: Bank, q: Pin, m: Snapshot, pad: Pad) {
    if out == D && q == 2 then false
    else match Wired(t, out, q)
      case None => Bit(m.regs.Port(out), q)
      case Some(tap) => Level(Sample(t, tap.phase, m, pad), tap.line)
  }

  /** Output bit `q` of `out` once the reads of phase `ph` are done, given the
      inputs `i` that phase sees and the bit's value `before` it: a read of this
      phase overwrites the bit with its line's level, any other bit stays. */
  predicate Staged(t: StickType, ph: Phase, out: Bank, q: Pin, i: Inputs, before: bool) {
    match Wired(t, out, q)
    case Some(tap) => if tap.phase == ph then Level(i, tap.line) else before
    case None => before
  }

  /** A phase's effect on all eight bits of `out`, from their values before. */
  function StagedAll(t: StickType, ph: Phase, out: Bank, i: Inputs, before: seq<bool>): (s: seq<bool>)
    requires |before| == 8
    ensures |s| == 8
  {
    seq(8, (k: int) requires 0 <= k < 8 => Staged(t, ph, out, k, i, before[k]))
  }

  /** `After` is the three phases done in order, each at its sample point; the
      first phase is skipped under ATARI and the third outside GENESIS6. */
  lemma AfterStaged(t: StickType, m: Snapshot, pad: Pad, out: Bank, q: Pin,
                    b1: bool, b2: bool, b3: bool, i1: Inputs, i2: Inputs, i3: Inputs)
    requires out != A && !(out == D && q == 2)
    requires t != Atari ==> i1 == Sample(t, First, m, pad)
    requires i2 == Sample(t, Second, m, pad)
    requires t == Genesis6 ==> i3 == Sample(t, Third, m, pad)
    requires b1 == if t != Atari then Staged(t, First, out, q, i1, Bit(m.regs.Port(out), q))
                   else Bit(m.regs.Port(out), q)
    requires b2 == Staged(t, Second, out, q, i2, b1)
    requires b3 == if t == Genesis6 then Staged(t, Third, out, q, i3, b2) else b2
    ensures b3 == After(t, out, q, m, pad)
  {
  }

  /** The PORTD outputs are read in the second phase only. */
  lemma AfterStagedD(t: StickType, m: Snapshot, pad: Pad, q: Pin, b: bool, i: Inputs)
    requires q != 2
    requires i == Sample(t, Second, m, pad)
    requires b == Staged(t, Second, D, q, i, Bit(m.regs.portD, q))
    ensures b == After(t, D, q, m, pad)
  {
  }

  /** The eight bits of `out` after one poll, as `After` gives them. */
  function AfterBits(t: StickType, out: Bank, m: Snapshot, pad: Pad): (s: seq<bool>)
    ensures |s| == 8
  {
    seq(8, (k: int) requires 0 <= k < 8 => After(t, out, k, m, pad))
  }

  /** The state after one poll: PORTB and PORTD as `After` gives them bit by
      bit (see PolledBit), select low, PORTA and the direction registers kept,
      and one rising edge per pulse except the first when select is already
      high. */
  function Polled(t: StickType, m: Snapshot, pad: Pad): (n: Snapshot)
    ensures !Select(n)
    ensures n.regs.portA == m.regs.portA
    ensures n.regs.ddrA == m.regs.ddrA && n.regs.ddrB == m.regs.ddrB && n.regs.ddrD == m.regs.ddrD
    ensures n.edges == m.edges + PulseCount(t) - (if Select(m) then 1 else 0)
  {
    var r := m.regs;
    Snapshot(r.(portB := FromBits((q: Pin) => After(t, B, q, m, pad)),
                portD := FromBits((q: Pin) => After(t, D, q, m, pad))),
             m.edges + Rise(Select(m)) + PulseCount(t) - 1)
  }

  /** `Polled` is the one state with those frames, those output bits and that
      edge count. */
  lemma PolledExact(t: StickType, m: Snapshot, pad: Pad, n: Snapshot)
    requires n.regs.portA == m.regs.portA
    requires n.regs.ddrA == m.regs.ddrA && n.regs.ddrB == m.regs.ddrB && n.regs.ddrD == m.regs.ddrD
    requires Bits(n.regs.portB) == AfterBits(t, B, m, pad)
    requires Bits(n.regs.portD) == AfterBits(t, D, m, pad)
    requires n.edges == m.edges + Rise(Select(m)) + PulseCount(t) - 1
    ensures n == Polled(t, m, pad)
  {
    var p := Polled(t, m, pad);
    assert Bits(p.regs.portB) == AfterBits(t, B, m, pad);
    assert Bits(p.regs.portD) == AfterBits(t, D, m, pad);
    BitsInjective(n.regs.portB, p.regs.portB);
    BitsInjective(n.regs.portD, p.regs.portD);
  }

  /** One poll in program order, on PORTB: the first phase (not ATARI), the
      second, and the third (GENESIS6 only), each reading at its sample point;
      select writes leave PORTB alone. Then PORTB ends as `After` says. */
  lemma PhasesComposeB(t: StickType, m: Snapshot, pad: Pad,
                       b1: seq<bool>, b2: seq<bool>, b3: seq<bool>,
                       i1: Inputs, i2: Inputs, i3: Inputs)
    requires t != Atari ==> i1 == Sample(t, First, m, pad)
    requires i2 == Sample(t, Second, m, pad)
    requires t == Genesis6 ==> i3 == Sample(t, Third, m, pad)
    requires b1 == if t != Atari then StagedAll(t, First, B, i1, Bits(m.regs.portB)) else Bits(m.regs.portB)
    requires b2 == StagedAll(t, Second, B, i2, b1)
    requires b3 == if t == Genesis6 then StagedAll(t, Third, B, i3, b2) else b2
    ensures b3 == AfterBits(t, B, m, pad)
  {
    forall q: Pin ensures b3[q] == AfterBits(t, B, m, pad)[q] {
      AfterStaged(t, m, pad, B, q, b1[q], b2[q], b3[q], i1, i2, i3);
    }
  }

  /** One poll in program order, on PORTD: the lead pulse (GENESIS6 only),
      select raised (not ATARI), the second phase, select lowered (not ATARI),
      the raise and drop around the third phase (GENESIS6 only), and the final
      pulse. Each select write changes bit 2 alone. Then PORTD ends as `After`
      says. */
  lemma PhasesComposeD(t: StickType, m: Snapshot, pad: Pad,
                       d1: seq<bool>, d2': seq<bool>, d2: seq<bool>, d3': seq<bool>, d3: seq<bool>, dF: seq<bool>,
                       i2: Inputs)
    requires i2 == Sample(t, Second, m, pad)
    requires d1 == if t == Genesis6 then Bits(m.regs.portD)[2 := false] else Bits(m.regs.portD)
    requires d2' == if t != Atari then d1[2 := true] else d1
    requires d2 == StagedAll(t, Second, D, i2, d2')
    requires d3' == if t != Atari then d2[2 := false] else d2
    requires d3 == if t == Genesis6 then d3'[2 := true][2 := false] else d3'
    requires dF == d3[2 := false]
    ensures dF == AfterBits(t, D, m, pad)
  {
    forall q: Pin ensures dF[q] == AfterBits(t, D, m, pad)[q] {
      if q != 2 {
        AfterStagedD(t, m, pad, q, d2[q], i2);
      }
    }
  }

  /** The state after `k` polls of the endless main loop. */
  function Polls(t: StickType, m: Snapshot, pad: Pad, k: nat): Snapshot
    decreases k
  {
    if k == 0 then m else Polls(t, Polled(t, m, pad), pad, k - 1)
  }

  /** The PORTD bits no statement of `poll` writes: D0, D1, D3 (the pins of
      joystick lines 2, 3 and 9, which are inputs) and D7, which the chip does
      not bring out. */
  predicate Unwritten(q: Pin) {
    q == 0 || q == 1 || q == 3 || q == 7
  }

  /** Every poll leaves PORTA, the direction registers and PORTD bits 0, 1, 3, 7
      alone, ends with select low (for ATARI too, since the final pulse is
      unconditional), and makes PulseCount rising edges, one fewer when select
      was already high on entry. */
  lemma PollFrame(t: StickType, m: Snapshot, pad: Pad)
    ensures var n := Polled(t, m, pad);
      && n.regs.portA == m.regs.portA
      && n.regs.ddrA == m.regs.ddrA && n.regs.ddrB == m.regs.ddrB && n.regs.ddrD == m.regs.ddrD
      && (forall q: Pin :: Unwritten(q) ==> Bit(n.regs.portD, q) == Bit(m.regs.portD, q))
      && !Select(n)
      && n.edges == m.edges + PulseCount(t) - (if Select(m) then 1 else 0)
  {
  }

  /** GENESIS6: every output is driven, each by the non-inverted level of its
      line: A0->B1 and D3->B7 after the lead pulse with select low; A2->D4,
      D0->D5, D1->D6, A1->B0, A0->B2, D3->B3 after the next raise; D1->B4,
      D0->B5, A2->B6 after the raise after that. */
  lemma Genesis6Table(m: Snapshot, pad: Pad)
    ensures var n := Polled(Genesis6, m, pad);
      var e := m.edges + Rise(Select(m));
      var lo, hi, ex := pad(e, false), pad(e + 1, true), pad(e + 2, true);
      && Bit(n.regs.portB, 1) == Bit(lo.pinA, 0)
      && Bit(n.regs.portB, 7) == Bit(lo.pinD, 3)
      && Bit(n.regs.portD, 4) == Bit(hi.pinA, 2)
      && Bit(n.regs.portD, 5) == Bit(hi.pinD, 0)
      && Bit(n.regs.portD, 6) == Bit(hi.pinD, 1)
      && Bit(n.regs.portB, 0) == Bit(hi.pinA, 1)
      && Bit(n.regs.portB, 2) == Bit(hi.pinA, 0)
      && Bit(n.regs.portB, 3) == Bit(hi.pinD, 3)
      && Bit(n.regs.portB, 4) == Bit(ex.pinD, 1)
      && Bit(n.regs.portB, 5) == Bit(ex.pinD, 0)
      && Bit(n.regs.portB, 6) == Bit(ex.pinA, 2)
  {
    Genesis6First(m, pad);
    Genesis6Second(m, pad);
    Genesis6Third(m, pad);
  }

  /** GENESIS6, the reads after the lead pulse, with select low. */
  lemma Genesis6First(m: Snapshot, pad: Pad)
    ensures var n := Polled(Genesis6, m, pad);
      var lo := pad(m.edges + Rise(Select(m)), false);
      && Bit(n.regs.portB, 1) == Bit(lo.pinA, 0)
      && Bit(n.regs.portB, 7) == Bit(lo.pinD, 3)
  {
    var n := Polled(Genesis6, m, pad);
    assert SamplePoint(Genesis6, First, m.edges, Select(m)) == (m.edges + Rise(Select(m)), false);
    assert Bit(n.regs.portB, 1) == After(Genesis6, B, 1, m, pad);
    assert Bit(n.regs.portB, 7) == After(Genesis6, B, 7, m, pad);
  }

  /** GENESIS6, the reads after the next raise. */
  lemma Genesis6Second(m: Snapshot, pad: Pad)
    ensures var n := Polled(Genesis6, m, pad);
      var hi := pad(m.edges + Rise(Select(m)) + 1, true);
      && Bit(n.regs.portD, 4) == Bit(hi.pinA, 2)
      && Bit(n.regs.portD, 5) == Bit(hi.pinD, 0)
      && Bit(n.regs.portD, 6) == Bit(hi.pinD, 1)
      && Bit(n.regs.portB, 0) == Bit(hi.pinA, 1)
      && Bit(n.regs.portB, 2) == Bit(hi.pinA, 0)
      && Bit(n.regs.portB, 3) == Bit(hi.pinD, 3)
  {
    var n := Polled(Genesis6, m, pad);
    assert SamplePoint(Genesis6, Second, m.edges, Select(m)) == (m.edges + Rise(Select(m)) + 1, true);
    assert Bit(n.regs.portB, 0) == After(Genesis6, B, 0, m, pad);
    assert Bit(n.regs.portB, 2) == After(Genesis6, B, 2, m, pad);
    assert Bit(n.regs.portB, 3) == After(Genesis6, B, 3, m, pad);
    assert Bit(n.regs.portD, 4) == After(Genesis6, D, 4, m, pad);
    assert Bit(n.regs.portD, 5) == After(Genesis6, D, 5, m, pad);
    assert Bit(n.regs.portD, 6) == After(Genesis6, D, 6, m, pad);
  }

  /** GENESIS6, the extra reads after the raise after that. */
  lemma Genesis6Third(m: Snapshot, pad: Pad)
    ensures var n := Polled(Genesis6, m, pad);
      var ex := pad(m.edges + Rise(Select(m)) + 2, true);
      && Bit(n.regs.portB, 4) == Bit(ex.pinD, 1)
      && Bit(n.regs.portB, 5) == Bit(ex.pinD, 0)
      && Bit(n.regs.portB, 6) == Bit(ex.pinA, 2)
  {
    var n := Polled(Genesis6, m, pad);
    assert SamplePoint(Genesis6, Third, m.edges, Select(m)) == (m.edges + Rise(Select(m)) + 2, true);
    assert Bit(n.regs.portB, 4) == After(Genesis6, B, 4, m, pad);
    assert Bit(n.regs.portB, 5) == After(Genesis6, B, 5, m, pad);
    assert Bit(n.regs.portB, 6) == After(Genesis6, B, 6, m, pad);
  }

  /** GENESIS3: Start (D3), read in the first phase, drives Z (B6) and never
      Start (B7); X, Y and Start keep their values. The first phase happens at
      the entry select level, with no edge before it. */
  lemma Genesis3Table(m: Snapshot, pad: Pad)
    ensures var n := Polled(Genesis3, m, pad);
      var p0, hi := pad(m.edges, Select(m)), pad(m.edges + Rise(Select(m)), true);
      && Bit(n.regs.portB, 1) == Bit(p0.pinA, 0)
      && Bit(n.regs.portB, 6) == Bit(p0.pinD, 3)
      && Bit(n.regs.portD, 4) == Bit(hi.pinA, 2)
      && Bit(n.regs.portD, 5) == Bit(hi.pinD, 0)
      && Bit(n.regs.portD, 6) == Bit(hi.pinD, 1)
      && Bit(n.regs.portB, 0) == Bit(hi.pinA, 1)
      && Bit(n.regs.portB, 2) == Bit(hi.pinA, 0)
      && Bit(n.regs.portB, 3) == Bit(hi.pinD, 3)
      && Bit(n.regs.portB, 4) == Bit(m.regs.portB, 4)
      && Bit(n.regs.portB, 5) == Bit(m.regs.portB, 5)
      && Bit(n.regs.portB, 7) == Bit(m.regs.portB, 7)
  {
    var n := Polled(Genesis3, m, pad);
    assert SamplePoint(Genesis3, First, m.edges, Select(m)) == (m.edges, Select(m));
    assert SamplePoint(Genesis3, Second, m.edges, Select(m)) == (m.edges + Rise(Select(m)), true);
    Genesis3Bits(m, pad);
  }

  /** Each GENESIS3 output bit is its `After` bit. */
  lemma Genesis3Bits(m: Snapshot, pad: Pad)
    ensures var n := Polled(Genesis3, m, pad);
      && Bit(n.regs.portB, 0) == After(Genesis3, B, 0, m, pad)
      && Bit(n.regs.portB, 1) == After(Genesis3, B, 1, m, pad)
      && Bit(n.regs.portB, 2) == After(Genesis3, B, 2, m, pad)
      && Bit(n.regs.portB, 3) == After(Genesis3, B, 3, m, pad)
      && Bit(n.regs.portB, 4) == After(Genesis3, B, 4, m, pad)
      && Bit(n.regs.portB, 5) == After(Genesis3, B, 5, m, pad)
      && Bit(n.regs.portB, 6) == After(Genesis3, B, 6, m, pad)
      && Bit(n.regs.portB, 7) == After(Genesis3, B, 7, m, pad)
      && Bit(n.regs.portD, 4) == After(Genesis3, D, 4, m, pad)
      && Bit(n.regs.portD, 5) == After(Genesis3, D, 5, m, pad)
      && Bit(n.regs.portD, 6) == After(Genesis3, D, 6, m, pad)
  {
  }

  /** ATARI: all reads happen before any edge, at the entry select level; A0
      drives Start (B7) and D3 drives C (B3); A, B, X, Y and Z keep their values. */
  lemma AtariTable(m: Snapshot, pad: Pad)
    ensures var n := Polled(Atari, m, pad);
      var p := pad(m.edges, Select(m));
      && Bit(n.regs.portD, 4) == Bit(p.pinA, 2)
      && Bit(n.regs.portD, 5) == Bit(p.pinD, 0)
      && Bit(n.regs.portD, 6) == Bit(p.pinD, 1)
      && Bit(n.regs.portB, 0) == Bit(p.pinA, 1)
      && Bit(n.regs.portB, 7) == Bit(p.pinA, 0)
      && Bit(n.regs.portB, 3) == Bit(p.pinD, 3)
      && Bit(n.regs.portB, 1) == Bit(m.regs.portB, 1)
      && Bit(n.regs.portB, 2) == Bit(m.regs.portB, 2)
      && Bit(n.regs.portB, 4) == Bit(m.regs.portB, 4)
      && Bit(n.regs.portB, 5) == Bit(m.regs.portB, 5)
      && Bit(n.regs.portB, 6) == Bit(m.regs.portB, 6)
  {
  }

  /** Each output bit of PORTB and PORTD after a poll is the one `After` gives. */
  lemma PolledBit(t: StickType, m: Snapshot, pad: Pad, out: Bank, q: Pin)
    requires out != A
    ensures Bit(Polled(t, m, pad).regs.Port(out), q) == After(t, out, q, m, pad)
  {
  }

  /** A read of a poll entered `d` edges later, select low both times, sees
      what the same read of the earlier poll saw through `Shift(pad, d)`. */
  lemma AfterReplay(t: StickType, out: Bank, q: Pin, m: Snapshot, m': Snapshot, pad: Pad, d: nat)
    requires !Select(m) && !Select(m') && m'.edges == m.edges + d
    requires Wired(t, out, q).Some?
    ensures After(t, out, q, m', pad) == After(t, out, q, m, Shift(pad, d))
  {
    var tap := Wired(t, out, q).value;
    var (e, s) := SamplePoint(t, tap.phase, m.edges, false);
    assert SamplePoint(t, tap.phase, m'.edges, false) == (e + d, s);
  }

  lemma ReplayBit(t: StickType, m: Snapshot, pad: Pad, out: Bank, q: Pin)
    requires !Select(m) && out != A
    ensures var n1 := Polled(t, m, Shift(pad, PulseCount(t)));
      Bit(Polled(t, n1, pad).regs.Port(out), q) == Bit(n1.regs.Port(out), q)
  {
    var d := PulseCount(t);
    var n1 := Polled(t, m, Shift(pad, d));
    PollFrame(t, m, Shift(pad, d));
    PolledBit(t, n1, pad, out, q);
    PolledBit(t, m, Shift(pad, d), out, q);
    if Wired(t, out, q).Some? {
      AfterReplay(t, out, q, m, n1, pad, d);
    }
  }

  /** No drift: when select is low on entry and the controller answers a
      second poll as it answered the first, the second poll leaves every
      register exactly as the first left it. */
  lemma PollIdempotent(t: StickType, m: Snapshot, pad: Pad)
    requires !Select(m)
    ensures var n1 := Polled(t, m, Shift(pad, PulseCount(t)));
      Polled(t, n1, pad).regs == n1.regs
  {
    var n1 := Polled(t, m, Shift(pad, PulseCount(t)));
    var b2, d2 := Polled(t, n1, pad).regs.portB, Polled(t, n1, pad).regs.portD;
    forall q: Pin ensures Bit(b2, q) == Bit(n1.regs.portB, q) && Bit(d2, q) == Bit(n1.regs.portD, q) {
      ReplayBit(t, m, pad, B, q);
      ReplayBit(t, m, pad, D, q);
    }
    BitsDetermine(b2, n1.regs.portB);
    BitsDetermine(d2, n1.regs.portD);
  }

  /** Over any number of polls, PORTA and the direction registers keep their
      values. */
  lemma {:induction false} PollsFrame(t: StickType, m: Snapshot, pad: Pad, k: nat)
    ensures var n := Polls(t, m, pad, k);
      && n.regs.portA == m.regs.portA
      && n.regs.ddrA == m.regs.ddrA && n.regs.ddrB == m.regs.ddrB && n.regs.ddrD == m.regs.ddrD
    decreases k
  {
    if k > 0 {
      PollFrame(t, m, pad);
      PollsFrame(t, Polled(t, m, pad), pad, k - 1);
    }
  }

  /** Over any number of polls, the PORTD bits no poll writes keep their
      values. */
  lemma {:induction false} PollsKeepUnwritten(t: StickType, m: Snapshot, pad: Pad, k: nat, q: Pin)
    requires Unwritten(q)
    ensures Bit(Polls(t, m, pad, k).regs.portD, q) == Bit(m.regs.portD, q)
    decreases k
  {
    if k > 0 {
      PollFrame(t, m, pad);
      PollsKeepUnwritten(t, Polled(t, m, pad), pad, k - 1, q);
    }
  }

  /** Over any number of polls, select is low after the first, and the edge
      count grows by PulseCount per poll, one fewer when select started high. */
  lemma {:induction false} PollsEdges(t: StickType, m: Snapshot, pad: Pad, k: nat)
    ensures var n := Polls(t, m, pad, k);
      && (k > 0 ==> !Select(n))
      && n.edges == m.edges + k * PulseCount(t) - (if k > 0 && Select(m) then 1 else 0)
    decreases k
  {
    if k > 0 {
      PollFrame(t, m, pad);
      PollsEdges(t, Polled(t, m, pad), pad, k - 1);
      assert k * PulseCount(t) == (k - 1) * PulseCount(t) + PulseCount(t);
    }
  }

  /** An output the table gives no read for the current type never changes,
      however many polls run: under GENESIS3 Start, X and Y; under ATARI A, B,
      X, Y and Z. */
  lemma {:induction false} UnwiredStable(t: StickType, m: Snapshot, pad: Pad, k: nat, out: Bank, q: Pin)
    requires Wired(t, out, q) == None && !(out == D && q == 2)
    ensures Bit(Polls(t, m, pad, k).regs.Port(out), q) == Bit(m.regs.Port(out), q)
    decreases k
  {
    if k > 0 {
      if out == A {
        PollFrame(t, m, pad);
      } else {
        PolledBit(t, m, pad, out, q);
      }
      UnwiredStable(t, Polled(t, m, pad), pad, k - 1, out, q);
    }
  }

  /** The boot-time classification (genesis.c main): the first probe, taken
      with select raised, wins; then the second, taken with select low; with
      neither, `sticktype` keeps its initial GENESIS6. */
  function Classify(first: bool, second: bool): (t: StickType)
    ensures t == Atari <==> first
    ensures t == Genesis3 <==> !first && second
    ensures t == Genesis6 <==> !first && !second
  {
    if first then Atari else if second then Genesis3 else Genesis6
  }

  /** `if (ReadInverted(A,0))`: the probe of the shared A/B line, PORTA bit 0,
      through a given inverted-read function. */
  predicate Probe(readInverted: (bv8, Pin) -> bv8, i: Inputs) {
    readInverted(i.pinA, 0) != 0
  }

  /** With the inverted read as the header writes it, detection gives GENESIS6
      whatever the probes read. */
  lemma DetectLiteral(hi: Inputs, lo: Inputs)
    ensures Classify(Probe(ReadInverted, hi), Probe(ReadInverted, lo)) == Genesis6
  {
    ReadInvertedAlwaysZero(hi.pinA, 0);
    ReadInvertedAlwaysZero(lo.pinA, 0);
  }

  /** With the intended inverted read, detection is decided by the level of
      line 6 in the two probes, in order: low with select high gives ATARI,
      otherwise low with select low gives GENESIS3, otherwise GENESIS6. */
  lemma DetectIntended(hi: Inputs, lo: Inputs)
    ensures var t := Classify(Probe(ReadInvertedIntended, hi), Probe(ReadInvertedIntended, lo));
      && (t == Atari <==> !Level(hi, Pin6))
      && (t == Genesis3 <==> Level(hi, Pin6) && !Level(lo, Pin6))
      && (t == Genesis6 <==> Level(hi, Pin6) && Level(lo, Pin6))
  {
  }
}
