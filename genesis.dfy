/** The adapter program: the select-line helpers, one poll of the protocol,
    and the boot sequence of main (register init, controller detection and
    reset pulses). Each works on the chip's registers in place, and each is
    proved against the definitions of module Protocol. */
module Genesis {
  import opened AvrGeneral
  import opened Protocol

  /** Settle time after every select change, in microseconds. */
  const PULSEPAD: nat := 10
  /** Pause between polls, in milliseconds. */
  const POLLDELAY: nat := 8

  /** `n` select pulses as the strobe log records them: up, then down. */
  function Pulses(n: nat): (s: seq<bool>)
    ensures |s| == 2 * n
    ensures forall i :: 0 <= i < |s| ==> s[i] == (i % 2 == 0)
  {
    if n == 0 then [] else [true, false] + Pulses(n - 1)
  }

  /** The select writes of boot's detection and reset, per detected type. */
  function BootStrobe(t: StickType): seq<bool> {
    match t
    case Atari => [true]
    case Genesis3 => [true, false, true]
    case Genesis6 => [true, false, true] + Pulses(3)
  }

  /** The number of `selectUp` calls in a strobe log. */
  function Ups(s: seq<bool>): nat {
    if s == [] then 0 else (if s[0] then 1 else 0) + Ups(s[1..])
  }

  /** Boot calls `selectUp` once for ATARI, twice for GENESIS3 and five times
      for GENESIS6. */
  lemma BootUps(t: StickType)
    ensures Ups(BootStrobe(t)) == match t case Atari => 1 case Genesis3 => 2 case Genesis6 => 5
  {
    var g3 := [true, false, true];
    assert g3[1..] == [false, true] && g3[1..][1..] == [true];
    if t == Genesis6 {
      UpsAppend(g3, Pulses(3));
      UpsPulses(3);
    }
  }

  lemma {:induction false} UpsAppend(s: seq<bool>, u: seq<bool>)
    ensures Ups(s + u) == Ups(s) + Ups(u)
  {
    if s != [] {
      assert (s + u)[0] == s[0] && (s + u)[1..] == s[1..] + u;
      UpsAppend(s[1..], u);
    } else {
      assert s + u == u;
    }
  }

  /** Each pulse is one `selectUp` call. */
  lemma {:induction false} UpsPulses(n: nat)
    ensures Ups(Pulses(n)) == n
  {
    if n > 0 {
      UpsAppend([true, false], Pulses(n - 1));
      assert [true, false][1..] == [false];
      UpsPulses(n - 1);
    }
  }

  /** The start block's writes, in the order `poll` makes them, are the
      first phase of the table. */
  lemma StartTaps(t: StickType, i: Inputs, before: seq<bool>)
    requires t != Atari && |before| == 8
    ensures t == Genesis6 ==> StagedAll(t, First, B, i, before) == before[1 := Bit(i.pinA, 0)][7 := Bit(i.pinD, 3)]
    ensures t == Genesis3 ==> StagedAll(t, First, B, i, before) == before[1 := Bit(i.pinA, 0)][6 := Bit(i.pinD, 3)]
  {
  }

  /** The middle block's PORTB writes are the second phase of the table. */
  lemma PadTapsB(t: StickType, i: Inputs, before: seq<bool>)
    requires |before| == 8
    ensures t == Atari ==>
      StagedAll(t, Second, B, i, before) == before[0 := Bit(i.pinA, 1)][7 := Bit(i.pinA, 0)][3 := Bit(i.pinD, 3)]
    ensures t != Atari ==>
      StagedAll(t, Second, B, i, before) == before[0 := Bit(i.pinA, 1)][2 := Bit(i.pinA, 0)][3 := Bit(i.pinD, 3)]
  {
  }

  /** The middle block's PORTD writes are the second phase of the table. */
  lemma PadTapsD(t: StickType, i: Inputs, before: seq<bool>)
    requires |before| == 8
    ensures StagedAll(t, Second, D, i, before) ==
      before[4 := Bit(i.pinA, 2)][5 := Bit(i.pinD, 0)][6 := Bit(i.pinD, 1)]
  {
  }

  /** The six-button block's writes are the third phase of the table. */
  lemma ExtraTaps(i: Inputs, before: seq<bool>)
    requires |before| == 8
    ensures StagedAll(Genesis6, Third, B, i, before) ==
      before[4 := Bit(i.pinD, 1)][5 := Bit(i.pinD, 0)][6 := Bit(i.pinA, 2)]
  {
  }

  /** The inputs the chip sees in state `n`. */
  function Seen(n: Snapshot, pad: Pad): Inputs {
    pad(n.edges, Select(n))
  }

  /** `selectUp` on a snapshot: select (PORTD bit 2) set, which is a rising
      edge when it was low; nothing else changes. */
  function Raised(n: Snapshot): (r: Snapshot)
    ensures Bits(r.regs.portD) == Bits(n.regs.portD)[2 := true] && Select(r)
    ensures r.regs.portA == n.regs.portA && r.regs.portB == n.regs.portB
    ensures r.regs.ddrA == n.regs.ddrA && r.regs.ddrB == n.regs.ddrB && r.regs.ddrD == n.regs.ddrD
    ensures r.edges == n.edges + Rise(Select(n))
  {
    BitsUpdate(n.regs.portD, 2);
    Snapshot(n.regs.(portD := SetBit(n.regs.portD, 2)), n.edges + Rise(Select(n)))
  }

  /** `selectDown` on a snapshot: select cleared, no edge, nothing else changes. */
  function Lowered(n: Snapshot): (r: Snapshot)
    ensures Bits(r.regs.portD) == Bits(n.regs.portD)[2 := false] && !Select(r)
    ensures r.regs.portA == n.regs.portA && r.regs.portB == n.regs.portB
    ensures r.regs.ddrA == n.regs.ddrA && r.regs.ddrB == n.regs.ddrB && r.regs.ddrD == n.regs.ddrD
    ensures r.edges == n.edges
  {
    BitsUpdate(n.regs.portD, 2);
    Snapshot(n.regs.(portD := ClearBit(n.regs.portD, 2)), n.edges)
  }

  /** `selectPulse` on a snapshot: select ends low after at most one rising
      edge; the other bits of PORTD and the other registers keep their values. */
  function Pulsed(n: Snapshot): (r: Snapshot)
    ensures Bits(r.regs.portD) == Bits(n.regs.portD)[2 := false] && !Select(r)
    ensures r.regs.portA == n.regs.portA && r.regs.portB == n.regs.portB
    ensures r.regs.ddrA == n.regs.ddrA && r.regs.ddrB == n.regs.ddrB && r.regs.ddrD == n.regs.ddrD
    ensures r.edges == n.edges + Rise(Select(n))
  {
    var r := Lowered(Raised(n));
    assert Bits(r.regs.portD) == Bits(n.regs.portD)[2 := true][2 := false];
    r
  }

  /** One phase of reads and writes on a snapshot: every output the table
      wires to this phase takes its line's level in the inputs seen now. */
  function PhaseDone(t: StickType, ph: Phase, n: Snapshot, pad: Pad): (r: Snapshot)
    ensures Bits(r.regs.portB) == StagedAll(t, ph, B, Seen(n, pad), Bits(n.regs.portB))
    ensures Bits(r.regs.portD) == StagedAll(t, ph, D, Seen(n, pad), Bits(n.regs.portD))
    ensures Select(r) == Select(n)
    ensures r.regs.portA == n.regs.portA
    ensures r.regs.ddrA == n.regs.ddrA && r.regs.ddrB == n.regs.ddrB && r.regs.ddrD == n.regs.ddrD
    ensures r.edges == n.edges
  {
    var i := Seen(n, pad);
    assert StagedAll(t, ph, D, i, Bits(n.regs.portD))[2] == Bits(n.regs.portD)[2];
    Snapshot(n.regs.(portB := FromSeq(StagedAll(t, ph, B, i, Bits(n.regs.portB))),
                     portD := FromSeq(StagedAll(t, ph, D, i, Bits(n.regs.portD)))),
             n.edges)
  }

  /** Only the middle phase writes PORTD. */
  lemma PortDSecondOnly(t: StickType, ph: Phase, i: Inputs, before: seq<bool>)
    requires ph != Second && |before| == 8
    ensures StagedAll(t, ph, D, i, before) == before
  {
    assert forall q: Pin :: StagedAll(t, ph, D, i, before)[q] == before[q];
  }

  /** `poll` step by step, in the order of the code. */
  function InOrder(t: StickType, m: Snapshot, pad: Pad): Snapshot {
    var n1 := if t == Genesis6 then Pulsed(m) else m;
    var n2 := if t != Atari then PhaseDone(t, First, n1, pad) else n1;
    var n3 := if t != Atari then Raised(n2) else n2;
    var n4 := PhaseDone(t, Second, n3, pad);
    var n5 := if t != Atari then Lowered(n4) else n4;
    var n6 := if t == Genesis6 then Lowered(PhaseDone(t, Third, Raised(n5), pad)) else n5;
    Pulsed(n6)
  }

  /** The code's steps, done in order, give the table's poll: each phase reads
      at its sample point, and the state ends as `Polled` says. */
  lemma InOrderIsPolled(t: StickType, m: Snapshot, pad: Pad)
    ensures InOrder(t, m, pad) == Polled(t, m, pad)
  {
    match t
    case Genesis6 => InOrderGenesis6(m, pad);
    case Genesis3 => InOrderGenesis3(m, pad);
    case Atari => InOrderAtari(m, pad);
  }

  /** Under GENESIS6 the three phases read after the lead pulse's edge, and
      after the next and the one after that. */
  lemma Genesis6Samples(m: Snapshot, pad: Pad)
    ensures var n1 := Pulsed(m);
      var n3 := Raised(PhaseDone(Genesis6, First, n1, pad));
      var n5 := Raised(Lowered(PhaseDone(Genesis6, Second, n3, pad)));
      && Seen(n1, pad) == Sample(Genesis6, First, m, pad)
      && Seen(n3, pad) == Sample(Genesis6, Second, m, pad)
      && Seen(n5, pad) == Sample(Genesis6, Third, m, pad)
  {
  }

  lemma Genesis6PortB(m: Snapshot, pad: Pad)
    ensures Bits(InOrder(Genesis6, m, pad).regs.portB) == AfterBits(Genesis6, B, m, pad)
  {
    var t := Genesis6;
    var n1 := Pulsed(m);
    var n2 := PhaseDone(t, First, n1, pad);
    var n3 := Raised(n2);
    var n4 := PhaseDone(t, Second, n3, pad);
    var n5 := Raised(Lowered(n4));
    var n6 := PhaseDone(t, Third, n5, pad);
    Genesis6Samples(m, pad);
    PhasesComposeB(t, m, pad, Bits(n2.regs.portB), Bits(n4.regs.portB), Bits(n6.regs.portB),
                   Seen(n1, pad), Seen(n3, pad), Seen(n5, pad));
  }

  lemma Genesis6PortD(m: Snapshot, pad: Pad)
    ensures Bits(InOrder(Genesis6, m, pad).regs.portD) == AfterBits(Genesis6, D, m, pad)
  {
    var t := Genesis6;
    var n1 := Pulsed(m);
    var n2 := PhaseDone(t, First, n1, pad);
    var n3 := Raised(n2);
    var n4 := PhaseDone(t, Second, n3, pad);
    var n5 := Lowered(n4);
    var n5' := Raised(n5);
    var n6 := Lowered(PhaseDone(t, Third, n5', pad));
    PortDSecondOnly(t, First, Seen(n1, pad), Bits(n1.regs.portD));
    PortDSecondOnly(t, Third, Seen(n5', pad), Bits(n5'.regs.portD));
    Genesis6Samples(m, pad);
    PhasesComposeD(t, m, pad, Bits(n1.regs.portD), Bits(n3.regs.portD), Bits(n4.regs.portD),
                   Bits(n5.regs.portD), Bits(n6.regs.portD), Bits(Pulsed(n6).regs.portD), Seen(n3, pad));
  }

  lemma InOrderGenesis6(m: Snapshot, pad: Pad)
    ensures InOrder(Genesis6, m, pad) == Polled(Genesis6, m, pad)
  {
    Genesis6PortB(m, pad);
    Genesis6PortD(m, pad);
    PolledExact(Genesis6, m, pad, InOrder(Genesis6, m, pad));
  }

  lemma InOrderGenesis3(m: Snapshot, pad: Pad)
    ensures InOrder(Genesis3, m, pad) == Polled(Genesis3, m, pad)
  {
    Genesis3PortB(m, pad);
    Genesis3PortD(m, pad);
    PolledExact(Genesis3, m, pad, InOrder(Genesis3, m, pad));
  }

  lemma Genesis3PortB(m: Snapshot, pad: Pad)
    ensures Bits(InOrder(Genesis3, m, pad).regs.portB) == AfterBits(Genesis3, B, m, pad)
  {
    var t := Genesis3;
    var n2 := PhaseDone(t, First, m, pad);
    var n3 := Raised(n2);
    var n4 := PhaseDone(t, Second, n3, pad);
    assert Seen(m, pad) == Sample(t, First, m, pad);
    assert Seen(n3, pad) == Sample(t, Second, m, pad);
    PhasesComposeB(t, m, pad, Bits(n2.regs.portB), Bits(n4.regs.portB), Bits(n4.regs.portB),
                   Seen(m, pad), Seen(n3, pad), Seen(m, pad));
  }

  lemma Genesis3PortD(m: Snapshot, pad: Pad)
    ensures Bits(InOrder(Genesis3, m, pad).regs.portD) == AfterBits(Genesis3, D, m, pad)
  {
    var t := Genesis3;
    var n2 := PhaseDone(t, First, m, pad);
    var n3 := Raised(n2);
    var n4 := PhaseDone(t, Second, n3, pad);
    var n5 := Lowered(n4);
    PortDSecondOnly(t, First, Seen(m, pad), Bits(m.regs.portD));
    assert Seen(n3, pad) == Sample(t, Second, m, pad);
    PhasesComposeD(t, m, pad, Bits(m.regs.portD), Bits(n3.regs.portD), Bits(n4.regs.portD),
                   Bits(n5.regs.portD), Bits(n5.regs.portD), Bits(Pulsed(n5).regs.portD), Seen(n3, pad));
  }

  lemma InOrderAtari(m: Snapshot, pad: Pad)
    ensures InOrder(Atari, m, pad) == Polled(Atari, m, pad)
  {
    var t := Atari;
    var n4 := PhaseDone(t, Second, m, pad);
    var nF := Pulsed(n4);
    assert Seen(m, pad) == Sample(t, Second, m, pad);
    PhasesComposeB(t, m, pad, Bits(m.regs.portB), Bits(n4.regs.portB), Bits(n4.regs.portB),
                   Seen(m, pad), Seen(m, pad), Seen(m, pad));
    PhasesComposeD(t, m, pad, Bits(m.regs.portD), Bits(m.regs.portD), Bits(n4.regs.portD),
                   Bits(n4.regs.portD), Bits(n4.regs.portD), Bits(nF.regs.portD), Seen(m, pad));
    PolledExact(t, m, pad, nF);
  }

  /** The same, for snapshots taken between the steps. */
  lemma StepsArePolled(t: StickType, m: Snapshot, pad: Pad,
                       n1: Snapshot, n2: Snapshot, n3: Snapshot, n4: Snapshot, n5: Snapshot, n6: Snapshot,
                       nF: Snapshot)
    requires n1 == if t == Genesis6 then Pulsed(m) else m
    requires n2 == if t != Atari then PhaseDone(t, First, n1, pad) else n1
    requires n3 == if t != Atari then Raised(n2) else n2
    requires n4 == PhaseDone(t, Second, n3, pad)
    requires n5 == if t != Atari then Lowered(n4) else n4
    requires n6 == if t == Genesis6 then Lowered(PhaseDone(t, Third, Raised(n5), pad)) else n5
    requires nF == Pulsed(n6)
    ensures nF == Polled(t, m, pad)
  {
    InOrderIsPolled(t, m, pad);
  }

  /** The select writes of one poll: a pulse (GENESIS6), a raise and a drop
      (not ATARI), a pulse (GENESIS6) and the final pulse make PulseCount
      pulses. */
  lemma PollStrobe(t: StickType, l0: seq<bool>, l1: seq<bool>, l3: seq<bool>, l5: seq<bool>,
                   l6: seq<bool>, lF: seq<bool>)
    requires l1 == if t == Genesis6 then l0 + Pulses(1) else l0
    requires l3 == if t != Atari then l1 + [true] else l1
    requires l5 == if t != Atari then l3 + [false] else l3
    requires l6 == if t == Genesis6 then l5 + Pulses(1) else l5
    requires lF == l6 + Pulses(1)
    ensures lF == l0 + Pulses(PulseCount(t))
  {
    assert Pulses(1) == [true, false];
    assert Pulses(2) == [true, false] + Pulses(1);
    assert Pulses(4) == [true, false] + [true, false] + Pulses(2);
  }

  /** Boot's select writes from the state init leaves: ATARI keeps select
      high, GENESIS3 lowers and raises it (one edge), GENESIS6 also pulses it
      three times (two more edges) and leaves it low. */
  lemma BootSteps(t: StickType, n: Snapshot, n1: Snapshot, nF: Snapshot)
    requires n.regs == Registers(0xFF, 0xFF, 0x74, 0x00, 0xFF, 0x74)
    requires n1 == if t == Atari then Raised(n) else Lowered(Raised(n))
    requires nF == match t
      case Atari => n1
      case Genesis3 => Raised(n1)
      case Genesis6 => Pulsed(Pulsed(Pulsed(Raised(n1))))
    ensures nF.regs == Registers(0xFF, 0xFF, if t == Genesis6 then 0x70 else 0x74, 0x00, 0xFF, 0x74)
    ensures nF.edges == n.edges + (match t case Atari => 0 case Genesis3 => 1 case Genesis6 => 3)
  {
  }

  /** A snapshot with PhaseDone's frames, bits and edge count is PhaseDone's. */
  lemma PhaseDoneExact(t: StickType, ph: Phase, n: Snapshot, pad: Pad, r: Snapshot)
    requires Bits(r.regs.portB) == StagedAll(t, ph, B, Seen(n, pad), Bits(n.regs.portB))
    requires Bits(r.regs.portD) == StagedAll(t, ph, D, Seen(n, pad), Bits(n.regs.portD))
    requires r.regs.portA == n.regs.portA
    requires r.regs.ddrA == n.regs.ddrA && r.regs.ddrB == n.regs.ddrB && r.regs.ddrD == n.regs.ddrD
    requires r.edges == n.edges
    ensures r == PhaseDone(t, ph, n, pad)
  {
    var p := PhaseDone(t, ph, n, pad);
    BitsInjective(r.regs.portB, p.regs.portB);
    BitsInjective(r.regs.portD, p.regs.portD);
  }

  /** The chip running the adapter program, with the controller attached. */
  class Adapter {
    /** PORTA/B/D and DDRA/B/D. */
    const io: Ports
    /** The detected controller type; set once by Boot. */
    var sticktype: StickType
    /** Rising edges of the select line since power-on: what the controller's
        multiplexer counts. Environment state, not a variable of the program. */
    var edges: nat
    /** Every select write, in order, each followed by a PULSEPAD settle delay. */
    ghost var strobe: seq<bool>

    /** Power-on: `sticktype` holds its initializer, GENESIS6. */
    constructor ()
      ensures fresh(io) && io.Regs() == Registers(0, 0, 0, 0, 0, 0)
      ensures sticktype == Genesis6 && edges == 0 && strobe == []
    {
      io := new Ports();
      sticktype := Genesis6;
      edges := 0;
      strobe := [];
    }

    /** The registers and the edge count. */
    function State(): Snapshot
      reads this, io
    {
      Snapshot(io.Regs(), edges)
    }

    /** The level of the select line, PORTD bit 2. */
    predicate SelectLevel()
      reads io`portD
    {
      Bit(io.portD, 2)
    }

    /** PINA at this moment. */
    function PinA(pad: Pad): bv8
      reads this`edges, io`portD
    {
      pad(edges, SelectLevel()).pinA
    }

    /** PIND at this moment. */
    function PinD(pad: Pad): bv8
      reads this`edges, io`portD
    {
      pad(edges, SelectLevel()).pinD
    }

    /** `selectUp`: raise select, then settle. */
    method SelectUp()
      modifies this, io
      ensures State() == Raised(old(State()))
      ensures strobe == old(strobe) + [true]
      ensures sticktype == old(sticktype)
    {
      if !SelectLevel() {
        edges := edges + 1;
      }
      io.On(D, 2);
      strobe := strobe + [true];
    }

    /** `selectDown`: drop select, then settle. */
    method SelectDown()
      modifies this, io
      ensures State() == Lowered(old(State()))
      ensures strobe == old(strobe) + [false]
      ensures sticktype == old(sticktype)
    {
      io.Off(D, 2);
      strobe := strobe + [false];
    }

    /** `selectPulse`: one rising edge (none if select was already high), and
        select ends low. */
    method SelectPulse()
      modifies this, io
      ensures State() == Pulsed(old(State()))
      ensures strobe == old(strobe) + Pulses(1)
      ensures sticktype == old(sticktype)
    {
      SelectUp();
      SelectDown();
    }

    /** Copy one read bit to an output bit, `if (Read(..)) On(..) else Off(..)`,
        on PORTB or PORTD. */
    method Drive(level: bv8, out: Bank, q: Pin)
      requires out != A
      modifies io
      ensures io.portA == old(io.portA)
      ensures io.ddrA == old(io.ddrA) && io.ddrB == old(io.ddrB) && io.ddrD == old(io.ddrD)
      ensures out == B ==> io.portD == old(io.portD) && Bits(io.portB) == Bits(old(io.portB))[q := level != 0]
      ensures out == D ==> io.portB == old(io.portB) && Bits(io.portD) == Bits(old(io.portD))[q := level != 0]
      ensures q != 2 ==> SelectLevel() == old(SelectLevel())
    {
      BitsUpdate(io.Regs().Port(out), q);
      if level != 0 {
        io.On(out, q);
      } else {
        io.Off(out, q);
      }
      if out == B {
        assert io.portB == Put(old(io.portB), q, level != 0);
      } else {
        assert io.portD == Put(old(io.portD), q, level != 0);
      }
    }

    /** The first block of `poll`, run on GENESIS sticks only: the first
        phase of the table. */
    method StartPhase(pad: Pad)
      modifies io
      ensures State() == if sticktype != Atari then PhaseDone(sticktype, First, old(State()), pad) else old(State())
    {
      if sticktype.Code() < STICK_ATARI {
        ghost var n := State();
        StartButtons(pad);
        PortDSecondOnly(sticktype, First, Seen(n, pad), Bits(io.portD));
        PhaseDoneExact(sticktype, First, n, pad, State());
      }
    }

    /** The writes of the first block: A (line 6) to B1, and line 9 to Start
        (B7) on a six-button pad or to Z (B6) on a three-button one. */
    method StartButtons(pad: Pad)
      requires sticktype != Atari
      modifies io
      ensures io.portA == old(io.portA) && io.portD == old(io.portD)
      ensures io.ddrA == old(io.ddrA) && io.ddrB == old(io.ddrB) && io.ddrD == old(io.ddrD)
      ensures Bits(io.portB) == StagedAll(sticktype, First, B, old(Seen(State(), pad)), Bits(old(io.portB)))
    {
      ghost var i, b := Seen(State(), pad), Bits(io.portB);
      StartTaps(sticktype, i, b);
      Drive(Read(PinA(pad), 0), B, 1);
      if sticktype.Code() == STICK_GENESIS6 {
        Drive(Read(PinD(pad), 3), B, 7);
      } else {
        Drive(Read(PinD(pad), 3), B, 6);
      }
    }

    /** The middle block of `poll`, with select high (or, for ATARI, where it
        was): Up, Down and Left to D4-D6, Right to B0, line 6 to B (B2) or to
        the ATARI fire output B7, line 9 to C (B3). */
    method PadPhase(pad: Pad)
      modifies io
      ensures State() == PhaseDone(sticktype, Second, old(State()), pad)
    {
      ghost var n := State();
      PadDirections(pad);
      PadButtons(pad);
      PhaseDoneExact(sticktype, Second, n, pad, State());
    }

    /** The direction writes of the middle block: Up, Down and Left to D4-D6. */
    method PadDirections(pad: Pad)
      modifies io
      ensures io.portA == old(io.portA) && io.portB == old(io.portB)
      ensures io.ddrA == old(io.ddrA) && io.ddrB == old(io.ddrB) && io.ddrD == old(io.ddrD)
      ensures SelectLevel() == old(SelectLevel())
      ensures Bits(io.portD) == StagedAll(sticktype, Second, D, old(Seen(State(), pad)), Bits(old(io.portD)))
    {
      ghost var i, d := Seen(State(), pad), Bits(io.portD);
      Drive(Read(PinA(pad), 2), D, 4);
      Drive(Read(PinD(pad), 0), D, 5);
      Drive(Read(PinD(pad), 1), D, 6);
      PadTapsD(sticktype, i, d);
    }

    /** The button writes of the middle block: Right to B0, line 6 to B2 (B7
        under ATARI), line 9 to B3. */
    method PadButtons(pad: Pad)
      modifies io
      ensures io.portA == old(io.portA) && io.portD == old(io.portD)
      ensures io.ddrA == old(io.ddrA) && io.ddrB == old(io.ddrB) && io.ddrD == old(io.ddrD)
      ensures Bits(io.portB) == StagedAll(sticktype, Second, B, old(Seen(State(), pad)), Bits(old(io.portB)))
    {
      ghost var i, b := Seen(State(), pad), Bits(io.portB);
      PadTapsB(sticktype, i, b);
      Drive(Read(PinA(pad), 1), B, 0);
      if sticktype.Code() == STICK_ATARI {
        Drive(Read(PinA(pad), 0), B, 7);
      } else {
        Drive(Read(PinA(pad), 0), B, 2);
      }
      Drive(Read(PinD(pad), 3), B, 3);
    }

    /** The six-button block of `poll`: one more raise, then X, Y and Z (lines
        3, 2 and 1) to B4-B6, then select dropped again. */
    method ExtraPhase(pad: Pad)
      modifies this, io
      ensures State() == if sticktype == Genesis6 then Lowered(PhaseDone(sticktype, Third, Raised(old(State())), pad))
                         else old(State())
      ensures strobe == if sticktype == Genesis6 then old(strobe) + Pulses(1) else old(strobe)
      ensures sticktype == old(sticktype)
    {
      if sticktype.Code() == STICK_GENESIS6 {
        SelectUp();
        ghost var n, b := State(), Bits(io.portB);
        Drive(Read(PinD(pad), 1), B, 4);
        Drive(Read(PinD(pad), 0), B, 5);
        Drive(Read(PinA(pad), 2), B, 6);
        ExtraTaps(Seen(n, pad), b);
        PortDSecondOnly(sticktype, Third, Seen(n, pad), Bits(io.portD));
        PhaseDoneExact(sticktype, Third, n, pad, State());
        SelectDown();
      }
    }

    /** `poll`: one pass of the protocol. The registers and the edge count end
        as the table of module Protocol says; the select writes are 4, 2 or 1
        pulses by type. */
    method Poll(pad: Pad)
      modifies this, io
      ensures State() == Polled(sticktype, old(State()), pad)
      ensures strobe == old(strobe) + Pulses(PulseCount(sticktype))
      ensures sticktype == old(sticktype)
    {
      ghost var n0, l0 := State(), strobe;
      // Lead pulse for a six-button pad.
      if sticktype.Code() == STICK_GENESIS6 {
        SelectPulse();
      }
      ghost var n1, l1 := State(), strobe;
      StartPhase(pad);
      ghost var n2 := State();
      // Raise select: the whole pad, and B where A was.
      if sticktype.Code() < STICK_ATARI {
        SelectUp();
      }
      ghost var n3, l3 := State(), strobe;
      PadPhase(pad);
      ghost var n4 := State();
      if sticktype.Code() < STICK_ATARI {
        SelectDown();
      }
      ghost var n5, l5 := State(), strobe;
      ExtraPhase(pad);
      ghost var n6, l6 := State(), strobe;
      // The final reset pulse, whatever the type.
      SelectPulse();
      StepsArePolled(sticktype, n0, pad, n1, n2, n3, n4, n5, n6, State());
      PollStrobe(sticktype, l0, l1, l3, l5, l6, strobe);
    }

    /** The register set-up at the top of main: the direction registers and
        pull-ups, then PORTB high again and PORTD written whole as 0b01110100,
        which raises select and drops the D0, D1 and D3 pull-ups set before. */
    method Init()
      modifies this, io
      ensures io.Regs() == Registers(0xFF, 0xFF, 0x74, 0x00, 0xFF, 0x74)
      ensures edges == old(edges) + Rise(old(SelectLevel()))
      ensures sticktype == old(sticktype) && strobe == old(strobe)
    {
      SetDirections();
      io.BankOn(B);
      if !SelectLevel() {
        edges := edges + 1;
      }
      io.SetPort(D, 0x74);
    }

    /** The direction set-up: bank A all inputs with pull-ups; bank B all
        outputs, driven high; bank D inputs with pull-ups on D0, D1 and D3,
        and outputs on select and D4-D6. */
    method SetDirections()
      modifies io
      ensures io.portA == 0xFF && io.portB == 0xFF
      ensures io.ddrA == 0x00 && io.ddrB == 0xFF && io.ddrD == 0x74
      ensures Bits(io.portD) == Bits(old(io.portD))[0 := true][1 := true][3 := true]
    {
      io.InputBank(A);
      io.BankOn(A);
      io.OutputBank(B);
      io.BankOn(B);
      io.InputBank(D);
      BitsUpdate(io.portD, 0);
      io.On(D, 0);
      BitsUpdate(io.portD, 1);
      io.On(D, 1);
      BitsUpdate(io.portD, 3);
      io.On(D, 3);
      io.Output(D, 2);
      io.Output(D, 4);
      io.Output(D, 5);
      io.Output(D, 6);
    }

    /** main up to its endless loop: init, detection, and the reset pulses.
        The controller type is the classification of the two probes, taken
        with select raised and then lowered at the edge count init leaves;
        select ends low for GENESIS6 and high otherwise, after 0, 1 or 3 more
        rising edges for ATARI, GENESIS3 and GENESIS6. */
    method Boot(pad: Pad, readInverted: (bv8, Pin) -> bv8)
      requires sticktype == Genesis6
      modifies this, io
      ensures var e := old(edges) + Rise(old(SelectLevel()));
        && sticktype == Classify(Probe(readInverted, pad(e, true)), Probe(readInverted, pad(e, false)))
        && io.Regs() == Registers(0xFF, 0xFF, if sticktype == Genesis6 then 0x70 else 0x74, 0x00, 0xFF, 0x74)
        && edges == e + (match sticktype case Atari => 0 case Genesis3 => 1 case Genesis6 => 3)
      ensures strobe == old(strobe) + BootStrobe(sticktype)
    {
      Init();
      ghost var n, log := State(), strobe;
      Detect(pad, readInverted);
      ghost var n1, log1 := State(), strobe;
      Reset();
      BootSteps(sticktype, n, n1, State());
      assert strobe == log + BootStrobe(sticktype);
    }

    /** Detection: probe line 6 through `readInverted` with select raised;
        if that fails, lower select and probe again. The first positive probe
        selects ATARI, the second GENESIS3; neither keeps GENESIS6. */
    method Detect(pad: Pad, readInverted: (bv8, Pin) -> bv8)
      requires sticktype == Genesis6
      modifies this, io
      ensures var s := Raised(old(State()));
        && sticktype == Classify(Probe(readInverted, Seen(s, pad)), Probe(readInverted, Seen(Lowered(s), pad)))
        && State() == if sticktype == Atari then s else Lowered(s)
      ensures strobe == old(strobe) + if sticktype == Atari then [true] else [true, false]
    {
      SelectUp();
      if readInverted(PinA(pad), 0) != 0 {
        sticktype := Atari;
      } else {
        SelectDown();
        if readInverted(PinA(pad), 0) != 0 {
          sticktype := Genesis3;
        }
      }
    }

    /** The end of boot: select raised again for either GENESIS type, and
        three more pulses for GENESIS6. */
    method Reset()
      modifies this, io
      ensures State() == match sticktype
        case Atari => old(State())
        case Genesis3 => Raised(old(State()))
        case Genesis6 => Pulsed(Pulsed(Pulsed(Raised(old(State())))))
      ensures strobe == old(strobe) + match sticktype
        case Atari => []
        case Genesis3 => [true]
        case Genesis6 => [true] + Pulses(3)
      ensures sticktype == old(sticktype)
    {
      if sticktype.Code() < STICK_ATARI {
        SelectUp();
      }
      if sticktype.Code() == STICK_GENESIS6 {
        SelectPulse();
        SelectPulse();
        SelectPulse();
      }
    }
  }

  /** Power-on followed by main up to its endless loop. Select starts low,
      so init makes the first rising edge; the probes are both taken at that
      edge count. From power-on, ATARI sees 1 rising edge, GENESIS3 2 and
      GENESIS6 4, with 1, 2 and 5 `selectUp` calls. */
  method PowerOn(pad: Pad, readInverted: (bv8, Pin) -> bv8) returns (a: Adapter)
    ensures fresh(a) && fresh(a.io)
    ensures a.sticktype == Classify(Probe(readInverted, pad(1, true)), Probe(readInverted, pad(1, false)))
    ensures a.io.Regs() == Registers(0xFF, 0xFF, if a.sticktype == Genesis6 then 0x70 else 0x74, 0x00, 0xFF, 0x74)
    ensures a.edges == match a.sticktype case Atari => 1 case Genesis3 => 2 case Genesis6 => 4
    ensures a.strobe == BootStrobe(a.sticktype)
    ensures Ups(a.strobe) == match a.sticktype case Atari => 1 case Genesis3 => 2 case Genesis6 => 5
  {
    a := new Adapter();
    a.Boot(pad, readInverted);
    BootUps(a.sticktype);
  }

  /** With the inverted read as the header writes it, boot detects GENESIS6
      whatever the controller does, and leaves the six-button state. */
  method PowerOnLiteral(pad: Pad) returns (a: Adapter)
    ensures fresh(a) && fresh(a.io)
    ensures a.sticktype == Genesis6
    ensures a.io.Regs() == Registers(0xFF, 0xFF, 0x70, 0x00, 0xFF, 0x74) && a.edges == 4
  {
    a := PowerOn(pad, ReadInverted);
    DetectLiteral(pad(1, true), pad(1, false));
  }
}
