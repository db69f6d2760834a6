/** The AVR helper header: macros that set or clear bits of an 8-bit PORTx or
    DDRx register, set whole banks, and read one bit of a PINx register.
    Registers are modelled as `bv8`; a bank's three registers are fields of
    the `Ports` class, which the update macros change in place. */
module AvrGeneral {

  /** A bit position within an 8-bit register. */
  type Pin = p: nat | p < 8

  /** The three GPIO banks of the ATtiny2313. */
  datatype Bank = A | B | D

  /** The single-bit mask `1 << pin`. */
  function Mask(pin: Pin): bv8 {
    match pin
    case 0 => 0x01 case 1 => 0x02 case 2 => 0x04 case 3 => 0x08
    case 4 => 0x10 case 5 => 0x20 case 6 => 0x40 case 7 => 0x80
  }

  /** Bit `pin` of `x` is 1. Every contract below speaks of bits through this. */
  predicate Bit(x: bv8, pin: Pin) {
    x & Mask(pin) != 0
  }

  /** Digit `k` of the binary expansion of `n`, least significant first. */
  predicate Digit(n: nat, k: nat) {
    if k == 0 then n % 2 == 1 else Digit(n / 2, k - 1)
  }

  /** `Bit` is the binary digit of weight 2^pin of the register's value. */
  lemma {:induction false} BitIsBinaryDigit(x: bv8, pin: Pin)
    ensures Bit(x, pin) <==> Digit(x as int, pin)
  {
    if pin > 0 {
      BitIsBinaryDigit(x >> 1, pin - 1);
      assert Bit(x, pin) <==> Bit(x >> 1, pin - 1);
      assert (x >> 1) as int == x as int / 2;
    }
  }

  /** A register is determined by its eight bits. */
  lemma BitsDetermine(x: bv8, y: bv8)
    requires forall q: Pin :: Bit(x, q) == Bit(y, q)
    ensures x == y
  {
    assert Bit(x, 0) == Bit(y, 0) && Bit(x, 1) == Bit(y, 1);
    assert Bit(x, 2) == Bit(y, 2) && Bit(x, 3) == Bit(y, 3);
    assert Bit(x, 4) == Bit(y, 4) && Bit(x, 5) == Bit(y, 5);
    assert Bit(x, 6) == Bit(y, 6) && Bit(x, 7) == Bit(y, 7);
  }

  /** The byte whose bit q is `f(q)`. */
  function FromBits(f: Pin -> bool): (r: bv8)
    ensures forall q: Pin :: Bit(r, q) == f(q)
  {
    (if f(0) then 0x01 else 0) | (if f(1) then 0x02 else 0) |
    (if f(2) then 0x04 else 0) | (if f(3) then 0x08 else 0) |
    (if f(4) then 0x10 else 0) | (if f(5) then 0x20 else 0) |
    (if f(6) then 0x40 else 0) | (if f(7) then 0x80 else 0)
  }

  /** The eight bits of a register, least significant first. */
  function Bits(x: bv8): (s: seq<bool>)
    ensures |s| == 8
    ensures forall q: Pin :: s[q] == Bit(x, q)
  {
    seq(8, (k: int) requires 0 <= k < 8 => Bit(x, k))
  }

  /** Distinct registers have distinct bits. */
  lemma BitsInjective(x: bv8, y: bv8)
    requires Bits(x) == Bits(y)
    ensures x == y
  {
    BitsDetermine(x, y);
  }

  /** `PORTx |= (1<<pin)` and `DDRx |= (1<<pin)`: bit `pin` becomes 1, the other
      seven bits keep their values. */
  function SetBit(x: bv8, pin: Pin): (r: bv8)
    ensures Bit(r, pin)
    ensures forall q: Pin :: q != pin ==> Bit(r, q) == Bit(x, q)
  {
    x | Mask(pin)
  }

  /** `PORTx &= ~(1<<pin)` and `DDRx &= ~(1<<pin)`: bit `pin` becomes 0, the
      other seven bits keep their values. */
  function ClearBit(x: bv8, pin: Pin): (r: bv8)
    ensures !Bit(r, pin)
    ensures forall q: Pin :: q != pin ==> Bit(r, q) == Bit(x, q)
  {
    x & !Mask(pin)
  }

  /** Bit `pin` set to `level`: SetBit when high, ClearBit when low. */
  function Put(x: bv8, pin: Pin, level: bool): (r: bv8)
    ensures Bit(r, pin) == level
    ensures forall q: Pin :: q != pin ==> Bit(r, q) == Bit(x, q)
  {
    if level then SetBit(x, pin) else ClearBit(x, pin)
  }

  /** The byte with the eight given bits, least significant first. */
  function FromSeq(s: seq<bool>): (r: bv8)
    requires |s| == 8
    ensures Bits(r) == s
  {
    var r := FromBits((q: Pin) => s[q]);
    assert forall q: Pin :: Bits(r)[q] == s[q];
    r
  }

  /** SetBit and ClearBit are the updates of one bit. */
  lemma BitsUpdate(x: bv8, pin: Pin)
    ensures Bits(SetBit(x, pin)) == Bits(x)[pin := true]
    ensures Bits(ClearBit(x, pin)) == Bits(x)[pin := false]
  {
    BitsPut(x, pin, true);
    BitsPut(x, pin, false);
  }

  lemma BitsPut(x: bv8, pin: Pin, level: bool)
    ensures Bits(Put(x, pin, level)) == Bits(x)[pin := level]
  {
    var r := Put(x, pin, level);
    assert forall q: Pin :: Bits(r)[q] == Bits(x)[pin := level][q];
  }

  lemma SetBitIdempotent(x: bv8, pin: Pin)
    ensures SetBit(SetBit(x, pin), pin) == SetBit(x, pin)
  {
    BitsDetermine(SetBit(SetBit(x, pin), pin), SetBit(x, pin));
  }

  lemma ClearBitIdempotent(x: bv8, pin: Pin)
    ensures ClearBit(ClearBit(x, pin), pin) == ClearBit(x, pin)
  {
    BitsDetermine(ClearBit(ClearBit(x, pin), pin), ClearBit(x, pin));
  }

  /** Setting a bit that is already 1 (clearing one already 0) changes nothing,
      and only then. */
  lemma SetClearNoOp(x: bv8, pin: Pin)
    ensures SetBit(x, pin) == x <==> Bit(x, pin)
    ensures ClearBit(x, pin) == x <==> !Bit(x, pin)
  {
    if Bit(x, pin) {
      BitsDetermine(SetBit(x, pin), x);
    } else {
      BitsDetermine(ClearBit(x, pin), x);
    }
  }

  /** `Read(bank,pin)`: `(PINx >> pin) & 1U`, which is 0 or 1 and is bit `pin`. */
  function Read(x: bv8, pin: Pin): (r: bv8)
    ensures r == 0 || r == 1
    ensures r == 1 <==> Bit(x, pin)
    ensures r != 0 <==> Bit(x, pin)
  {
    (x >> pin) & 1
  }

  lemma ReadAfterUpdate(x: bv8, pin: Pin)
    ensures Read(SetBit(x, pin), pin) == 1
    ensures Read(ClearBit(x, pin), pin) == 0
  {
  }

  /** `ReadInverted(bank,pin)` exactly as the macro is written:
      `!((PINx >> pin) | 0xFE)`. C's `!` yields 1 for a zero operand and 0
      otherwise. The C operands are `int`; since `PINx >> pin` is below 256 the
      8-bit OR gives the same zero test. */
  function ReadInverted(x: bv8, pin: Pin): bv8 {
    if (x >> pin) | 0xFE == 0 then 1 else 0
  }

  /** As written, the OR with 0xFE keeps the operand non-zero, so the macro is
      0 for every byte and pin, whatever the pin's level. */
  lemma ReadInvertedAlwaysZero(x: bv8, pin: Pin)
    ensures ReadInverted(x, pin) == 0
  {
  }

  /** A concrete input on which the macro differs from its documented meaning:
      pin 0 of PINx = 0x00 is low, the inverted read should be 1. */
  lemma ReadInvertedCounterexample()
    ensures !Bit(0x00, 0) && ReadInverted(0x00, 0) == 0
  {
  }

  /** The inverted read the header's comment describes: `!((PINx >> pin) & 1U)`. */
  function ReadInvertedIntended(x: bv8, pin: Pin): (r: bv8)
    ensures r == 0 || r == 1
    ensures r == 1 <==> !Bit(x, pin)
    ensures r == 1 - Read(x, pin)
  {
    if (x >> pin) & 1 == 0 then 1 else 0
  }

  /** The six registers of the three banks (the PINx inputs are not state). */
  datatype Registers = Registers(portA: bv8, portB: bv8, portD: bv8,
                                 ddrA: bv8, ddrB: bv8, ddrD: bv8)
  {
    function Port(bank: Bank): bv8 {
      match bank
      case A => portA
      case B => portB
      case D => portD
    }

    function Ddr(bank: Bank): bv8 {
      match bank
      case A => ddrA
      case B => ddrB
      case D => ddrD
    }

    function WithPort(bank: Bank, v: bv8): (r: Registers)
      ensures r.Port(bank) == v
      ensures forall b: Bank :: b != bank ==> r.Port(b) == Port(b)
      ensures forall b: Bank :: r.Ddr(b) == Ddr(b)
    {
      match bank
      case A => this.(portA := v)
      case B => this.(portB := v)
      case D => this.(portD := v)
    }

    function WithDdr(bank: Bank, v: bv8): (r: Registers)
      ensures r.Ddr(bank) == v
      ensures forall b: Bank :: b != bank ==> r.Ddr(b) == Ddr(b)
      ensures forall b: Bank :: r.Port(b) == Port(b)
    {
      match bank
      case A => this.(ddrA := v)
      case B => this.(ddrB := v)
      case D => this.(ddrD := v)
    }
  }

  /** The PORTx and DDRx registers, which the header's macros update in place. */
  class Ports {
    var portA: bv8
    var portB: bv8
    var portD: bv8
    var ddrA: bv8
    var ddrB: bv8
    var ddrD: bv8

    function Regs(): Registers
      reads this
    {
      Registers(portA, portB, portD, ddrA, ddrB, ddrD)
    }

    /** The registers as the model starts them; every one is overwritten at boot. */
    constructor ()
      ensures Regs() == Registers(0, 0, 0, 0, 0, 0)
    {
      portA, portB, portD := 0, 0, 0;
      ddrA, ddrB, ddrD := 0, 0, 0;
    }

    method SetPort(bank: Bank, v: bv8)
      modifies this
      ensures Regs() == old(Regs()).WithPort(bank, v)
    {
      match bank
      case A => portA := v;
      case B => portB := v;
      case D => portD := v;
    }

    method SetDdr(bank: Bank, v: bv8)
      modifies this
      ensures Regs() == old(Regs()).WithDdr(bank, v)
    {
      match bank
      case A => ddrA := v;
      case B => ddrB := v;
      case D => ddrD := v;
    }

    /** `On(bank,pin)`: drive (or pull up) one pin. */
    method On(bank: Bank, pin: Pin)
      modifies this
      ensures Regs() == old(Regs()).WithPort(bank, SetBit(old(Regs()).Port(bank), pin))
    {
      SetPort(bank, SetBit(Regs().Port(bank), pin));
    }

    /** `Off(bank,pin)`. */
    method Off(bank: Bank, pin: Pin)
      modifies this
      ensures Regs() == old(Regs()).WithPort(bank, ClearBit(old(Regs()).Port(bank), pin))
    {
      SetPort(bank, ClearBit(Regs().Port(bank), pin));
    }

    /** `BankOn(bank)`: PORTx = 0xFF. */
    method BankOn(bank: Bank)
      modifies this
      ensures Regs() == old(Regs()).WithPort(bank, 0xFF)
    {
      SetPort(bank, 0xFF);
    }

    /** `BankOff(bank)`: PORTx = 0x00. */
    method BankOff(bank: Bank)
      modifies this
      ensures Regs() == old(Regs()).WithPort(bank, 0x00)
    {
      SetPort(bank, 0x00);
    }

    /** `Input(bank,pin)`: make one pin an input; DDRx gets what Off gives PORTx. */
    method Input(bank: Bank, pin: Pin)
      modifies this
      ensures Regs() == old(Regs()).WithDdr(bank, ClearBit(old(Regs()).Ddr(bank), pin))
    {
      SetDdr(bank, ClearBit(Regs().Ddr(bank), pin));
    }

    /** `Output(bank,pin)`: make one pin an output; DDRx gets what On gives PORTx. */
    method Output(bank: Bank, pin: Pin)
      modifies this
      ensures Regs() == old(Regs()).WithDdr(bank, SetBit(old(Regs()).Ddr(bank), pin))
    {
      SetDdr(bank, SetBit(Regs().Ddr(bank), pin));
    }

    /** `InputBank(bank)`: DDRx = 0x00. */
    method InputBank(bank: Bank)
      modifies this
      ensures Regs() == old(Regs()).WithDdr(bank, 0x00)
    {
      SetDdr(bank, 0x00);
    }

    /** `OutputBank(bank)`: DDRx = 0xFF. */
    method OutputBank(bank: Bank)
      modifies this
      ensures Regs() == old(Regs()).WithDdr(bank, 0xFF)
    {
      SetDdr(bank, 0xFF);
    }
  }
}
