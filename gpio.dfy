/** The general-purpose I/O ports B, C, D, E and F of the ATmega32U4
    (src/port.rs): splitting a port into pins, the pin mode transitions,
    output and input operations, and the two downgraded pin types.

    The registers of every port (`ddr`, `port`, `pin`) are one value of
    type `Bank`, held by an object of class `Ports`; every operation that
    writes a register is a method that reassigns `Ports.bank` the way the
    source does it, one read-modify-write at a time, and is specified by a
    function on `Bank` whose own contract says which bits it changes. */
module Gpio {
  import opened Bits

  datatype PortId = B | C | D | E | F

  /** The timer peripherals that the PWM mode tag `Pwm<TIMER>` names. */
  datatype TimerId = Timer0 | Timer1 | Timer3 | Timer4

  datatype Pull = Floating | PullUp

  /** The mode tag of a pin.  `Pwm` carries the timer that drives the pin. */
  datatype Mode = Input(pull: Pull) | Output | Pwm(timer: TimerId) {
    /** The `Io` marker: implemented by `Input<_>` and `Output`, not by `Pwm`. */
    predicate IsIo() {
      !Pwm?
    }
  }

  /** Whether bit `i` of port `p` is bonded out on the package: all of
      ports B and D, PC6-PC7, PE2 and PE6, PF0-PF1 and PF4-PF7.  These are
      exactly the pins the five `port_impl!` invocations declare. */
  predicate Bonded(p: PortId, i: Index) {
    match p
    case B => true
    case C => 6 <= i
    case D => true
    case E => i == 2 || i == 6
    case F => i != 2 && i != 3
  }

  datatype PinId = PinId(port: PortId, index: Index)

  /** The identity of one of the pin types `PB0` ... `PF7`: a bonded
      position of a port. */
  type PinName = n: PinId | Bonded(n.port, n.index) witness PinId(B, 0)

  // ---------------------------------------------------------------------
  // Register state

  /** The three registers of one port: data direction, output latch (which
      also enables the pull-up of an input pin) and input.  The model never
      writes `pin`: its value comes from the electrical world. */
  datatype PortRegs = PortRegs(ddr: bv8, port: bv8, pin: bv8)

  /** The registers of all five ports. */
  datatype Bank = Bank(b: PortRegs, c: PortRegs, d: PortRegs, e: PortRegs, f: PortRegs) {

    function Get(p: PortId): PortRegs {
      match p
      case B => b
      case C => c
      case D => d
      case E => e
      case F => f
    }

    /** Replace the registers of port `p`; the other ports keep theirs. */
    function Put(p: PortId, r: PortRegs): (bank': Bank)
      ensures bank'.Get(p) == r
      ensures forall q: PortId :: q != p ==> bank'.Get(q) == Get(q)
    {
      match p
      case B => this.(b := r)
      case C => this.(c := r)
      case D => this.(d := r)
      case E => this.(e := r)
      case F => this.(f := r)
    }

    /** The level last written to the output latch of bit `i` of port `p`. */
    predicate Latched(p: PortId, i: Index) {
      Test(Get(p).port, i)
    }

    /** The level read from the input register for bit `i` of port `p`. */
    predicate Sensed(p: PortId, i: Index) {
      Test(Get(p).pin, i)
    }

    /** The electrical mode that the direction and latch bits select: a set
        direction bit makes an output, otherwise the latch bit chooses
        between pull-up and floating input. */
    function ModeAt(p: PortId, i: Index): (m: Mode)
      ensures m.IsIo()
      ensures m == Output <==> Test(Get(p).ddr, i)
      ensures m == Input(PullUp) <==> !Test(Get(p).ddr, i) && Test(Get(p).port, i)
    {
      if Test(Get(p).ddr, i) then Output
      else if Test(Get(p).port, i) then Input(PullUp)
      else Input(Floating)
    }

    /** `into_floating_input`: clear the direction bit, then the latch bit. */
    function WithFloatingInput(p: PortId, i: Index): (bank': Bank)
      ensures !Test(bank'.Get(p).ddr, i) && !Test(bank'.Get(p).port, i)
      ensures bank'.ModeAt(p, i) == Input(Floating)
      ensures Untouched(this, bank', p, i)
    {
      var r := Get(p);
      var cleared := Put(p, r.(ddr := Clear(r.ddr, i)));
      var r' := cleared.Get(p);
      cleared.Put(p, r'.(port := Clear(r'.port, i)))
    }

    /** `into_pull_up_input`: clear the direction bit, then set the latch bit. */
    function WithPullUpInput(p: PortId, i: Index): (bank': Bank)
      ensures !Test(bank'.Get(p).ddr, i) && Test(bank'.Get(p).port, i)
      ensures bank'.ModeAt(p, i) == Input(PullUp)
      ensures Untouched(this, bank', p, i)
    {
      var r := Get(p);
      var cleared := Put(p, r.(ddr := Clear(r.ddr, i)));
      var r' := cleared.Get(p);
      cleared.Put(p, r'.(port := Set(r'.port, i)))
    }

    /** `into_output`: set the direction bit; the latch register is not
        written, so the pin drives whatever level was latched before. */
    function WithOutput(p: PortId, i: Index): (bank': Bank)
      ensures Test(bank'.Get(p).ddr, i)
      ensures bank'.ModeAt(p, i) == Output
      ensures bank'.Get(p).port == Get(p).port
      ensures Untouched(this, bank', p, i)
    {
      var r := Get(p);
      Put(p, r.(ddr := Set(r.ddr, i)))
    }

    /** `set_high` / `set_low`: set or clear bit `i` of the latch register;
        the direction register is not written. */
    function WithLatch(p: PortId, i: Index, high: bool): (bank': Bank)
      ensures bank'.Latched(p, i) == high
      ensures bank'.Get(p).ddr == Get(p).ddr
      ensures Untouched(this, bank', p, i)
    {
      var r := Get(p);
      Put(p, r.(port := if high then Set(r.port, i) else Clear(r.port, i)))
    }
  }

  /** Going from `x` to `y` changed no bit of any direction or latch
      register except bit `i` of port `p`, and no input register. */
  ghost predicate Untouched(x: Bank, y: Bank, p: PortId, i: Index) {
    && (forall q: PortId :: y.Get(q).pin == x.Get(q).pin)
    && (forall q: PortId, j: Index :: q != p || j != i ==>
          Test(y.Get(q).ddr, j) == Test(x.Get(q).ddr, j) &&
          Test(y.Get(q).port, j) == Test(x.Get(q).port, j))
  }

  /** The contracts of the `With…` functions pin down their results: two
      banks that change nothing but bit `i` of port `p`, and agree on that
      bit of both registers, are the same bank. */
  lemma UntouchedDetermines(x: Bank, y: Bank, z: Bank, p: PortId, i: Index)
    requires Untouched(x, y, p, i) && Untouched(x, z, p, i)
    requires Test(y.Get(p).ddr, i) == Test(z.Get(p).ddr, i)
    requires Test(y.Get(p).port, i) == Test(z.Get(p).port, i)
    ensures y == z
  {
    forall q: PortId ensures y.Get(q) == z.Get(q) {
      Extensionality(y.Get(q).ddr, z.Get(q).ddr);
      Extensionality(y.Get(q).port, z.Get(q).port);
    }
    assert y.b == y.Get(B) && y.c == y.Get(C) && y.d == y.Get(D) && y.e == y.Get(E) && y.f == y.Get(F);
    assert z.b == z.Get(B) && z.c == z.Get(C) && z.d == z.Get(D) && z.e == z.Get(E) && z.f == z.Get(F);
  }

  /** The memory-mapped registers of the five ports. */
  class Ports {
    var bank: Bank

    constructor (initial: Bank)
      ensures bank == initial
    {
      bank := initial;
    }
  }

  /** After reset every direction and latch bit is 0; the input registers
      `pinB` ... `pinF` read whatever the pins see. */
  function ResetBank(pinB: bv8, pinC: bv8, pinD: bv8, pinE: bv8, pinF: bv8): (bank: Bank)
    ensures forall p: PortId, i: Index :: bank.ModeAt(p, i) == Input(Floating)
    ensures bank.b.pin == pinB && bank.c.pin == pinC && bank.d.pin == pinD
    ensures bank.e.pin == pinE && bank.f.pin == pinF
  {
    Bank(PortRegs(0, 0, pinB), PortRegs(0, 0, pinC), PortRegs(0, 0, pinD),
         PortRegs(0, 0, pinE), PortRegs(0, 0, pinF))
  }

  /** A pin handle's mode tag agrees with what the registers select; a PWM
      pin is electrically an output. */
  ghost predicate Agrees(bank: Bank, pin: TypedPin) {
    bank.ModeAt(pin.Port(), pin.Bit()) == if pin.mode.Pwm? then Output else pin.mode
  }

  // ---------------------------------------------------------------------
  // Splitting a port

  /** The zero-sized handle to a port's data direction register. */
  datatype Ddr = Ddr(port: PortId)

  /** What `split` returns: the direction register handle and one pin
      handle per bonded position, keyed by that position (the fields
      `p?0` ... `p?7` of the source's `Parts`). */
  datatype Parts = Parts(ddr: Ddr, pins: map<Index, TypedPin>)

  /** `PortExt::split`: hands out every bonded pin of the port, under its
      own position and in `Input<Floating>` mode, and nothing else.  It
      takes no register state: splitting writes no register. */
  function Split(p: PortId): (parts: Parts)
    ensures parts.ddr == Ddr(p)
    ensures forall i: Index :: i in parts.pins <==> Bonded(p, i)
    ensures forall i :: i in parts.pins ==>
              parts.pins[i].Port() == p && parts.pins[i].Bit() == i &&
              parts.pins[i].mode == Input(Floating)
  {
    Parts(Ddr(p), map i: Index | Bonded(p, i) :: TypedPin(PinId(p, i), Input(Floating)))
  }

  /** The positions `split` hands out, port by port. */
  lemma SplitPositions(p: PortId)
    ensures p == B || p == D ==> Split(p).pins.Keys == {0, 1, 2, 3, 4, 5, 6, 7}
    ensures p == C ==> Split(p).pins.Keys == {6, 7}
    ensures p == E ==> Split(p).pins.Keys == {2, 6}
    ensures p == F ==> Split(p).pins.Keys == {0, 1, 4, 5, 6, 7}
  {
    var expected: set<int> := match p
      case C => {6, 7}
      case E => {2, 6}
      case F => {0, 1, 4, 5, 6, 7}
      case _ => {0, 1, 2, 3, 4, 5, 6, 7};
    forall i | i in expected ensures i in Split(p).pins.Keys { }
    forall i | i in Split(p).pins.Keys ensures i in expected { }
    assert Split(p).pins.Keys == expected;
  }

  /** Splitting the five ports hands out every pin type exactly once: by
      the split of its own port, under its own position, and by no other. */
  lemma SplitHandsOutEachPinOnce(n: PinName, p: PortId, i: Index)
    requires i in Split(p).pins && Split(p).pins[i].name == n
    ensures p == n.port && i == n.index
    ensures n.index in Split(n.port).pins && Split(n.port).pins[n.index].name == n
  {
  }

  /** Right after reset, the tags `split` hands out agree with the registers. */
  lemma SplitAgreesWithReset(pinB: bv8, pinC: bv8, pinD: bv8, pinE: bv8, pinF: bv8, p: PortId, i: Index)
    requires i in Split(p).pins
    ensures Agrees(ResetBank(pinB, pinC, pinD, pinE, pinF), Split(p).pins[i])
  {
  }

  // ---------------------------------------------------------------------
  // Typed pins

  /** A pin of one of the types `PB0` ... `PF7`: its identity is static,
      its mode is the type's parameter. */
  datatype TypedPin = TypedPin(name: PinName, mode: Mode) {

    function Port(): PortId {
      name.port
    }

    function Bit(): Index {
      name.index
    }

    /** `downgrade`: forget port and index statically, keep them at run time. */
    function Downgrade(): (e: ErasedPin)
      ensures e.port == Port() && e.i == Bit() && e.mode == mode
    {
      ErasedPin(Bit(), Port(), mode)
    }

    /** `downgrade_port`: forget the index statically, keep it at run time. */
    function DowngradePort(): (e: PortErasedPin)
      ensures e.port == Port() && e.i == Bit() && e.mode == mode
    {
      PortErasedPin(Port(), Bit(), mode)
    }

    method IntoFloatingInput(io: Ports, ddr: Ddr) returns (q: TypedPin)
      requires mode.IsIo() && ddr.port == Port()
      modifies io
      ensures q == TypedPin(name, Input(Floating))
      ensures io.bank == old(io.bank).WithFloatingInput(Port(), Bit())
      ensures Agrees(io.bank, q)
    {
      var r := io.bank.Get(ddr.port);
      io.bank := io.bank.Put(ddr.port, r.(ddr := Clear(r.ddr, Bit())));
      r := io.bank.Get(Port());
      io.bank := io.bank.Put(Port(), r.(port := Clear(r.port, Bit())));
      q := TypedPin(name, Input(Floating));
    }

    method IntoPullUpInput(io: Ports, ddr: Ddr) returns (q: TypedPin)
      requires mode.IsIo() && ddr.port == Port()
      modifies io
      ensures q == TypedPin(name, Input(PullUp))
      ensures io.bank == old(io.bank).WithPullUpInput(Port(), Bit())
      ensures Agrees(io.bank, q)
    {
      var r := io.bank.Get(ddr.port);
      io.bank := io.bank.Put(ddr.port, r.(ddr := Clear(r.ddr, Bit())));
      r := io.bank.Get(Port());
      io.bank := io.bank.Put(Port(), r.(port := Set(r.port, Bit())));
      q := TypedPin(name, Input(PullUp));
    }

    method IntoOutput(io: Ports, ddr: Ddr) returns (q: TypedPin)
      requires mode.IsIo() && ddr.port == Port()
      modifies io
      ensures q == TypedPin(name, Output)
      ensures io.bank == old(io.bank).WithOutput(Port(), Bit())
      ensures io.bank.Latched(Port(), Bit()) == old(io.bank).Latched(Port(), Bit())
      ensures Agrees(io.bank, q)
    {
      var r := io.bank.Get(ddr.port);
      io.bank := io.bank.Put(ddr.port, r.(ddr := Set(r.ddr, Bit())));
      q := TypedPin(name, Output);
    }

    method SetHigh(io: Ports)
      requires mode == Output
      modifies io
      ensures io.bank == old(io.bank).WithLatch(Port(), Bit(), true)
      ensures IsSetHigh(io)
    {
      var r := io.bank.Get(Port());
      io.bank := io.bank.Put(Port(), r.(port := Set(r.port, Bit())));
    }

    method SetLow(io: Ports)
      requires mode == Output
      modifies io
      ensures io.bank == old(io.bank).WithLatch(Port(), Bit(), false)
      ensures IsSetLow(io)
    {
      var r := io.bank.Get(Port());
      io.bank := io.bank.Put(Port(), r.(port := Clear(r.port, Bit())));
    }

    /** `is_set_high` reads back the latch register, not the input register. */
    predicate IsSetHigh(io: Ports)
      requires mode == Output
      reads io
    {
      Test(io.bank.Get(Port()).port, Bit())
    }

    predicate IsSetLow(io: Ports)
      requires mode == Output
      reads io
      ensures IsSetLow(io) == !IsSetHigh(io)
    {
      Unset(io.bank.Get(Port()).port, Bit())
    }

    /** `is_high` of an input pin reads the input register. */
    predicate IsHigh(io: Ports)
      requires mode.Input?
      reads io
    {
      Test(io.bank.Get(Port()).pin, Bit())
    }

    predicate IsLow(io: Ports)
      requires mode.Input?
      reads io
      ensures IsLow(io) == !IsHigh(io)
    {
      Unset(io.bank.Get(Port()).pin, Bit())
    }
  }

  // ---------------------------------------------------------------------
  // Port-erased pins

  /** A `P?x<MODE>` pin: the port is still its type (`port` stands for
      which of the five types it is), the index is a run-time value. */
  datatype PortErasedPin = PortErasedPin(port: PortId, i: Index, mode: Mode) {

    method SetHigh(io: Ports)
      requires mode == Output
      modifies io
      ensures io.bank == old(io.bank).WithLatch(port, i, true)
    {
      var r := io.bank.Get(port);
      io.bank := io.bank.Put(port, r.(port := Set(r.port, i)));
    }

    method SetLow(io: Ports)
      requires mode == Output
      modifies io
      ensures io.bank == old(io.bank).WithLatch(port, i, false)
    {
      var r := io.bank.Get(port);
      io.bank := io.bank.Put(port, r.(port := Clear(r.port, i)));
    }

    /** Reads the same latch bit as the typed pin it was downgraded from. */
    predicate IsSetHigh(io: Ports)
      requires mode == Output
      reads io
      ensures Bonded(port, i) ==> IsSetHigh(io) == TypedPin(PinId(port, i), mode).IsSetHigh(io)
    {
      Test(io.bank.Get(port).port, i)
    }

    predicate IsSetLow(io: Ports)
      requires mode == Output
      reads io
      ensures IsSetLow(io) == !IsSetHigh(io)
      ensures Bonded(port, i) ==> IsSetLow(io) == TypedPin(PinId(port, i), mode).IsSetLow(io)
    {
      Unset(io.bank.Get(port).port, i)
    }

    /** Reads the same input bit as the typed pin it was downgraded from. */
    predicate IsHigh(io: Ports)
      requires mode.Input?
      reads io
      ensures Bonded(port, i) ==> IsHigh(io) == TypedPin(PinId(port, i), mode).IsHigh(io)
    {
      Test(io.bank.Get(port).pin, i)
    }

    predicate IsLow(io: Ports)
      requires mode.Input?
      reads io
      ensures IsLow(io) == !IsHigh(io)
      ensures Bonded(port, i) ==> IsLow(io) == TypedPin(PinId(port, i), mode).IsLow(io)
    {
      Unset(io.bank.Get(port).pin, i)
    }
  }

  // ---------------------------------------------------------------------
  // Fully erased pins

  /** A `Pin<MODE>`: index and port are both run-time values, and every
      operation dispatches on the port. */
  datatype ErasedPin = ErasedPin(i: Index, port: PortId, mode: Mode) {

    method SetHigh(io: Ports)
      requires mode == Output
      modifies io
      ensures io.bank == old(io.bank).WithLatch(port, i, true)
    {
      var k := io.bank;
      match port
      case B => io.bank := k.(b := k.b.(port := Set(k.b.port, i)));
      case C => io.bank := k.(c := k.c.(port := Set(k.c.port, i)));
      case D => io.bank := k.(d := k.d.(port := Set(k.d.port, i)));
      case E => io.bank := k.(e := k.e.(port := Set(k.e.port, i)));
      case F => io.bank := k.(f := k.f.(port := Set(k.f.port, i)));
    }

    method SetLow(io: Ports)
      requires mode == Output
      modifies io
      ensures io.bank == old(io.bank).WithLatch(port, i, false)
    {
      var k := io.bank;
      match port
      case B => io.bank := k.(b := k.b.(port := Clear(k.b.port, i)));
      case C => io.bank := k.(c := k.c.(port := Clear(k.c.port, i)));
      case D => io.bank := k.(d := k.d.(port := Clear(k.d.port, i)));
      case E => io.bank := k.(e := k.e.(port := Clear(k.e.port, i)));
      case F => io.bank := k.(f := k.f.(port := Clear(k.f.port, i)));
    }

    predicate IsSetHigh(io: Ports)
      requires mode == Output
      reads io
      ensures IsSetHigh(io) == io.bank.Latched(port, i)
    {
      var k := io.bank;
      match port
      case B => Test(k.b.port, i)
      case C => Test(k.c.port, i)
      case D => Test(k.d.port, i)
      case E => Test(k.e.port, i)
      case F => Test(k.f.port, i)
    }

    predicate IsSetLow(io: Ports)
      requires mode == Output
      reads io
      ensures IsSetLow(io) == !io.bank.Latched(port, i)
    {
      var k := io.bank;
      match port
      case B => Unset(k.b.port, i)
      case C => Unset(k.c.port, i)
      case D => Unset(k.d.port, i)
      case E => Unset(k.e.port, i)
      case F => Unset(k.f.port, i)
    }

    predicate IsHigh(io: Ports)
      requires mode.Input?
      reads io
      ensures IsHigh(io) == io.bank.Sensed(port, i)
    {
      var k := io.bank;
      match port
      case B => Test(k.b.pin, i)
      case C => Test(k.c.pin, i)
      case D => Test(k.d.pin, i)
      case E => Test(k.e.pin, i)
      case F => Test(k.f.pin, i)
    }

    predicate IsLow(io: Ports)
      requires mode.Input?
      reads io
      ensures IsLow(io) == !io.bank.Sensed(port, i)
    {
      var k := io.bank;
      match port
      case B => Unset(k.b.pin, i)
      case C => Unset(k.c.pin, i)
      case D => Unset(k.d.pin, i)
      case E => Unset(k.e.pin, i)
      case F => Unset(k.f.pin, i)
    }
  }

  /** Downgrading changes nothing a pin reads: both erased forms of a pin
      read the same register bit as the typed pin. */
  lemma DowngradeKeepsReads(pin: TypedPin, io: Ports)
    ensures pin.mode == Output ==>
              pin.Downgrade().IsSetHigh(io) == pin.IsSetHigh(io) &&
              pin.DowngradePort().IsSetHigh(io) == pin.IsSetHigh(io) &&
              pin.Downgrade().IsSetLow(io) == pin.IsSetLow(io) &&
              pin.DowngradePort().IsSetLow(io) == pin.IsSetLow(io)
    ensures pin.mode.Input? ==>
              pin.Downgrade().IsHigh(io) == pin.IsHigh(io) &&
              pin.DowngradePort().IsHigh(io) == pin.IsHigh(io) &&
              pin.Downgrade().IsLow(io) == pin.IsLow(io) &&
              pin.DowngradePort().IsLow(io) == pin.IsLow(io)
  {
  }
}
