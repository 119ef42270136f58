/** The PWM timers of the ATmega32U4 (src/timer.rs): the fixed
    initialisation of timers 0, 1, 3 and 4, the routing of a compare
    channel to its output pin (`into_pwm`), the duty-cycle write
    (`set_duty_cycle`) and the table that binds pins to channels.

    Each timer is one record of abstract control fields; the named field
    values of the register map (`pwm_fast`, `io_64`, `clk_64`,
    `match_clear`) are constructors, not bit encodings.  The four records
    live in an object of class `Timers`, whose methods write the fields
    one register modification at a time, as the source does, and are
    specified by functions on the records. */
module Timer {
  import opened Gpio
  import opened Wrappers

  // ---------------------------------------------------------------------
  // Channels and the pins they drive

  /** The compare-output channels that have an implementation.  `OC1C`
      (Timer1 on PB7) has none: its entry is commented out. */
  datatype Channel = OC0A | OC0B | OC1A | OC1B | OC3A | OC4A | OC4D

  /** Whether a channel is the first or the second the timer implements:
      A for the first; B for the second of Timer0 and Timer1, D for
      Timer4's. */
  datatype Slot = First | Second

  function TimerOf(c: Channel): TimerId {
    match c
    case OC0A | OC0B => Timer0
    case OC1A | OC1B => Timer1
    case OC3A => Timer3
    case OC4A | OC4D => Timer4
  }

  function SlotOf(c: Channel): Slot {
    match c
    case OC0A | OC1A | OC3A | OC4A => First
    case OC0B | OC1B | OC4D => Second
  }

  /** The pin a channel drives, as the table in the module documentation
      lists it.  The same binding is spelled a second time by `PwmChannel`,
      as the code implements it; `ChannelTable` checks that the two agree. */
  function WiredPin(c: Channel): PinName {
    match c
    case OC0A => PinId(B, 7)
    case OC0B => PinId(D, 0)
    case OC1A => PinId(B, 5)
    case OC1B => PinId(B, 6)
    case OC3A => PinId(C, 6)
    case OC4A => PinId(C, 7)
    case OC4D => PinId(D, 7)
  }

  /** The channel whose `into_pwm` and `set_duty_cycle` a pin type has, as
      the `Pins` lists of the four `timer_impl!` invocations give them;
      `None` for a pin with no PWM support. */
  function PwmChannel(n: PinName): Option<Channel> {
    if n == PinId(B, 7) then Some(OC0A)
    else if n == PinId(D, 0) then Some(OC0B)
    else if n == PinId(B, 5) then Some(OC1A)
    else if n == PinId(B, 6) then Some(OC1B)
    else if n == PinId(C, 6) then Some(OC3A)
    else if n == PinId(C, 7) then Some(OC4A)
    else if n == PinId(D, 7) then Some(OC4D)
    else None
  }

  /** The implementation and the documented table agree, in both
      directions: a pin has PWM code for a channel exactly when the table
      wires that channel to it. */
  lemma ChannelTable(n: PinName, c: Channel)
    ensures PwmChannel(n) == Some(c) <==> WiredPin(c) == n
  {
  }

  /** No two channels drive the same pin, and no two occupy the same slot
      of the same timer; so every PWM-capable pin has exactly one channel,
      and PB7 belongs to Timer0 only. */
  lemma ChannelsAreDistinct(c: Channel, d: Channel)
    ensures WiredPin(c) == WiredPin(d) ==> c == d
    ensures TimerOf(c) == TimerOf(d) && SlotOf(c) == SlotOf(d) ==> c == d
  {
  }

  /** Exactly seven pins can produce PWM. */
  lemma PwmPins(n: PinName)
    ensures PwmChannel(n).Some? <==>
              (n.port == B && 5 <= n.index) ||
              n == PinId(C, 6) || n == PinId(C, 7) ||
              n == PinId(D, 0) || n == PinId(D, 7)
  {
  }

  // ---------------------------------------------------------------------
  // Register state

  /** The waveform-generation bits, written either by name (`pwm_fast`,
      Timer0) or as raw bits (`bits(0b01)`, the others). */
  datatype Waveform = FastPwm | WgmBits(bits: int)

  /** The clock-select field: the two prescalers the source selects, and
      any other setting found in the register. */
  datatype Clock = Io64 | Clk64 | OtherClock(code: int)

  /** A compare-output-mode field: `match_clear` or any other setting. */
  datatype Compare = MatchClear | OtherCompare(code: int)

  /** One compare channel: its compare-output mode (`com_a`, `com_b` in
      TCCRnA, or `com_d` in TCCR4C), its PWM-enable bit (`pwm_a` in TCCR4A,
      `pwm_d` in TCCR4C; Timers 0, 1 and 3 have none, and the field is
      never written for them) and its compare register (`ocr_a`, `ocr_b`,
      `ocr_d`, or the low byte `ocr_a_l`, `ocr_b_l` of Timers 1 and 3). */
  datatype ChannelRegs = ChannelRegs(com: Compare, enable: bool, ocr: bv8)

  /** One timer: the waveform bits in TCCRnA (in TCCR4D for Timer4), the
      upper waveform bits in TCCRnB, the clock select in TCCRnB, and its
      two channel slots.  Timer3's second slot stands for a channel the
      source never touches. */
  datatype TimerUnit = TimerUnit(wgmLow: Waveform, wgmHigh: Waveform, clock: Clock,
                       first: ChannelRegs, second: ChannelRegs) {

    function Chan(s: Slot): ChannelRegs {
      if s == First then first else second
    }

    function WithChan(s: Slot, r: ChannelRegs): (u: TimerUnit)
      ensures u.Chan(s) == r
      ensures forall t: Slot :: t != s ==> u.Chan(t) == Chan(t)
      ensures u.wgmLow == wgmLow && u.wgmHigh == wgmHigh && u.clock == clock
    {
      if s == First then this.(first := r) else this.(second := r)
    }
  }

  /** What `new` leaves in the timer it configures. */
  predicate Initialised(u: TimerUnit, id: TimerId) {
    match id
    case Timer0 => u.wgmLow == FastPwm && u.clock == Io64
    case Timer1 | Timer3 => u.wgmLow == WgmBits(0x01) && u.wgmHigh == WgmBits(0x01) && u.clock == Io64
    case Timer4 => u.clock == Clk64 && u.wgmLow == WgmBits(0x01)
  }

  /** The registers of the four timers. */
  datatype TimerRegs = TimerRegs(t0: TimerUnit, t1: TimerUnit, t3: TimerUnit, t4: TimerUnit) {

    function Get(id: TimerId): TimerUnit {
      match id
      case Timer0 => t0
      case Timer1 => t1
      case Timer3 => t3
      case Timer4 => t4
    }

    /** Replace the registers of one timer; the others keep theirs. */
    function Put(id: TimerId, u: TimerUnit): (s: TimerRegs)
      ensures s.Get(id) == u
      ensures forall t: TimerId :: t != id ==> s.Get(t) == Get(t)
    {
      match id
      case Timer0 => this.(t0 := u)
      case Timer1 => this.(t1 := u)
      case Timer3 => this.(t3 := u)
      case Timer4 => this.(t4 := u)
    }

    /** The registers of a channel. */
    function ChannelState(c: Channel): ChannelRegs {
      Get(TimerOf(c)).Chan(SlotOf(c))
    }

    /** A channel drives its pin: its compare output clears on match and,
        on Timer4, its PWM-enable bit is set. */
    predicate Routed(c: Channel) {
      ChannelState(c).com == MatchClear && (TimerOf(c) == Timer4 ==> ChannelState(c).enable)
    }

    /** The duty cycle a channel compares against. */
    function Duty(c: Channel): bv8 {
      ChannelState(c).ocr
    }

    /** `Timer#Pwm::new`: configures the waveform and clock of one timer;
        no channel and no other timer changes, nor the waveform bits the
        source does not write. */
    function Init(id: TimerId): (s: TimerRegs)
      ensures Initialised(s.Get(id), id)
      ensures forall t: TimerId :: t != id ==> s.Get(t) == Get(t)
      ensures forall c: Channel :: s.ChannelState(c) == ChannelState(c)
      ensures s.Get(id).first == Get(id).first && s.Get(id).second == Get(id).second
      ensures id == Timer0 || id == Timer4 ==> s.Get(id).wgmHigh == Get(id).wgmHigh
    {
      var u := Get(id);
      match id
      case Timer0 => Put(id, u.(wgmLow := FastPwm, clock := Io64))
      case Timer1 | Timer3 => Put(id, u.(wgmLow := WgmBits(0x01), wgmHigh := WgmBits(0x01), clock := Io64))
      case Timer4 => Put(id, u.(clock := Clk64, wgmLow := WgmBits(0x01)))
    }

    /** `into_pwm`: routes one channel; its compare register, the timer's
        configuration, every other channel and every other timer keep
        their values. */
    function Route(c: Channel): (s: TimerRegs)
      ensures s.Routed(c)
      ensures s.Duty(c) == Duty(c)
      ensures TimerOf(c) != Timer4 ==> s.ChannelState(c).enable == ChannelState(c).enable
      ensures forall d: Channel :: d != c ==> s.ChannelState(d) == ChannelState(d)
      ensures forall t: TimerId :: Initialised(s.Get(t), t) == Initialised(Get(t), t)
      ensures OnlyChannel(this, s, c)
    {
      var u := Get(TimerOf(c));
      var r := u.Chan(SlotOf(c));
      var r' := if TimerOf(c) == Timer4 then r.(com := MatchClear, enable := true) else r.(com := MatchClear);
      Put(TimerOf(c), u.WithChan(SlotOf(c), r'))
    }

    /** `set_duty_cycle`: writes the channel's compare register and nothing
        else. */
    function WithDuty(c: Channel, dc: bv8): (s: TimerRegs)
      ensures s.Duty(c) == dc
      ensures s.ChannelState(c).com == ChannelState(c).com
      ensures s.ChannelState(c).enable == ChannelState(c).enable
      ensures forall d: Channel :: d != c ==> s.ChannelState(d) == ChannelState(d)
      ensures forall d: Channel :: s.Routed(d) == Routed(d)
      ensures OnlyChannel(this, s, c)
    {
      var u := Get(TimerOf(c));
      var r := u.Chan(SlotOf(c));
      Put(TimerOf(c), u.WithChan(SlotOf(c), r.(ocr := dc)))
    }
  }

  /** Going from `x` to `y` changed no timer but `c`'s, nothing of that
      timer's configuration, and no slot of it but `c`'s. */
  predicate OnlyChannel(x: TimerRegs, y: TimerRegs, c: Channel) {
    && (forall t: TimerId :: t != TimerOf(c) ==> y.Get(t) == x.Get(t))
    && y.Get(TimerOf(c)).wgmLow == x.Get(TimerOf(c)).wgmLow
    && y.Get(TimerOf(c)).wgmHigh == x.Get(TimerOf(c)).wgmHigh
    && y.Get(TimerOf(c)).clock == x.Get(TimerOf(c)).clock
    && (forall s: Slot :: s != SlotOf(c) ==> y.Get(TimerOf(c)).Chan(s) == x.Get(TimerOf(c)).Chan(s))
  }

  /** The contracts of `Route` and `WithDuty` pin down their results: two
      states that change nothing but channel `c`, and agree on it, are the
      same state. */
  lemma OnlyChannelDetermines(x: TimerRegs, y: TimerRegs, z: TimerRegs, c: Channel)
    requires OnlyChannel(x, y, c) && OnlyChannel(x, z, c)
    requires y.ChannelState(c) == z.ChannelState(c)
    ensures y == z
  {
    var id := TimerOf(c);
    var s := if SlotOf(c) == First then Second else First;
    assert y.Get(id).Chan(s) == z.Get(id).Chan(s);
    assert y.Get(id).first == y.Get(id).Chan(First) && y.Get(id).second == y.Get(id).Chan(Second);
    assert z.Get(id).first == z.Get(id).Chan(First) && z.Get(id).second == z.Get(id).Chan(Second);
    assert y.Get(id) == z.Get(id);
    forall t: TimerId ensures y.Get(t) == z.Get(t) { }
    assert y.t0 == y.Get(Timer0) && y.t1 == y.Get(Timer1) && y.t3 == y.Get(Timer3) && y.t4 == y.Get(Timer4);
    assert z.t0 == z.Get(Timer0) && z.t1 == z.Get(Timer1) && z.t3 == z.Get(Timer3) && z.t4 == z.Get(Timer4);
  }

  // ---------------------------------------------------------------------
  // Properties of the transitions

  /** Configuring a timer does not disturb a channel already routed, nor
      its duty cycle: `new` and `into_pwm` of different timers commute. */
  lemma InitKeepsChannels(s: TimerRegs, id: TimerId, c: Channel)
    ensures s.Init(id).Routed(c) == s.Routed(c)
    ensures s.Init(id).Duty(c) == s.Duty(c)
    ensures TimerOf(c) != id ==> s.Init(id).Route(c) == s.Route(c).Init(id)
  {
    if TimerOf(c) != id {
      var a := s.Init(id).Route(c);
      var b := s.Route(c).Init(id);
      assert a.Get(id) == b.Get(id);
      assert a.Get(TimerOf(c)) == b.Get(TimerOf(c));
      forall t: TimerId ensures a.Get(t) == b.Get(t) { }
      assert a.t0 == a.Get(Timer0) && a.t1 == a.Get(Timer1) && a.t3 == a.Get(Timer3) && a.t4 == a.Get(Timer4);
      assert b.t0 == b.Get(Timer0) && b.t1 == b.Get(Timer1) && b.t3 == b.Get(Timer3) && b.t4 == b.Get(Timer4);
    }
  }

  /** Routing a channel twice is routing it once. */
  lemma RouteIdempotent(s: TimerRegs, c: Channel)
    ensures s.Route(c).Route(c) == s.Route(c)
  {
    var once := s.Route(c);
    OnlyChannelDetermines(once, once.Route(c), once, c);
  }

  /** Of two duty-cycle writes to one channel the second wins, and rewriting
      the value already there changes nothing. */
  lemma LastDutyWins(s: TimerRegs, c: Channel, x: bv8, y: bv8)
    ensures s.WithDuty(c, x).WithDuty(c, y) == s.WithDuty(c, y)
    ensures s.WithDuty(c, s.Duty(c)) == s
  {
    var a := s.WithDuty(c, x).WithDuty(c, y);
    var b := s.WithDuty(c, y);
    OnlyChannelDetermines(s, a, b, c);
    OnlyChannelDetermines(s, s.WithDuty(c, s.Duty(c)), s, c);
  }

  /** The sequence of the module documentation: configure the timer, route
      the channel, set the duty cycle.  Afterwards the timer is configured,
      the channel routed and comparing against the value written. */
  lemma PwmSetup(s: TimerRegs, c: Channel, dc: bv8)
    ensures var s' := s.Init(TimerOf(c)).Route(c).WithDuty(c, dc);
            Initialised(s'.Get(TimerOf(c)), TimerOf(c)) && s'.Routed(c) && s'.Duty(c) == dc
  {
  }

  // ---------------------------------------------------------------------
  // The peripherals

  /** A `Timer#Pwm` value: proof that `new` has configured timer `id`. */
  datatype PwmTimer = PwmTimer(id: TimerId)

  /** The memory-mapped registers of the four timers. */
  class Timers {
    var regs: TimerRegs

    constructor (initial: TimerRegs)
      ensures regs == initial
    {
      regs := initial;
    }

    /** `Timer#Pwm::new`: one register modification per statement. */
    method New(id: TimerId) returns (t: PwmTimer)
      modifies this
      ensures t == PwmTimer(id)
      ensures regs == old(regs).Init(id)
    {
      t := PwmTimer(id);
      var u := regs.Get(id);
      match id
      case Timer0 =>
        regs := regs.Put(id, u.(wgmLow := FastPwm));
        u := regs.Get(id);
        regs := regs.Put(id, u.(clock := Io64));
      case Timer1 | Timer3 =>
        regs := regs.Put(id, u.(wgmLow := WgmBits(0x01)));
        u := regs.Get(id);
        regs := regs.Put(id, u.(wgmHigh := WgmBits(0x01), clock := Io64));
      case Timer4 =>
        regs := regs.Put(id, u.(clock := Clk64));
        u := regs.Get(id);
        regs := regs.Put(id, u.(wgmLow := WgmBits(0x01)));
    }

    /** `into_pwm`: exists only for an output pin with a channel, and takes
        that channel's timer.  The pin registers are not written: the pin
        stays an output, now tagged with its timer. */
    method IntoPwm(pin: TypedPin, timer: PwmTimer) returns (q: TypedPin)
      requires pin.mode == Output
      requires PwmChannel(pin.name).Some? && TimerOf(PwmChannel(pin.name).value) == timer.id
      modifies this
      ensures q == TypedPin(pin.name, Pwm(timer.id))
      ensures regs == old(regs).Route(PwmChannel(pin.name).value)
    {
      var c := PwmChannel(pin.name).value;
      var u := regs.Get(TimerOf(c));
      var r := u.Chan(SlotOf(c));
      if TimerOf(c) == Timer4 {
        r := r.(com := MatchClear, enable := true);
      } else {
        r := r.(com := MatchClear);
      }
      regs := regs.Put(TimerOf(c), u.WithChan(SlotOf(c), r));
      q := TypedPin(pin.name, Pwm(timer.id));
    }

    /** `set_duty_cycle`: one write of the channel's compare register. */
    method SetDutyCycle(pin: TypedPin, dc: bv8)
      requires PwmChannel(pin.name).Some? && pin.mode == Pwm(TimerOf(PwmChannel(pin.name).value))
      modifies this
      ensures regs == old(regs).WithDuty(PwmChannel(pin.name).value, dc)
    {
      var c := PwmChannel(pin.name).value;
      var u := regs.Get(TimerOf(c));
      regs := regs.Put(TimerOf(c), u.WithChan(SlotOf(c), u.Chan(SlotOf(c)).(ocr := dc)));
    }
  }

  /** A pin made PWM keeps agreeing with the port registers, which
      `into_pwm` does not write: its direction bit still makes it an
      output. */
  lemma IntoPwmKeepsAgreement(bank: Bank, pin: TypedPin, t: TimerId)
    requires pin.mode == Output && Agrees(bank, pin)
    ensures Agrees(bank, TypedPin(pin.name, Pwm(t)))
  {
  }
}
