# atmega32u4-hal core in Dafny

A model of the sequential core of the ATmega32U4 hardware-abstraction
layer `atmega32u4-hal`, with proofs about it.

- `bits.dfy` (module `Bits`): the single-bit read-modify-write and test
  that every port register access uses.
- `gpio.dfy` (module `Gpio`, `src/port.rs`): ports B to F, and `split`,
  which hands out the bonded pins in `Input<Floating>` mode. The three
  mode transitions. `set_high`/`set_low`/`is_set_high`/`is_set_low` on
  output pins and `is_high`/`is_low` on input pins, for the typed pins
  `PB0` ... `PF7`, the port-erased pins `PBx` ... `PFx` and the fully
  erased `Pin` with its run-time `Port` dispatch. `downgrade` and
  `downgrade_port`.
- `timer.dfy` (module `Timer`, `src/timer.rs`): `new` of Timer0/1/3/4,
  `into_pwm`, `set_duty_cycle`, and the table binding pins to
  compare-output channels.
- `delay.dfy` (module `Delay`, `src/delay.rs`): the loop count that
  `delay_us(u16)` computes at each clock speed, plus the `u8`, `u32` and
  millisecond entry points.

Register state lives in objects:
- `Gpio.Ports` holds the three registers of every port as one value of
  type `Bank`.
- `Timer.Timers` holds the four timers' control fields as one value of
  type `TimerRegs`.

Each method that writes registers does so one read-modify-write at a
time, as the source does. Its contract says the new state is the old
state transformed by a function on `Bank` or `TimerRegs`. Those
functions carry their own contracts: which bits or fields they set, and
that nothing else changes (`Untouched`, `OnlyChannel`). Two lemmas show
that those frame predicates leave exactly one possible result:
`Gpio.UntouchedDetermines` and `Timer.OnlyChannelDetermines`.

Rust's type-state becomes a `mode` field plus preconditions:
- `set_high` requires `mode == Output`.
- The three transitions require `mode.IsIo()`, the `Io` bound of
  `src/port.rs:229`. So a pin in `Pwm` mode has no way back.
- That a transition takes the direction register of its own port, which
  the `PortDDR` trait bound guarantees, is `ddr.port == Port()`.

Pin types are `PinName` values: a port and a bit position that the
predicate `Bonded` admits.

On two points the code itself is inconsistent or incomplete, and the
model follows what the code implements:
- The module documentation of `src/timer.rs` also lists channel `OC1C` of
  Timer1 on `(PB7)` (`src/timer.rs:29`). Its note says that PWM on PB7
  through Timer1 is not yet implemented (`src/timer.rs:34-35`), and that
  entry is commented out (`src/timer.rs:153-161`). So the model has no
  Timer1 entry point for PB7, and PB7 belongs to Timer0 only.
- `src/port.rs:84` declares the PWM mode as `Pwm<TIMER>`, while
  `src/timer.rs:89` and `src/timer.rs:98` use `Pwm` with no parameter.
  The model keeps the timer in the tag: `Mode.Pwm(timer)`.

Delay arithmetic on `u16` wraps modulo 2^16, as in a release build. A
build with overflow checks panics only where `*=`, `+` or `-=` leaves the
range of `u16`. The shifts `<<` and `<<=` drop the bits shifted out in
every build. So a wrap at a shift is silent in both builds, and the
release-build count applies unchanged. `Delay.PanicAt` names the first
checked step that would panic.

## Model

| member | source | states |
|---|---|---|
| `Bits.MaskIsShift` | src/port.rs:152 | the mask table is `1 << i` for every bit position |
| `Bits.Set` | src/port.rs:152 | the bitwise or with `1 << i` has bit `i` set and every other bit as in `r` |
| `Bits.Clear` | src/port.rs:159 | `r & !(1 << i)` has bit `i` clear and every other bit as in `r` |
| `Bits.SetIsUnique` | src/port.rs:272 | a value equals the bitwise or of `r` with `1 << i` exactly when its bit `i` is set and its other bits are those of `r` |
| `Bits.Unset` | src/port.rs:291-295 | `r & (1 << i) == 0`, the form of every `is_set_low` and `is_low` read, is exactly the negation of the bit test |
| `Bits.ClearIsUnique` | src/port.rs:279 | a value equals `r & !(1 << i)` exactly when its bit `i` is clear and its other bits are those of `r` |
| `Gpio.Bonded` | src/port.rs:407-446 | the bonded positions, one clause per `port_impl!` pin list (B all, C 6-7, D all, E 2 and 6, F 0-1 and 4-7); `Gpio.SplitPositions` states them and `Gpio.SplitHandsOutEachPinOnce` ties them to `split` |
| `Gpio.Bank.ModeAt` | src/port.rs:229-265 | a set direction bit means output; otherwise the latch bit selects pull-up or floating input |
| `Gpio.Bank.WithFloatingInput` | src/port.rs:231-243 | clears direction bit and latch bit `i`. Mode becomes `Input(Floating)`. No other bit of any port and no input register changes |
| `Gpio.Bank.WithPullUpInput` | src/port.rs:246-258 | clears direction bit `i` and sets latch bit `i`. Mode becomes `Input(PullUp)`. Nothing else changes |
| `Gpio.Bank.WithOutput` | src/port.rs:261-265 | sets direction bit `i`. Mode becomes `Output`. The latch register is unchanged, so the pin drives the level latched before |
| `Gpio.Bank.WithLatch` | src/port.rs:268-282 | latch bit `i` takes the requested level. The direction register and every other bit are unchanged |
| `Gpio.UntouchedDetermines` | src/port.rs:235-279 | two banks that change only bit `i` of port `p`, and agree on it, are equal, so the frame contracts above leave one possible result |
| `Gpio.ResetBank` | src/port.rs:8 | with every direction and latch bit 0, every position of every port is a floating input, and the input registers hold what the pins see |
| `Gpio.Split` | src/port.rs:114-121 | `split` gives the port's direction-register handle and, for exactly the bonded positions, a pin of that port and position in `Input(Floating)` mode. No register is written |
| `Gpio.SplitPositions` | src/port.rs:407-446 | the positions handed out are B 0-7, C 6-7, D 0-7, E 2 and 6, F 0-1 and 4-7 |
| `Gpio.SplitHandsOutEachPinOnce` | src/port.rs:405-446 | every pin type is handed out by the split of its own port, at its own position, and by no other split or position |
| `Gpio.SplitAgreesWithReset` | src/port.rs:114-121 | after reset, every pin `split` hands out has a mode tag that agrees with the registers |
| `Gpio.TypedPin.Downgrade` | src/port.rs:208-214 | the fully erased pin keeps the port, bit position and mode |
| `Gpio.TypedPin.DowngradePort` | src/port.rs:221-226 | the port-erased pin keeps the port, bit position and mode |
| `Gpio.TypedPin.IntoFloatingInput` | src/port.rs:231-243 | from an `Io` mode, with its own port's direction register: clears the direction bit, then the latch bit. Returns the pin as `Input(Floating)`; tag and registers agree |
| `Gpio.TypedPin.IntoPullUpInput` | src/port.rs:246-258 | clears the direction bit, then sets the latch bit. Returns the pin as `Input(PullUp)`; tag and registers agree |
| `Gpio.TypedPin.IntoOutput` | src/port.rs:261-265 | sets the direction bit and keeps the latched level. Returns the pin as `Output`; tag and registers agree |
| `Gpio.TypedPin.SetHigh` | src/port.rs:269-274 | on an output pin, sets only latch bit `i`; afterwards `is_set_high` holds |
| `Gpio.TypedPin.SetLow` | src/port.rs:276-281 | on an output pin, clears only latch bit `i`; afterwards `is_set_low` holds |
| `Gpio.TypedPin.IsSetHigh` | src/port.rs:285-289 | reads latch bit `i` of the pin's own port; `Gpio.TypedPin.SetHigh` and `Gpio.TypedPin.SetLow` state what it reads after each write, and `Gpio.DowngradeKeepsReads` that the erased pins read the same |
| `Gpio.TypedPin.IsSetLow` | src/port.rs:284-295 | `is_set_low` is the negation of `is_set_high`, read from the latch register |
| `Gpio.TypedPin.IsHigh` | src/port.rs:301-305 | reads input bit `i` of the pin's own port, not the latch; `Gpio.DowngradeKeepsReads` states that the erased pins read the same |
| `Gpio.TypedPin.IsLow` | src/port.rs:300-311 | `is_low` is the negation of `is_high`, read from the input register |
| `Gpio.PortErasedPin.SetHigh` | src/port.rs:148-154 | sets latch bit `i` of its port and nothing else |
| `Gpio.PortErasedPin.SetLow` | src/port.rs:156-161 | clears latch bit `i` of its port and nothing else |
| `Gpio.PortErasedPin.IsSetHigh` | src/port.rs:165-169 | for a bonded position, it equals `is_set_high` of the typed pin at that port and index |
| `Gpio.PortErasedPin.IsSetLow` | src/port.rs:171-175 | the negation of `is_set_high` of the same pin, and for a bonded position, `is_set_low` of the typed pin there |
| `Gpio.PortErasedPin.IsHigh` | src/port.rs:181-185 | for a bonded position, it equals `is_high` of the typed pin at that port and index |
| `Gpio.PortErasedPin.IsLow` | src/port.rs:187-191 | the negation of `is_high` of the same pin, and for a bonded position, `is_low` of the typed pin there |
| `Gpio.ErasedPin.SetHigh` | src/port.rs:334-343 | dispatches on the run-time port; sets only latch bit `i` of that port |
| `Gpio.ErasedPin.SetLow` | src/port.rs:345-354 | dispatches on the run-time port; clears only latch bit `i` of that port |
| `Gpio.ErasedPin.IsSetHigh` | src/port.rs:358-366 | the dispatch reads latch bit `i` of the run-time port |
| `Gpio.ErasedPin.IsSetLow` | src/port.rs:368-376 | the dispatch gives the negation of latch bit `i` of the run-time port |
| `Gpio.ErasedPin.IsHigh` | src/port.rs:382-390 | the dispatch reads input bit `i` of the run-time port |
| `Gpio.ErasedPin.IsLow` | src/port.rs:392-400 | the dispatch gives the negation of input bit `i` of the run-time port |
| `Gpio.DowngradeKeepsReads` | src/port.rs:208-226 | both downgraded forms of a pin read the same register bit as the typed pin, for every query |
| `Timer.WiredPin` | src/timer.rs:23-35 | the pin each channel drives, as the documented table lists it; `Timer.ChannelTable` and `Timer.ChannelsAreDistinct` state its properties |
| `Timer.PwmChannel` | src/timer.rs:117-205 | the channel whose `into_pwm` and `set_duty_cycle` each pin type has, from the `Pins` lists of the four `timer_impl!` invocations; `Timer.ChannelTable` proves it agrees with `Timer.WiredPin` in both directions, and `Timer.PwmPins` names the seven pins |
| `Timer.ChannelTable` | src/timer.rs:23-35 | a pin has PWM code for a channel exactly when the documented table wires that channel to it |
| `Timer.ChannelsAreDistinct` | src/timer.rs:23-35 | no two channels drive the same pin, and no two share one slot of one timer |
| `Timer.PwmPins` | src/timer.rs:20-35 | exactly PB5, PB6, PB7, PC6, PC7, PD0 and PD7 can produce PWM |
| `Timer.TimerRegs.Init` | src/timer.rs:109-190 | `new` selects fast PWM and io/64 on Timer0. On Timer1 and Timer3 it sets waveform bits 0b01 in both registers and io/64. On Timer4 it sets clk/64 and waveform bits 0b01. It changes no channel slot of the timer (used or not) and no other timer |
| `Timer.TimerRegs.Route` | src/timer.rs:118-205 | the channel's compare output clears on match, and on Timer4 its PWM-enable bit is set. Its duty cycle, every other channel and every timer's configuration are unchanged |
| `Timer.TimerRegs.WithDuty` | src/timer.rs:118-205 | the channel's compare register becomes `dc`; nothing else changes |
| `Timer.OnlyChannelDetermines` | src/timer.rs:118-205 | two states that change only channel `c`, and agree on it, are equal, so the contracts of `Route` and `WithDuty` leave one possible result |
| `Timer.InitKeepsChannels` | src/timer.rs:70-82 | configuring a timer changes no channel's routing or duty cycle, and commutes with routing a channel of a different timer |
| `Timer.RouteIdempotent` | src/timer.rs:84-96 | routing a channel twice is routing it once |
| `Timer.LastDutyWins` | src/timer.rs:98-103 | of two duty writes, the second wins; rewriting the current value changes nothing |
| `Timer.PwmSetup` | src/timer.rs:37-52 | after `new`, `into_pwm` and `set_duty_cycle(dc)`, the timer is configured, the channel is routed and its duty is `dc` |
| `Timer.Timers.New` | src/timer.rs:75-81 | performs one register modification per source statement, with the result `Init` describes, and returns the timer handle |
| `Timer.Timers.IntoPwm` | src/timer.rs:84-96 | for an output pin and its channel's timer: routes that channel and returns the pin tagged `Pwm(timer)` |
| `Timer.Timers.SetDutyCycle` | src/timer.rs:98-103 | for a pin tagged with its own channel's timer: writes that channel's compare register only |
| `Timer.IntoPwmKeepsAgreement` | src/timer.rs:84-96 | `into_pwm` writes no port register, and the pin still agrees with them as an output |
| `Delay.LoopCount` | src/delay.rs:37-167 | the count `delay_us(u16)` hands to the busy loop at each speed, in wrapping `u16` arithmetic, or none on an early return; `Delay.NoLoopUpToGuard`, `Delay.CommentClaimsHold`, `Delay.CountIsExactIff`, `Delay.CountIsWrappedExact` and `Delay.CountIsMonotone` state its properties |
| `Delay.PanicAt` | src/delay.rs:47-144 | the first checked step (`*=`, `+` or `-=`) that leaves `u16` in a build with overflow checks, or none; `Delay.DebugPanicsPastBound` and `Delay.ShiftWrapIsSilent` state where it panics |
| `Delay.NoLoopUpToGuard` | src/delay.rs:37-167 | the busy loop runs exactly when the request exceeds the guard: 0 at 24 MHz; 1 at 20, 16 and 12 MHz; 2 at 8 MHz; 25 at 1 MHz |
| `Delay.CommentClaimsHold` | src/delay.rs:37-167 | from above the guard up to 10922, 13107, 16383, 21845 or 32767 µs: no wrap, and the claimed floor (6, 10, 8, 6, 6; 26 at 1 MHz) holds and exceeds the compensation. The count is exactly 6us-5, 5us-7, 4us-5, 3us-5, 2us-4 or (us-22)/4, and at least 1 |
| `Delay.CommentClaimsFailPastBound` | src/delay.rs:47-144 | one microsecond past that bound, the scaled value wraps below the compensation, so the subtraction underflows |
| `Delay.DebugPanicsPastBound` | src/delay.rs:37-148 | no build panics up to the no-wrap bound. One microsecond past it, a build with overflow checks panics at `us *= 6` (24 MHz), at the `+` (20 and 12 MHz) or at the subtraction (16 and 8 MHz). No request panics at 1 MHz |
| `Delay.ShiftWrapIsSilent` | src/delay.rs:95-100 | at 16 MHz, 16386 µs wraps at `us <<= 2` in every build without a panic, and the busy loop runs 3 times |
| `Delay.CountIsExactIff` | src/delay.rs:37-167 | above the guard, the wrapping count equals the exact count exactly when the exact count fits in `u16` |
| `Delay.CountIsWrappedExact` | src/delay.rs:37-148 | away from 1 MHz, the count is the exact count reduced modulo 2^16 |
| `Delay.CountIsMonotone` | src/delay.rs:37-167 | within the bound, a longer request never gives a shorter busy loop |
| `Delay.DelayUs8` | src/delay.rs:169-175 | the `u8` delay runs the busy loop exactly above the guard, and its count is then exact and at least 1 |
| `Delay.CommentClaimsHold8` | src/delay.rs:169-175 | no 8-bit request reaches the no-wrap bound of any speed |
| `Delay.Chunks` | src/delay.rs:181-183 | the as-written inner calls of `delay_us(u32)`, `us >> 12` requests of 4095 µs; `Delay.DelayUs32` computes it and `Delay.ChunksFallShort` states what it asks for |
| `Delay.DelayUs32` | src/delay.rs:177-185 | as written: `us >> 12` calls of `delay_us(0xfff)` and nothing else |
| `Delay.ChunksFallShort` | src/delay.rs:181-183 | as written, the calls ask for `us - us/4096 - us%4096` µs, which equals `us` only for 0 |
| `Delay.ShortDelayMsDoesNothing` | src/delay.rs:187-193 | as written, `delay_ms(1)` to `delay_ms(4)` make no inner call |
| `Delay.CorrectedChunks` | src/delay.rs:181-183 | the corrected inner calls, `us >> 12` requests of 4096 µs and one for `us & 0xfff`; `Delay.DelayUs32Corrected` computes it and `Delay.CorrectedChunksAreExact` states what it asks for |
| `Delay.DelayUs32Corrected` | src/delay.rs:177-185 | corrected: `us >> 12` calls of `delay_us(0x1000)`, then one of `delay_us(us & 0xfff)` |
| `Delay.CorrectedChunksAreExact` | src/delay.rs:177-185 | the corrected calls ask for exactly `us` µs, and each call is within every speed's no-wrap bound |
| `Delay.DelayMs` | src/delay.rs:187-193 | `ms * 1000` fits in `u32` for every `u16`, and the corrected calls ask for exactly `ms * 1000` µs |
| `Delay.RequestedRepeat` | src/delay.rs:181-183 | `n` calls of `delay_us(c)` ask for `n * c` µs |

## Left out

- The busy loop `busy_loop` (`src/delay.rs:26-35`) and the `nop` padding (`src/delay.rs:64-66`) are inline assembly. The model stops at the count passed to the loop; cycle timing is not modelled.
- Debug-build overflow panics in `delay_us(u16)` are not modelled as aborts: `Delay.LoopCount` wraps, as a release build does. `Delay.PanicAt` says where a build with overflow checks would stop instead. `Delay.DebugPanicsPastBound` marks the first input at which it does.
- `src/global.rs` (interrupt-safe shared storage) and `src/lib.rs` (module declarations) are not part of this model.
- The `define_pins!` macro (`src/port.rs:451-516`) only calls `split` on each port and forwards direction-register access; it is not modelled.
- The register-map crate is not part of this model. Raw pointer access, the `modify`/`write` closures and the bit encodings of `pwm_fast`, `io_64`, `clk_64` and `match_clear` become abstract field values. `modify` is taken to preserve the fields it does not name.
- Some timer fields the source never writes are not modelled: the high bytes of the 16-bit compare registers, Timer1's channel C, and the other fields of each control register.
- Other fields the source never writes are modelled, so that the frame contracts can say they stay unchanged. These are `wgmHigh` of Timers 0 and 4, the `enable` bit of Timers 0, 1 and 3, and Timer3's second channel slot.
- Electrical behaviour is not modelled: the input register's value (an input to the model), the PWM waveform, and the duty proportion.
- `toggleable::Default` (`src/port.rs:178`, 298, 379) takes its toggle logic from embedded-hal, which is not part of this model.
- Move semantics and uniqueness of pin and timer handles are not modelled: the model does not track that a handle is consumed, or that each pin is handed out once per program.
- `Timer.Timers.IntoPwm`: does not require that `New` ran for the timer. In Rust a `Timer#Pwm` value can only come from `new`; in the model a `PwmTimer` value can be built directly.
- `Gpio.PortErasedPin.SetHigh`: the run-time index is a bit position 0-7. The source stores a `u8` that only `downgrade_port` sets, and always to the pin's constant index. The erased pins `Gpio.ErasedPin` are modelled the same way.
- `Delay.DelayMs`: uses the corrected `u32` delay. The as-written behaviour is `Delay.DelayUs32`, and `Delay.ShortDelayMsDoesNothing` states what it does for `delay_ms`.
- `Delay::new` and the speed markers are zero-sized values; the speed is a parameter.

## Findings

| source | as written | input that shows it | evidently intended | confidence | as-written member | corrected member |
|---|---|---|---|---|---|---|
| src/delay.rs:181-183 | `delay_us(u32)` makes `us >> 12` calls of `delay_us(0xfff)`, dropping `us & 0xfff` and asking for 4095 µs per 4096 | `delay_ms(1)`, i.e. `us = 1000`, makes no inner call; `us = 4096` asks for 4095 µs | the calls add up to `us`: `us >> 12` calls of 4096 µs and one call for the remainder | high, not executed | `Delay.DelayUs32`, `Delay.ChunksFallShort`, `Delay.ShortDelayMsDoesNothing` | `Delay.DelayUs32Corrected`, `Delay.CorrectedChunksAreExact` |
