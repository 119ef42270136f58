/** Busy-wait delays (src/delay.rs): for each clock speed, the number of
    iterations of the four-cycle busy loop that `delay_us(u16)` computes,
    and the `u8`, `u32` and millisecond entry points built on it.

    The busy loop itself is inline assembly and is not modelled: the model
    stops at the count handed to it.  Arithmetic on `u16` wraps modulo
    2^16, as in a release build.  A build with overflow checks panics where
    `*=`, `+` or `-=` leaves the range of `u16`; the shifts `<<` and `<<=`
    drop the bits shifted out in every build, so a wrap there is silent
    (`PanicAt`). */
module Delay {
  import opened Wrappers

  /** The clock-speed markers `MHz24` ... `MHz1` that parametrise `Delay`. */
  datatype Speed = MHz24 | MHz20 | MHz16 | MHz12 | MHz8 | MHz1

  type U8 = x: int | 0 <= x < 0x100
  type U16 = x: int | 0 <= x < 0x1_0000
  type U32 = x: int | 0 <= x < 0x1_0000_0000

  /** Wrapping `u16` arithmetic: the result modulo 2^16. */
  function Wrap16(x: int): U16 {
    x % 0x1_0000
  }

  // ---------------------------------------------------------------------
  // delay_us(u16)

  /** The value of the local `us` right before the compensating
      subtraction: the request scaled to loop iterations, computed in
      `u16` (`us *= 6`, `(us << 2) + us`, `us <<= 2`, `(us << 1) + us`,
      `us <<= 1`), or the request itself at 1 MHz, where the subtraction
      comes first. */
  function BeforeSubtract(speed: Speed, us: U16): U16 {
    match speed
    case MHz24 => Wrap16(us * 6)
    case MHz20 => Wrap16(Wrap16(us * 4) + us)
    case MHz16 => Wrap16(us * 4)
    case MHz12 => Wrap16(Wrap16(us * 2) + us)
    case MHz8 => Wrap16(us * 2)
    case MHz1 => us
  }

  /** The cycles-compensation constant each speed subtracts. */
  function Offset(speed: Speed): nat {
    match speed
    case MHz24 => 5
    case MHz20 => 7
    case MHz16 => 5
    case MHz12 => 5
    case MHz8 => 4
    case MHz1 => 22
  }

  /** The count `delay_us(u16)` hands to the busy loop, or `None` when it
      returns early without running the loop. */
  function LoopCount(speed: Speed, us: U16): Option<U16> {
    match speed
    case MHz24 => if us == 0 then None else Some(Wrap16(BeforeSubtract(speed, us) - 5))
    case MHz20 => if us <= 1 then None else Some(Wrap16(BeforeSubtract(speed, us) - 7))
    case MHz16 => if us <= 1 then None else Some(Wrap16(BeforeSubtract(speed, us) - 5))
    case MHz12 => if us <= 1 then None else Some(Wrap16(BeforeSubtract(speed, us) - 5))
    case MHz8 => if us <= 2 then None else Some(Wrap16(BeforeSubtract(speed, us) - 4))
    case MHz1 =>
      if us <= 16 then None
      else if us <= 25 then None
      else Some(Wrap16(us - 22) / 4)
  }

  /** The largest request each speed returns early for. */
  function Guard(speed: Speed): nat {
    match speed
    case MHz24 => 0
    case MHz20 | MHz16 | MHz12 => 1
    case MHz8 => 2
    case MHz1 => 25
  }

  /** The count in unbounded arithmetic: iterations per microsecond times
      the request, less the compensation (a quarter of the request less
      the compensation at 1 MHz). */
  function Exact(speed: Speed, us: int): int {
    match speed
    case MHz24 => 6 * us - 5
    case MHz20 => 5 * us - 7
    case MHz16 => 4 * us - 5
    case MHz12 => 3 * us - 5
    case MHz8 => 2 * us - 4
    case MHz1 => (us - 22) / 4
  }

  /** The largest request whose scaling does not wrap in `u16`. */
  function MaxNoWrap(speed: Speed): U16 {
    match speed
    case MHz24 => 10922
    case MHz20 => 13107
    case MHz16 => 16383
    case MHz12 => 21845
    case MHz8 => 32767
    case MHz1 => 0xffff
  }

  /** The lower bound the source's comments claim for the value before the
      subtraction ("us is at least 6 so we can substract 5" and so on; at
      1 MHz, at least 26 so that 4 remain after subtracting 22). */
  function CommentFloor(speed: Speed): nat {
    match speed
    case MHz24 => 6
    case MHz20 => 10
    case MHz16 => 8
    case MHz12 => 6
    case MHz8 => 6
    case MHz1 => 26
  }

  /** The busy loop runs exactly when the request is above the speed's
      guard. */
  lemma NoLoopUpToGuard(speed: Speed, us: U16)
    ensures LoopCount(speed, us).None? <==> us <= Guard(speed)
  {
  }

  /** Above the guard and up to the no-wrap bound, the comments' claims
      hold: the scaling does not wrap, the value before the subtraction is
      at least the claimed floor, the floor exceeds the compensation, so
      the subtraction cannot underflow, and the count is the exact one and
      at least 1 (the busy loop never starts from 0, which would make it
      run 65536 times). */
  lemma CommentClaimsHold(speed: Speed, us: U16)
    requires Guard(speed) < us <= MaxNoWrap(speed)
    ensures Offset(speed) < CommentFloor(speed) <= BeforeSubtract(speed, us)
    ensures LoopCount(speed, us) == Some(Exact(speed, us))
    ensures 1 <= Exact(speed, us)
  {
    match speed
    case MHz24 => InRange(6 * us); InRange(6 * us - 5);
    case MHz20 => InRange(4 * us); InRange(5 * us); InRange(5 * us - 7);
    case MHz16 => InRange(4 * us); InRange(4 * us - 5);
    case MHz12 => InRange(2 * us); InRange(3 * us); InRange(3 * us - 5);
    case MHz8 => InRange(2 * us); InRange(2 * us - 4);
    case MHz1 => InRange(us - 22);
  }

  /** A value that fits in `u16` is its own wrapped value. */
  lemma InRange(x: int)
    requires 0 <= x < 0x1_0000
    ensures Wrap16(x) == x
  {
  }

  /** The no-wrap bound is tight: one microsecond more and the scaled
      value wraps to below the compensation, so in a release build the
      subtraction wraps too, and the comments' claims fail. */
  lemma CommentClaimsFailPastBound(speed: Speed)
    requires speed != MHz1
    ensures BeforeSubtract(speed, MaxNoWrap(speed) + 1) < Offset(speed)
    ensures BeforeSubtract(speed, MaxNoWrap(speed) + 1) < CommentFloor(speed)
  {
  }

  /** The checked `u16` operations of `delay_us(u16)`. */
  datatype Step = Multiply | Add | Subtract

  /** The first step at which `delay_us(u16)` panics in a build with
      overflow checks, or `None`.  Only `us *= 6`, the `+` of
      `(us << 2) + us` and `(us << 1) + us`, and the compensating `us -= …`
      are checked; `us <<= 2`, `us <<= 1` and the shifts inside the sums
      wrap silently, as in a release build. */
  function PanicAt(speed: Speed, us: U16): Option<Step> {
    match speed
    case MHz24 =>
      if us == 0 then None
      else if 6 * us > 0xffff then Some(Multiply)
      else if 6 * us < 5 then Some(Subtract)
      else None
    case MHz20 =>
      if us <= 1 then None
      else if Wrap16(4 * us) + us > 0xffff then Some(Add)
      else if Wrap16(4 * us) + us < 7 then Some(Subtract)
      else None
    case MHz16 =>
      if us <= 1 then None
      else if Wrap16(4 * us) < 5 then Some(Subtract)
      else None
    case MHz12 =>
      if us <= 1 then None
      else if Wrap16(2 * us) + us > 0xffff then Some(Add)
      else if Wrap16(2 * us) + us < 5 then Some(Subtract)
      else None
    case MHz8 =>
      if us <= 2 then None
      else if Wrap16(2 * us) < 4 then Some(Subtract)
      else None
    case MHz1 =>
      if us <= 25 then None
      else if us < 22 then Some(Subtract)
      else None
  }

  /** Up to the no-wrap bound no build panics, and one microsecond past it
      a build with overflow checks does: at `us *= 6` for 24 MHz, at the
      `+` for 20 and 12 MHz, and at the subtraction for 16 and 8 MHz.  At
      1 MHz no request panics. */
  lemma DebugPanicsPastBound(speed: Speed, us: U16)
    ensures us <= MaxNoWrap(speed) ==> PanicAt(speed, us) == None
    ensures speed != MHz1 ==>
              PanicAt(speed, MaxNoWrap(speed) + 1) ==
                match speed
                case MHz24 => Some(Multiply)
                case MHz20 | MHz12 => Some(Add)
                case _ => Some(Subtract)
  {
    if us <= MaxNoWrap(speed) {
      match speed
      case MHz20 => InRange(4 * us);
      case MHz16 => InRange(4 * us);
      case MHz12 => InRange(2 * us);
      case MHz8 => InRange(2 * us);
      case _ =>
    }
  }

  /** A wrap at a shift is silent in every build: at 16 MHz a request of
      16386 µs shifts to 8, subtracts to 3, and the busy loop runs 3 times
      without a panic. */
  lemma ShiftWrapIsSilent()
    ensures PanicAt(MHz16, 16386) == None
    ensures LoopCount(MHz16, 16386) == Some(3)
  {
  }

  /** With wrapping arithmetic the count is right exactly when the right
      count fits in `u16`; beyond that the loop silently runs short. */
  lemma CountIsExactIff(speed: Speed, us: U16)
    requires Guard(speed) < us
    ensures LoopCount(speed, us).Some?
    ensures LoopCount(speed, us).value == Exact(speed, us) <==> Exact(speed, us) <= 0xffff
  {
    if speed == MHz1 {
      InRange(us - 22);
    } else {
      CountIsWrappedExact(speed, us);
      assert 1 <= Exact(speed, us);
      WrapIdentity(Exact(speed, us));
    }
  }

  /** Away from 1 MHz, the count is the exact one reduced modulo 2^16:
      wrapping in the scaling and in the subtraction cancel out. */
  lemma CountIsWrappedExact(speed: Speed, us: U16)
    requires Guard(speed) < us && speed != MHz1
    ensures LoopCount(speed, us) == Some(Wrap16(Exact(speed, us)))
  {
    match speed
    case MHz24 => ModSubtract(6 * us, 5);
    case MHz20 => ModAdd(4 * us, us); ModSubtract(5 * us, 7);
    case MHz16 => ModSubtract(4 * us, 5);
    case MHz12 => ModAdd(2 * us, us); ModSubtract(3 * us, 5);
    case MHz8 => ModSubtract(2 * us, 4);
  }

  /** A non-negative value is its own wrapped value exactly when it fits. */
  lemma WrapIdentity(x: int)
    requires 0 <= x
    ensures Wrap16(x) == x <==> x < 0x1_0000
  {
  }

  /** Reducing before an addition does not change the result modulo 2^16. */
  lemma ModAdd(x: int, y: int)
    ensures Wrap16(Wrap16(x) + y) == Wrap16(x + y)
  {
    ModSubtract(x, -y);
  }

  /** Reducing before a subtraction does not change the result modulo 2^16. */
  lemma ModSubtract(x: int, c: int)
    ensures Wrap16(Wrap16(x) - c) == Wrap16(x - c)
  {
    var q := x / 0x1_0000;
    assert x == q * 0x1_0000 + x % 0x1_0000;
    assert x - c == (x % 0x1_0000 - c) + q * 0x1_0000;
  }

  /** A longer request never makes a shorter busy loop, as long as both
      are within the no-wrap bound. */
  lemma CountIsMonotone(speed: Speed, u: U16, w: U16)
    requires Guard(speed) < u <= w <= MaxNoWrap(speed)
    ensures LoopCount(speed, u).value <= LoopCount(speed, w).value
  {
    CommentClaimsHold(speed, u);
    CommentClaimsHold(speed, w);
  }

  // ---------------------------------------------------------------------
  // delay_us(u8)

  /** `DelayUs<u8>`: the `u16` delay of the widened request. */
  function DelayUs8(speed: Speed, us: U8): (r: Option<U16>)
    ensures r.Some? <==> Guard(speed) < us
    ensures r.Some? ==> r.value == Exact(speed, us) && 1 <= r.value
  {
    CommentClaimsHold8(speed, us);
    LoopCount(speed, us)
  }

  /** No 8-bit request reaches a speed's no-wrap bound. */
  lemma CommentClaimsHold8(speed: Speed, us: U8)
    ensures Guard(speed) < us ==> LoopCount(speed, us) == Some(Exact(speed, us)) && 1 <= Exact(speed, us)
    ensures LoopCount(speed, us).Some? <==> Guard(speed) < us
  {
    NoLoopUpToGuard(speed, us);
    if Guard(speed) < us {
      CommentClaimsHold(speed, us);
    }
  }

  // ---------------------------------------------------------------------
  // delay_us(u32) and delay_ms

  /** The microseconds a trace of `u16` delay calls asks for in total. */
  function Requested(calls: seq<U16>): nat {
    if |calls| == 0 then 0 else calls[0] + Requested(calls[1..])
  }

  lemma {:induction false} RequestedAppend(a: seq<U16>, b: seq<U16>)
    ensures Requested(a + b) == Requested(a) + Requested(b)
  {
    if |a| == 0 {
      assert a + b == b;
    } else {
      assert (a + b)[1..] == a[1..] + b;
      RequestedAppend(a[1..], b);
    }
  }

  lemma {:induction false} RequestedRepeat(n: nat, c: U16)
    ensures Requested(seq(n, _ => c)) == n * c
  {
    if n > 0 {
      assert seq(n, _ => c)[1..] == seq(n - 1, _ => c);
      RequestedRepeat(n - 1, c);
    }
  }

  /** The inner calls `delay_us(u32)` makes as written: `us >> 12` calls of
      `delay_us(0xfff)`. */
  function Chunks(us: U32): seq<U16> {
    seq(us / 0x1000, _ => 0xfff)
  }

  /** `DelayUs<u32>` as written: the loop and the trace of its calls. */
  method DelayUs32(us: U32) returns (calls: seq<U16>)
    ensures calls == Chunks(us)
  {
    calls := [];
    var n := us / 0x1000;
    for i := 0 to n
      invariant calls == seq(i, _ => 0xfff)
    {
      calls := calls + [0xfff];
    }
  }

  /** As written, `delay_us(u32)` asks for 4095 microseconds per 4096 and
      drops the remainder below 4096: it falls short for every non-zero
      request. */
  lemma ChunksFallShort(us: U32)
    ensures Requested(Chunks(us)) == us - us / 0x1000 - us % 0x1000
    ensures Requested(Chunks(us)) == us <==> us == 0
  {
    RequestedRepeat(us / 0x1000, 0xfff);
  }

  /** Hence `delay_ms(1)` to `delay_ms(4)` ask for no delay at all. */
  lemma ShortDelayMsDoesNothing(ms: U16)
    requires 1 <= ms <= 4
    ensures Chunks(ms * 1000) == []
    ensures Requested(Chunks(ms * 1000)) == 0
  {
  }

  /** The corrected inner calls: `us >> 12` calls of `delay_us(0x1000)`,
      then one of `delay_us(us & 0xfff)` for the remainder. */
  function CorrectedChunks(us: U32): seq<U16> {
    seq(us / 0x1000, _ => 0x1000) + [us % 0x1000]
  }

  method DelayUs32Corrected(us: U32) returns (calls: seq<U16>)
    ensures calls == CorrectedChunks(us)
  {
    calls := [];
    var n := us / 0x1000;
    for i := 0 to n
      invariant calls == seq(i, _ => 0x1000)
    {
      calls := calls + [0x1000];
    }
    calls := calls + [us % 0x1000];
  }

  /** The corrected calls ask for exactly the requested time, and every one
      of them is within every speed's no-wrap bound, so each inner busy
      loop count is exact. */
  lemma CorrectedChunksAreExact(us: U32, speed: Speed)
    ensures Requested(CorrectedChunks(us)) == us
    ensures forall i :: 0 <= i < |CorrectedChunks(us)| ==> CorrectedChunks(us)[i] <= MaxNoWrap(speed)
  {
    RequestedAppend(seq(us / 0x1000, _ => 0x1000), [us % 0x1000]);
    RequestedRepeat(us / 0x1000, 0x1000);
    assert Requested([us % 0x1000]) == us % 0x1000 + Requested([]);
  }

  /** `DelayMs<u16>`: `ms * 1000` microseconds, which fits in `u32` for every
      `u16` (at most 65535000), through the corrected `u32` delay. */
  method DelayMs(ms: U16) returns (calls: seq<U16>)
    ensures calls == CorrectedChunks(ms * 1000)
    ensures Requested(calls) == ms * 1000
  {
    calls := DelayUs32Corrected(ms * 1000);
    CorrectedChunksAreExact(ms * 1000, MHz24);
  }
}
