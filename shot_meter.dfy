/**
  The shot meter of `PlayerController.Update`, as a pure state machine: one call
  of `Tick` is one frame. The state is the controller's `frozen`,
  `isShotMeterActive` and `meterTimer`, the slider's value and visibility, and the
  size and position of the yellow and green accuracy windows.

  Each frame takes the Space key's state, the frame time, and whether the player
  holds the ball. `Tick` also reports whether the frame calls `Ball.Shoot`.
*/
module ShotMeter {
  import opened Options
  import opened Engine

  /** The Space key in one frame: `GetKey` true, `GetKeyUp` true, or neither. */
  datatype Key = Held | Released | Untouched

  /** A window's `sizeDelta` and `localPosition`. */
  datatype Rect = Rect(size: Vec2, position: Vec3)
  datatype Windows = Windows(yellow: Rect, green: Rect)

  datatype Meter = Meter(
    frozen: bool,      // PlayerController.frozen
    active: bool,      // PlayerController.isShotMeterActive
    timer: real,       // PlayerController.meterTimer
    fill: real,        // shotMeter.value
    shown: bool,       // shotMeter.gameObject active
    windows: Windows)

  /** The background's `rect.height` (None when no background is set), the two
      height multipliers and `windowOffset`. */
  datatype WindowConfig = WindowConfig(
    background: Option<real>,
    yellowHeightMultiplier: real,
    greenHeightMultiplier: real,
    windowOffset: real)

  /** `chargeSpeed` and the slider's bounds. */
  datatype Config = Config(chargeSpeed: real, minValue: real, maxValue: real, windows: WindowConfig)

  /** The result of a frame: the new meter, and whether `Ball.Shoot` was called. */
  datatype Step = Step(meter: Meter, fired: bool)

  /** PlayerController.timeToDisplay */
  const TimeToDisplay: real := 0.5

  /** One frame of charging: add `chargeSpeed * dt` and clamp to the slider's range. */
  function Charge(fill: real, c: Config, dt: real): real {
    Clamp(fill + c.chargeSpeed * dt, c.minValue, c.maxValue)
  }

  /** A charge step always lands in the slider's range, never lowers a fill that was
      in range when the step is non-negative, and is exact while within range. */
  lemma ChargeBounds(fill: real, c: Config, dt: real)
    ensures c.minValue <= c.maxValue ==> c.minValue <= Charge(fill, c, dt) <= c.maxValue
    ensures c.minValue <= fill <= c.maxValue && c.chargeSpeed * dt >= 0.0 ==> Charge(fill, c, dt) >= fill
    ensures c.minValue <= fill + c.chargeSpeed * dt <= c.maxValue ==> Charge(fill, c, dt) == fill + c.chargeSpeed * dt
  {
  }

  /** One window after SetShotWindows: new height, raised by `dy`. */
  function Raised(r: Rect, height: real, dy: real): Rect {
    Rect(Vec2(r.size.x, height), Vec3(r.position.x, r.position.y + dy, r.position.z))
  }

  /** SetShotWindows: only with a background and while the meter is not active. */
  function SetWindows(w: Windows, active: bool, c: WindowConfig): Windows {
    if c.background.Some? && !active then
      var h := c.background.value;
      var offsetHeight := c.windowOffset / 2.0 * h;
      Windows(Raised(w.yellow, h * c.yellowHeightMultiplier, offsetHeight),
              Raised(w.green, h * c.greenHeightMultiplier, offsetHeight))
    else w
  }

  /** ResetShotWindows */
  function ResetWindows(w: Windows): Windows {
    Windows(w.yellow.(position := Zero3), w.green.(position := Zero3))
  }

  /** Empty, hide and deactivate the meter, and reset the windows. */
  function Hide(m: Meter, c: Config): Meter {
    m.(fill := c.minValue, shown := false, active := false, windows := ResetWindows(m.windows))
  }

  /** Count the display time down; when it runs out, hide the meter and unfreeze. */
  function CountDown(m: Meter, c: Config, dt: real): Meter {
    var timer := m.timer - dt;
    if timer <= 0.0 then Hide(m.(timer := timer), c).(frozen := false)
    else m.(timer := timer)
  }

  /** Key-up: start the display timer and unfreeze (the caller shoots). */
  function Release(m: Meter): Meter {
    m.(timer := TimeToDisplay, frozen := false)
  }

  /** One frame of the shot-meter logic, for a player whose index is set and whose slider exists. */
  function Tick(m: Meter, c: Config, key: Key, dt: real, holder: bool): Step {
    if holder then
      if !m.frozen then
        match key
        case Held =>
          var windows := SetWindows(m.windows, m.active, c.windows);
          Step(m.(shown := true, windows := windows, active := true, frozen := true, fill := Charge(m.fill, c, dt)), false)
        case Released => Step(Release(m), true)
        case Untouched => Step(Hide(m, c), false)
      else
        match key
        case Held => Step(m.(shown := true, fill := Charge(m.fill, c, dt)), false)
        case Released => Step(Release(m), true)
        case Untouched => Step(CountDown(m, c, dt), false)
    else if m.active then Step(CountDown(m, c, dt), false)
    else Step(m, false)
  }

  /** A holder who is not frozen and holds Space starts (or keeps) charging: the meter
      is shown, active and frozen, and the fill moves by one clamped charge step. */
  lemma PressStartsCharge(m: Meter, c: Config, dt: real)
    requires !m.frozen
    ensures var s := Tick(m, c, Held, dt, true);
      !s.fired && s.meter.shown && s.meter.active && s.meter.frozen
      && s.meter.fill == Charge(m.fill, c, dt)
      && s.meter.timer == m.timer
      && s.meter.windows == SetWindows(m.windows, m.active, c.windows)
  {
  }

  /** Pressing again while frozen keeps charging, shows the meter, and leaves the
      frozen state, the timer and the windows alone. */
  lemma FrozenPressKeepsCharging(m: Meter, c: Config, dt: real)
    requires m.frozen
    ensures var s := Tick(m, c, Held, dt, true);
      !s.fired && s.meter == m.(shown := true, fill := Charge(m.fill, c, dt))
  {
  }

  /** Shoot is called in a frame exactly when the holder releases Space. */
  lemma FiresExactlyOnKeyUp(m: Meter, c: Config, key: Key, dt: real, holder: bool)
    ensures Tick(m, c, key, dt, holder).fired <==> holder && key == Released
  {
  }

  /** On key-up by the holder, frozen or not: the display timer restarts, the meter
      unfreezes, and the fill, visibility and windows stay as they were. */
  lemma KeyUpShoots(m: Meter, c: Config, dt: real)
    ensures var s := Tick(m, c, Released, dt, true);
      s.fired && s.meter == m.(timer := TimeToDisplay, frozen := false)
  {
  }

  /** A holder who is not frozen and touches nothing gets a full reset. */
  lemma IdleHolderResets(m: Meter, c: Config, dt: real)
    requires !m.frozen
    ensures var s := Tick(m, c, Untouched, dt, true);
      !s.fired && s.meter.fill == c.minValue && !s.meter.shown && !s.meter.active && !s.meter.frozen
      && s.meter.windows.yellow.position == Zero3 && s.meter.windows.green.position == Zero3
      && s.meter.windows.yellow.size == m.windows.yellow.size && s.meter.windows.green.size == m.windows.green.size
      && s.meter.timer == m.timer
  {
  }

  /** The countdown, for a frozen holder touching nothing or a non-holder whose meter
      is active: the timer drops by `dt`; at or below zero the meter is emptied,
      hidden, deactivated and unfrozen; otherwise nothing else changes. */
  lemma CountDownRule(m: Meter, c: Config, key: Key, dt: real, holder: bool)
    requires (holder && m.frozen && key == Untouched) || (!holder && m.active)
    ensures var s := Tick(m, c, key, dt, holder);
      !s.fired && s.meter.timer == m.timer - dt
      && (m.timer - dt <= 0.0 ==>
            s.meter.fill == c.minValue && !s.meter.shown && !s.meter.active && !s.meter.frozen
            && s.meter.windows == ResetWindows(m.windows))
      && (m.timer - dt > 0.0 ==> s.meter == m.(timer := m.timer - dt))
  {
  }

  /** A non-holder whose meter is inactive is left alone, whatever the key does. */
  lemma InactiveNonHolderUnchanged(m: Meter, c: Config, key: Key, dt: real)
    requires !m.active
    ensures Tick(m, c, key, dt, false) == Step(m, false)
  {
  }

  /** SetShotWindows does nothing without a background or while the meter is active;
      otherwise it sets both heights from the background's height and raises both
      windows by `windowOffset / 2` of it, leaving the other coordinates alone.
      ResetShotWindows zeroes both positions and keeps both sizes. */
  lemma WindowRules(w: Windows, active: bool, c: WindowConfig)
    ensures c.background.None? || active ==> SetWindows(w, active, c) == w
    ensures c.background.Some? && !active ==>
      var h := c.background.value;
      var r := SetWindows(w, active, c);
      r.yellow.size == Vec2(w.yellow.size.x, h * c.yellowHeightMultiplier)
      && r.green.size == Vec2(w.green.size.x, h * c.greenHeightMultiplier)
      && r.yellow.position == Vec3(w.yellow.position.x, w.yellow.position.y + c.windowOffset / 2.0 * h, w.yellow.position.z)
      && r.green.position == Vec3(w.green.position.x, w.green.position.y + c.windowOffset / 2.0 * h, w.green.position.z)
    ensures var r := ResetWindows(w);
      r.yellow.position == Zero3 && r.green.position == Zero3
      && r.yellow.size == w.yellow.size && r.green.size == w.green.size
  {
  }

  /** Both windows sit where SetShotWindows puts them when they start from zero. */
  ghost predicate WindowsPlaced(w: Windows, c: WindowConfig)
    requires c.background.Some?
  {
    var h := c.background.value;
    var lift := Vec3(0.0, c.windowOffset / 2.0 * h, 0.0);
    w.yellow.size.y == h * c.yellowHeightMultiplier && w.yellow.position == lift
    && w.green.size.y == h * c.greenHeightMultiplier && w.green.position == lift
  }

  /** The meter's parts agree with each other: the fill is within the slider's range;
      the meter is shown exactly while it is active; only an active meter is frozen;
      an inactive meter is empty with its windows at zero; and an active meter's
      windows have been placed once. */
  ghost predicate Consistent(m: Meter, c: Config) {
    c.minValue <= m.fill <= c.maxValue
    && m.shown == m.active
    && (m.frozen ==> m.active)
    && (!m.active ==> m.fill == c.minValue && m.windows.yellow.position == Zero3 && m.windows.green.position == Zero3)
    && (m.active && c.windows.background.Some? ==> WindowsPlaced(m.windows, c.windows))
  }

  /** Every frame keeps the meter consistent, whatever the key, the frame time and
      the possession. In particular the windows' offset is applied once per charge
      and never accumulates. */
  lemma TickPreservesConsistent(m: Meter, c: Config, key: Key, dt: real, holder: bool)
    requires Consistent(m, c)
    ensures Consistent(Tick(m, c, key, dt, holder).meter, c)
  {
    if holder && !m.frozen && key == Held && !m.active && c.windows.background.Some? {
      var h := c.windows.background.value;
      assert m.windows.yellow.position == Zero3 && m.windows.green.position == Zero3;
      assert 0.0 + c.windows.windowOffset / 2.0 * h == c.windows.windowOffset / 2.0 * h;
    }
  }

  /** PlayerController.Start: the slider is set to 0, which its setter clamps to the
      slider's range, and the windows are placed. */
  function Started(m: Meter, c: Config): Meter {
    m.(fill := Clamp(0.0, c.minValue, c.maxValue), windows := SetWindows(m.windows, m.active, c.windows))
  }

  /** The meter a freshly constructed controller has after Start is consistent
      exactly when the slider starts hidden, 0 clamps to `minValue` in a well-ordered
      range, and placing the windows leaves them at zero (no background, or windows
      starting at minus the offset height). Otherwise, with `minValue <= maxValue`,
      `Consistent` holds from the first frame that resets the meter
      (`ResetEstablishesConsistent`), or earlier from the holder's first press
      when the windows are at zero (`PressEstablishesConsistent`). */
  lemma StartedConsistent(fill: real, shown: bool, w: Windows, c: Config)
    ensures var m := Started(Meter(false, false, 0.0, fill, shown, w), c);
      Consistent(m, c) <==>
        !shown && c.minValue <= c.maxValue && Clamp(0.0, c.minValue, c.maxValue) == c.minValue
        && m.windows.yellow.position == Zero3 && m.windows.green.position == Zero3
  {
  }

  /** With the default 0..1 style range starting at 0, a hidden slider, windows at
      zero and no offset height, the state after Start is consistent. */
  lemma DefaultStartConsistent(fill: real, w: Windows, c: Config)
    requires c.minValue == 0.0 <= c.maxValue
    requires w.yellow.position == Zero3 && w.green.position == Zero3
    requires c.windows.background.Some? ==> c.windows.windowOffset / 2.0 * c.windows.background.value == 0.0
    ensures Consistent(Started(Meter(false, false, 0.0, fill, false, w), c), c)
  {
    StartedConsistent(fill, false, w, c);
    var m := Started(Meter(false, false, 0.0, fill, false, w), c);
    if c.windows.background.Some? {
      assert m.windows.yellow.position.y == 0.0 + c.windows.windowOffset / 2.0 * c.windows.background.value;
    }
  }

  /** A frame that resets the meter makes it consistent, whatever came before: the
      idle holder's reset, and the countdown's reset once the timer runs out, for a
      frozen holder or for a non-holder. */
  lemma ResetEstablishesConsistent(m: Meter, c: Config, key: Key, dt: real, holder: bool)
    requires c.minValue <= c.maxValue
    requires (holder && !m.frozen && key == Untouched)
      || (((holder && m.frozen && key == Untouched) || (!holder && m.active)) && m.timer - dt <= 0.0)
    ensures Consistent(Tick(m, c, key, dt, holder).meter, c)
  {
  }

  /** The holder's first press makes the meter consistent when the windows sit at
      zero, even if the slider was left visible before. */
  lemma PressEstablishesConsistent(m: Meter, c: Config, dt: real)
    requires c.minValue <= c.maxValue && !m.frozen && !m.active
    requires m.windows.yellow.position == Zero3 && m.windows.green.position == Zero3
    ensures Consistent(Tick(m, c, Held, dt, true).meter, c)
  {
    if c.windows.background.Some? {
      assert 0.0 + c.windows.windowOffset / 2.0 * c.windows.background.value == c.windows.windowOffset / 2.0 * c.windows.background.value;
    }
  }

  /** With the slider's bounds the wrong way round no meter is consistent. */
  lemma ReversedBoundsNeverConsistent(m: Meter, c: Config)
    requires c.maxValue < c.minValue
    ensures !Consistent(m, c)
  {
  }

  /** At start-up the windows are placed while the meter is inactive. If the first
      frame with the ball is a press, SetShotWindows runs again before the meter is
      marked active, so the windows end up raised by twice the offset, and the meter
      is not `Consistent` unless the offset height is zero. */
  lemma StartupOffsetStacks(m: Meter, c: Config, dt: real)
    requires c.windows.background.Some? && !m.active && !m.frozen
    requires m.windows == SetWindows(Windows(Rect(m.windows.yellow.size, Zero3), Rect(m.windows.green.size, Zero3)), false, c.windows)
    ensures var h := c.windows.background.value;
      var e := Tick(m, c, Held, dt, true).meter;
      e.windows.yellow.position.y == 2.0 * (c.windows.windowOffset / 2.0 * h)
      && e.windows.green.position.y == 2.0 * (c.windows.windowOffset / 2.0 * h)
      && (Consistent(e, c) ==> c.windows.windowOffset / 2.0 * h == 0.0)
  {
  }

  /** The holder keeps Space held for one frame per element of `dts`. */
  function HoldFor(m: Meter, c: Config, dts: seq<real>): Meter
    decreases |dts|
  {
    if dts == [] then m else HoldFor(Tick(m, c, Held, dts[0], true).meter, c, dts[1..])
  }

  lemma HeldStep(m: Meter, c: Config, dt: real)
    ensures var e := Tick(m, c, Held, dt, true).meter;
      e.fill == Charge(m.fill, c, dt)
      && e.shown && e.frozen && e.active == (m.active || !m.frozen)
  {
  }

  /** Holding Space for a run of frames adds up the frames' charges and clamps once
      at the end: the fill never drops while charging and never passes the maximum
      (`IncrementsSum`: the charges add up to `chargeSpeed` times the held time).
      The meter ends shown and frozen, and active unless it started frozen but
      inactive. */
  lemma HoldingCharges(m: Meter, c: Config, dts: seq<real>)
    requires c.minValue <= m.fill <= c.maxValue && c.chargeSpeed >= 0.0
    requires forall i :: 0 <= i < |dts| ==> dts[i] >= 0.0
    ensures HoldFor(m, c, dts).fill == Clamp(m.fill + Sum(Increments(c.chargeSpeed, dts)), c.minValue, c.maxValue)
    ensures dts != [] ==> var e := HoldFor(m, c, dts);
      e.shown && e.frozen && e.active == (m.active || !m.frozen)
  {
    HoldForFill(m, c, dts);
    HoldForFlags(m, c, dts);
    IncrementsNonNegative(c.chargeSpeed, dts);
    ClampEachAbsorbs(m.fill, Increments(c.chargeSpeed, dts), c.minValue, c.maxValue);
  }

  /** The charge of each frame: `chargeSpeed * dt`. */
  function Increments(speed: real, dts: seq<real>): seq<real>
    decreases |dts|
  {
    if dts == [] then [] else [speed * dts[0]] + Increments(speed, dts[1..])
  }

  /** Add each increment in turn, clamping after each one. */
  function ClampEach(fill: real, incs: seq<real>, min: real, max: real): real
    decreases |incs|
  {
    if incs == [] then fill else ClampEach(Clamp(fill + incs[0], min, max), incs[1..], min, max)
  }

  /** The sum of a run of values: of frame times, the held time; of increments, the total charge. */
  function Sum(xs: seq<real>): real
    decreases |xs|
  {
    if xs == [] then 0.0 else xs[0] + Sum(xs[1..])
  }

  lemma {:induction false} HoldForFill(m: Meter, c: Config, dts: seq<real>)
    ensures HoldFor(m, c, dts).fill == ClampEach(m.fill, Increments(c.chargeSpeed, dts), c.minValue, c.maxValue)
    decreases |dts|
  {
    if dts != [] {
      var next := Tick(m, c, Held, dts[0], true).meter;
      HeldStep(m, c, dts[0]);
      HoldForFill(next, c, dts[1..]);
      ChargeThenClampEach(m.fill, next.fill, c, dts);
    }
  }

  /** One charge step followed by the rest is the whole run of increments. */
  lemma ChargeThenClampEach(fill: real, charged: real, c: Config, dts: seq<real>)
    requires dts != [] && charged == Charge(fill, c, dts[0])
    ensures ClampEach(charged, Increments(c.chargeSpeed, dts[1..]), c.minValue, c.maxValue)
         == ClampEach(fill, Increments(c.chargeSpeed, dts), c.minValue, c.maxValue)
  {
    var incs := Increments(c.chargeSpeed, dts);
    IncrementsUnfold(c.chargeSpeed, dts);
    assert charged == Clamp(fill + incs[0], c.minValue, c.maxValue);
  }

  lemma IncrementsUnfold(speed: real, dts: seq<real>)
    requires dts != []
    ensures var incs := Increments(speed, dts);
      |incs| > 0 && incs[0] == speed * dts[0] && incs[1..] == Increments(speed, dts[1..])
  {
  }

  lemma {:induction false} HoldForFlags(m: Meter, c: Config, dts: seq<real>)
    ensures dts != [] ==> var e := HoldFor(m, c, dts);
      e.shown && e.frozen && e.active == (m.active || !m.frozen)
    decreases |dts|
  {
    if dts != [] {
      var next := Tick(m, c, Held, dts[0], true).meter;
      HeldStep(m, c, dts[0]);
      HoldForFlags(next, c, dts[1..]);
      if dts[1..] == [] {
        assert HoldFor(next, c, dts[1..]) == next;
      }
    }
  }

  /** Clamping after every non-negative increment is the same as clamping once. */
  lemma {:induction false} ClampEachAbsorbs(fill: real, incs: seq<real>, min: real, max: real)
    requires min <= fill <= max
    requires forall i :: 0 <= i < |incs| ==> incs[i] >= 0.0
    ensures ClampEach(fill, incs, min, max) == Clamp(fill + Sum(incs), min, max)
    decreases |incs|
  {
    if incs != [] {
      var next := Clamp(fill + incs[0], min, max);
      RestNonNegative(incs);
      ClampEachAbsorbs(next, incs[1..], min, max);
      SumNonNegative(incs[1..]);
      ClampAbsorbs(fill, incs[0], Sum(incs[1..]), min, max);
    }
  }

  lemma {:induction false} SumNonNegative(incs: seq<real>)
    requires forall i :: 0 <= i < |incs| ==> incs[i] >= 0.0
    ensures Sum(incs) >= 0.0
    decreases |incs|
  {
    if incs != [] {
      RestNonNegative(incs);
      SumNonNegative(incs[1..]);
    }
  }

  lemma {:induction false} IncrementsNonNegative(speed: real, dts: seq<real>)
    requires speed >= 0.0 && forall i :: 0 <= i < |dts| ==> dts[i] >= 0.0
    ensures |Increments(speed, dts)| == |dts|
    ensures forall i :: 0 <= i < |dts| ==> Increments(speed, dts)[i] >= 0.0
    decreases |dts|
  {
    if dts != [] {
      RestNonNegative(dts);
      IncrementsNonNegative(speed, dts[1..]);
      NonNegativeProduct(speed, dts[0]);
      var incs := Increments(speed, dts);
      forall i | 0 <= i < |dts| ensures incs[i] >= 0.0 {
        if i > 0 {
          assert incs[i] == Increments(speed, dts[1..])[i - 1];
        }
      }
    }
  }

  /** The frames' charges add up to `chargeSpeed` times the held time. */
  lemma {:induction false} IncrementsSum(speed: real, dts: seq<real>)
    ensures Sum(Increments(speed, dts)) == speed * Sum(dts)
    decreases |dts|
  {
    if dts != [] {
      var dt, rest := dts[0], dts[1..];
      IncrementsSum(speed, rest);
      var incs := Increments(speed, dts);
      assert incs[0] == speed * dt && incs[1..] == Increments(speed, rest);
      assert Sum(dts) == dt + Sum(rest);
      Distribute(speed, dt, Sum(rest));
    }
  }

  lemma ClampAbsorbs(a: real, b: real, e: real, min: real, max: real)
    requires min <= a <= max && b >= 0.0 && e >= 0.0
    ensures Clamp(Clamp(a + b, min, max) + e, min, max) == Clamp(a + (b + e), min, max)
  {
  }

  lemma RestNonNegative(dts: seq<real>)
    requires dts != [] && forall i :: 0 <= i < |dts| ==> dts[i] >= 0.0
    ensures dts[0] >= 0.0 && forall i :: 0 <= i < |dts[1..]| ==> dts[1..][i] >= 0.0
  {
    forall i | 0 <= i < |dts[1..]| ensures dts[1..][i] >= 0.0 { assert dts[1..][i] == dts[i + 1]; }
  }

  lemma Distribute(a: real, b: real, c: real)
    ensures a * (b + c) == a * b + a * c
  {
  }

  /** Holding for a second in total at charge speed 1 on a 0..1 slider fills the meter
      exactly to 1, and no further. */
  lemma OneSecondFillsMeter(m: Meter, c: Config, dts: seq<real>)
    requires c.chargeSpeed == 1.0 && c.minValue == 0.0 && c.maxValue == 1.0 && m.fill == 0.0
    requires forall i :: 0 <= i < |dts| ==> dts[i] >= 0.0
    requires Sum(dts) >= 1.0
    ensures HoldFor(m, c, dts).fill == 1.0
  {
    HoldingCharges(m, c, dts);
    IncrementsSum(c.chargeSpeed, dts);
  }
}
