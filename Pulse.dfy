/** The pulse controller (src/PWMController.cpp): pulse parameters, the clamp
    and mode selection that `start()` runs before driving the output pin, the
    stop and auto-stop lifecycle, and the validator for the pulse keys. */
module Pulse {
  import opened Config
  import opened FormInterface
  import opened ConfigStore

  // PWMController::FormKey
  const KEY_PWM_FREQ: int := 200
  const KEY_PWM_WIDTH: int := 201
  const KEY_PWM_DUTY: int := 202
  const KEY_PWM_DURATION: int := 203

  /** PWMController::StartResult */
  datatype StartResult = StartPwm | StartPwmClipped | StartOff | StartCw

  /** What the output pin drives: nothing, a static high, or a PWM wave at a
      frequency (Hz) with a level out of PWM_RANGE. */
  datatype Pin = Low | High | Pwm(freq: u32, level: nat)

  /** The pulse parameters: frequency (Hz, 0 selects CW trigger mode), width
      (us), duration (ms) and duty cycle (whole percent). */
  datatype PulseParams = PulseParams(freq: u32, width: u32, duration: u32, duty: nat)

  // ---------------------------------------------------------------------
  // Arithmetic used by the duty stage
  // ---------------------------------------------------------------------

  /** Multiplying by a non-negative number keeps the order. */
  lemma MulMonotone(x: int, y: int, b: int)
    requires x <= y && 0 <= b
    ensures x * b <= y * b
  {
    assert y * b - x * b == (y - x) * b;
  }

  /** Floor division against a bound: `a / b < c` exactly when `a < c * b`. */
  lemma DivBelow(a: int, b: int, c: int)
    requires 0 <= a && 0 < b
    ensures a / b < c <==> a < c * b
  {
    var q, r := a / b, a % b;
    assert a == q * b + r && 0 <= r < b;
    if q < c {
      MulMonotone(q + 1, c, b);
      assert (q + 1) * b == q * b + b;
    } else {
      MulMonotone(c, q, b);
    }
  }

  /** Re-clamping the width to the duty limit makes it strictly smaller. */
  lemma DutyClampShrinks(width: nat, period: nat, maxDuty: nat)
    requires 0 < period
    requires 100 * width / period > maxDuty
    ensures maxDuty * period / 100 < width
  {
    DivBelow(100 * width, period, maxDuty + 1);
    assert (maxDuty + 1) * period <= 100 * width;
    assert maxDuty * period < 100 * width;
    DivBelow(maxDuty * period, 100, width);
  }

  /** After the re-clamp the integer duty cycle is within the limit. */
  lemma DutyClampWithinLimit(period: nat, maxDuty: nat)
    requires 0 < period
    ensures 100 * (maxDuty * period / 100) / period <= maxDuty
  {
    var w := maxDuty * period / 100;
    assert 100 * w <= maxDuty * period;
    DivBelow(100 * w, period, maxDuty + 1);
  }

  // ---------------------------------------------------------------------
  // The clamp and mode-selection algorithm of start()
  // ---------------------------------------------------------------------

  /** The parameters after the clamps of the first stage, and whether any of
      them fired. */
  datatype Clamped = Clamped(freq: u32, width: u32, duration: u32, clipped: bool)

  /** First stage: frequency against the device maximum (a frequency below
      the device minimum, 0 included, is only reported), width into the
      device range, duration to the configured maximum. */
  function ClampStage(freq: u32, width: u32, duration: u32, maxDuration: u32): (c: Clamped)
    ensures c.freq <= PWM_MAX_FREQ && PWM_MIN_WIDTH <= c.width <= PWM_MAX_WIDTH && c.duration <= maxDuration
    ensures freq <= PWM_MAX_FREQ ==> c.freq == freq
    ensures freq > PWM_MAX_FREQ ==> c.freq == PWM_MAX_FREQ
    ensures PWM_MIN_WIDTH <= width <= PWM_MAX_WIDTH ==> c.width == width
    ensures width > PWM_MAX_WIDTH ==> c.width == PWM_MAX_WIDTH
    ensures width < PWM_MIN_WIDTH ==> c.width == PWM_MIN_WIDTH
    ensures duration <= maxDuration ==> c.duration == duration
    ensures duration > maxDuration ==> c.duration == maxDuration
    ensures c.clipped <==> freq > PWM_MAX_FREQ || freq < PWM_MIN_FREQ
                           || width > PWM_MAX_WIDTH || width < PWM_MIN_WIDTH
                           || duration > maxDuration
  {
    var f := if freq > PWM_MAX_FREQ then PWM_MAX_FREQ else freq;
    var w := if width > PWM_MAX_WIDTH then PWM_MAX_WIDTH else width;
    var w' := if w < PWM_MIN_WIDTH then PWM_MIN_WIDTH else w;
    var d := if duration > maxDuration then maxDuration else duration;
    Clamped(f, w', d, freq > PWM_MAX_FREQ || f < PWM_MIN_FREQ || width > PWM_MAX_WIDTH
                      || w < PWM_MIN_WIDTH || duration > maxDuration)
  }

  /** The PWM period in microseconds of a frequency in the device range. */
  function Period(freq: u32): (period: nat)
    requires 0 < freq <= PWM_MAX_FREQ
    ensures 1000 <= period <= 1000000
  {
    1000000 / freq as int
  }

  /** The output level of a pulse of `width` us in a period of `period` us:
      below the full range exactly when the pulse is shorter than the period. */
  function Level(width: nat, period: nat): (level: nat)
    requires 0 < period
    ensures level < PWM_RANGE as nat <==> width < period
  {
    DivBelow(PWM_RANGE as int * width, period, PWM_RANGE as int);
    PWM_RANGE as int * width / period
  }

  /** The integer duty cycle, in percent, of a pulse of `width` us. */
  function DutyPercent(width: nat, period: nat): nat
    requires 0 < period
  {
    100 * width / period
  }

  /** The width the duty limit allows: a float product in the source,
      truncated back to uint32_t. */
  function DutyLimitedWidth(period: nat, maxDuty: nat): (w: nat)
    requires 0 < period
    ensures DutyPercent(w, period) <= maxDuty
  {
    DutyClampWithinLimit(period, maxDuty);
    maxDuty * period / 100
  }

  /** The width and output level after the duty stage, and whether the duty
      limit fired. */
  datatype Duty = Duty(width: u32, level: nat, clipped: bool)

  /** Second stage in PWM mode: shrink the width to the duty limit if the
      integer duty cycle exceeds it, then compute the output level. */
  function DutyStage(freq: u32, width: u32, maxDuty: nat): (d: Duty)
    requires 0 < freq <= PWM_MAX_FREQ && width <= PWM_MAX_WIDTH
    ensures d.clipped <==> DutyPercent(width as nat, Period(freq)) > maxDuty
    ensures !d.clipped ==> d.width == width
    ensures d.clipped ==> d.width < width
    ensures DutyPercent(d.width as nat, Period(freq)) <= maxDuty
    ensures d.level < PWM_RANGE as nat <==> (d.width as int) < Period(freq)
  {
    var period := Period(freq);
    if DutyPercent(width as nat, period) > maxDuty then
      DutyClampShrinks(width as nat, period, maxDuty);
      var w := DutyLimitedWidth(period, maxDuty);
      Duty(w as u32, Level(w, period), true)
    else
      Duty(width, Level(width as nat, period), false)
  }

  /** Everything `start()` decides: the parameters it leaves behind, the
      output level, whether any clamp fired, and the result. */
  datatype Start = Start(freq: u32, width: u32, duration: u32, level: nat, clipped: bool, result: StartResult)

  /** The result for an output level: off at zero, PWM below the full range,
      CW at or above it. */
  function Classify(level: nat, clipped: bool): (r: StartResult)
    ensures r == StartOff <==> level == 0
    ensures r == StartCw <==> level >= PWM_RANGE as nat
    ensures r == StartPwmClipped <==> 0 < level < PWM_RANGE as nat && clipped
  {
    if level == 0 then StartOff
    else if level < PWM_RANGE as nat then (if clipped then StartPwmClipped else StartPwm)
    else StartCw
  }

  /** PWMController::start() as a function of the parameters and the configuration. */
  function StartSpec(pp: PulseParams, cfg: Settings): (o: Start)
    // the output is off exactly at level 0, and CW exactly at the full level
    ensures o.result == StartOff <==> o.level == 0
    ensures o.result == StartCw <==> o.level >= PWM_RANGE as nat
    // an unclipped PWM result runs what was asked for; any other running result is flagged
    ensures o.result == StartPwm ==> !o.clipped
    ensures o.result == StartPwmClipped ==> o.clipped
    // a zero duration never starts the output
    ensures pp.duration == 0 ==> o.result == StartOff
    // the duration never exceeds the configured maximum nor the one asked for
    ensures o.duration <= cfg.maxDuration && o.duration <= pp.duration
  {
    var c := ClampStage(pp.freq, pp.width, pp.duration, cfg.maxDuration);
    if c.width == 0 || c.duration == 0 then
      Start(c.freq, c.width, c.duration, 0, c.clipped, StartOff)
    else if c.freq != 0 then
      var d := DutyStage(c.freq, c.width, cfg.maxDuty);
      Start(c.freq, d.width, c.duration, d.level, c.clipped || d.clipped, Classify(d.level, c.clipped || d.clipped))
    else
      var level := if c.width >= cfg.maxWidth then PWM_RANGE as nat else 0;
      Start(c.freq, c.width, c.duration, level, c.clipped, Classify(level, c.clipped))
  }

  /** The output pin after a start. */
  function PinAfter(o: Start): Pin
  {
    match o.result
    case StartOff => Low
    case StartCw => High
    case _ => Pwm(o.freq, o.level)
  }

  /** In either PWM result the output is a real PWM wave: a frequency in the
      device range, a pulse shorter than the period, an integer duty cycle
      within the configured limit and a duration within the configured one. */
  lemma PwmStartIsBounded(pp: PulseParams, cfg: Settings)
    ensures var o := StartSpec(pp, cfg);
            o.result in {StartPwm, StartPwmClipped} ==>
              && 0 < o.freq <= PWM_MAX_FREQ
              && 0 < o.level < PWM_RANGE as nat
              && PWM_MIN_WIDTH <= o.width && (o.width as int) < Period(o.freq)
              && DutyPercent(o.width as nat, Period(o.freq)) <= cfg.maxDuty
              && 0 < o.duration <= cfg.maxDuration
  {
    var c := ClampStage(pp.freq, pp.width, pp.duration, cfg.maxDuration);
    if c.width != 0 && c.duration != 0 && c.freq != 0 {
      var d := DutyStage(c.freq, c.width, cfg.maxDuty);
      var o := StartSpec(pp, cfg);
      assert o == Start(c.freq, d.width, c.duration, d.level, c.clipped || d.clipped, Classify(d.level, c.clipped || d.clipped));
    }
  }

  /** `StartPwm` means that no parameter was changed: the pulse runs exactly
      as it was set. */
  lemma UnclippedPwmKeepsParameters(pp: PulseParams, cfg: Settings)
    ensures var o := StartSpec(pp, cfg);
            o.result == StartPwm ==> o.freq == pp.freq && o.width == pp.width && o.duration == pp.duration
  {
  }

  /** Frequency 0 is the CW trigger: full output when the width reaches the
      configured maximum (after the width clamp) and the duration is not 0,
      otherwise nothing. */
  lemma TriggerMode(pp: PulseParams, cfg: Settings)
    requires pp.freq == 0
    ensures var o := StartSpec(pp, cfg);
            && o.freq == 0
            && (o.result == StartCw <==> o.duration > 0 && o.width >= cfg.maxWidth)
            && (o.result != StartCw ==> o.result == StartOff)
  {
  }

  /** A configured maximum width above the device maximum makes the CW
      trigger unreachable, since the width is clamped first. */
  lemma TriggerNeedsReachableMaxWidth(pp: PulseParams, cfg: Settings)
    requires pp.freq == 0 && cfg.maxWidth > PWM_MAX_WIDTH
    ensures StartSpec(pp, cfg).result == StartOff
  {
  }

  /** A frequency below the device minimum is left as it is and is reported
      as a clip whenever the output runs in PWM mode. */
  lemma LowFrequencyIsReported(pp: PulseParams, cfg: Settings)
    requires pp.freq < PWM_MIN_FREQ
    ensures var o := StartSpec(pp, cfg);
            o.freq == pp.freq && o.result != StartPwm
  {
  }

  /** CW mode is either the trigger or a pulse that fills the whole period. */
  lemma CwMeansFullOutput(pp: PulseParams, cfg: Settings)
    ensures var o := StartSpec(pp, cfg);
            o.result == StartCw ==>
              0 < o.duration && PWM_RANGE as nat <= o.level
              && (o.freq == 0 ==> o.width >= cfg.maxWidth)
              && (o.freq != 0 ==> o.width as int >= Period(o.freq))
  {
  }

  /** The duty-limit example: 500 Hz, 2000 us and a 20 % limit give a period of
      2000 us, a width of 400 us, level 204 and a clipped PWM start. */
  lemma DutyLimitExample(cfg: Settings)
    requires cfg.maxDuty == 20 && 1000 <= cfg.maxDuration
    ensures StartSpec(PulseParams(500, 2000, 1000, 0), cfg) == Start(500, 400, 1000, 204, true, StartPwmClipped)
  {
    assert Period(500) == 2000;
    assert 100 * 2000 / 2000 == 100;
    assert 20 * 2000 / 100 == 400;
    assert 1024 * 400 / 2000 == 204;
  }

  /** The unclipped example: 200 Hz, 100 us and a 50 % limit give a period of
      5000 us, a 2 % duty cycle, level 20 and a plain PWM start. */
  lemma UnclippedExample(cfg: Settings)
    requires cfg.maxDuty == 50 && 1000 <= cfg.maxDuration
    ensures StartSpec(PulseParams(200, 100, 1000, 0), cfg) == Start(200, 100, 1000, 20, false, StartPwm)
  {
    assert Period(200) == 5000;
    assert 100 * 100 / 5000 == 2;
    assert 1024 * 100 / 5000 == 20;
  }

  // ---------------------------------------------------------------------
  // The auto-stop clock
  // ---------------------------------------------------------------------

  /** `millis() - _t0` in uint32_t arithmetic. */
  function Elapsed(now: u32, t0: u32): (e: u32)
    ensures t0 <= now ==> e as int == now as int - t0 as int
    ensures now < t0 ==> e as int == U32_MODULUS + now as int - t0 as int
  {
    ToU32(now as int - t0 as int)
  }

  /** The elapsed time is right across a wrap of the millisecond clock, as
      long as less than 2^32 ms have passed. */
  lemma ElapsedAcrossWrap(t0: u32, e: nat)
    requires e < U32_MODULUS
    ensures Elapsed(ToU32(t0 as int + e), t0) as int == e
  {
    var now := ToU32(t0 as int + e);
    if t0 as int + e < U32_MODULUS {
      assert now as int == t0 as int + e;
    } else {
      assert now as int == t0 as int + e - U32_MODULUS;
      assert now as int - t0 as int == e - U32_MODULUS;
    }
  }

  // ---------------------------------------------------------------------
  // The validator for the pulse keys
  // ---------------------------------------------------------------------

  predicate EndsWith(s: string, suffix: string)
  {
    |suffix| <= |s| && s[|s| - |suffix|..] == suffix
  }

  /** The end of a rejection message: the limit and its unit. */
  function MaxSuffix(limit: string, unit: string): string
  {
    "Max: " + limit + " [" + unit + "]"
  }

  /** The rejection message of the pulse validator. */
  function LimitMessage(what: string, value: string, limit: string, unit: string): (m: string)
    ensures EndsWith(m, MaxSuffix(limit, unit))
  {
    var tail := MaxSuffix(limit, unit);
    var m := what + ": " + value + " is invalid! " + tail;
    assert m[|m| - |tail|..] == tail;
    m
  }

  /** `None` when `value` is within `limit`, otherwise the rejection message,
      which names the limit. */
  function CheckLimit(what: string, value: nat, valueText: string, limit: nat, limitText: string, unit: string): (note: Option<string>)
    ensures note.None? <==> value <= limit
    ensures note.Some? ==> EndsWith(note.value, MaxSuffix(limitText, unit))
  {
    if value > limit then Some(LimitMessage(what, valueText, limitText, unit)) else None
  }

  /** PWMController::set as a function of the parameters and the configured
      maxima. */
  function PulseSet(pp: PulseParams, key: string, val: string, p: Parsers, cfg: Settings): (a: Applied<PulseParams>)
    ensures a.result != SetValTooLong
    ensures a.result != SetOk ==> a.state == pp
    ensures a.result == SetOk ==> a.note.None?
    ensures !(KEY_PWM_FREQ <= p.toInt(key) <= KEY_PWM_DURATION) ==> a == Applied(SetInvalidKey, None, pp)
    ensures p.toInt(key) == KEY_PWM_FREQ ==>
              (a.result == SetOk <==> ToU32(p.toInt(val)) <= cfg.maxFreq)
              && (a.result == SetOk ==> a.state == pp.(freq := ToU32(p.toInt(val))))
              && (a.result != SetOk ==> a.result == SetInvalidValue && a.note.Some?
                                        && EndsWith(a.note.value, MaxSuffix(Decimal(cfg.maxFreq as nat), "Hz")))
    ensures p.toInt(key) == KEY_PWM_WIDTH ==>
              (a.result == SetOk <==> ToU32(p.toInt(val)) <= cfg.maxWidth)
              && (a.result == SetOk ==> a.state == pp.(width := ToU32(p.toInt(val))))
              && (a.result != SetOk ==> a.result == SetInvalidValue && a.note.Some?
                                        && EndsWith(a.note.value, MaxSuffix(Decimal(cfg.maxWidth as nat), "us")))
    ensures p.toInt(key) == KEY_PWM_DUTY ==>
              (a.result == SetOk <==> p.toPercent(val) <= cfg.maxDuty)
              && (a.result == SetOk ==> a.state == pp.(duty := p.toPercent(val)))
              && (a.result != SetOk ==> a.result == SetInvalidValue && a.note.Some?
                                        && EndsWith(a.note.value, MaxSuffix(Decimal(cfg.maxDuty) + ".0", "%")))
    ensures p.toInt(key) == KEY_PWM_DURATION ==>
              (a.result == SetOk <==> p.toMillis(val) <= cfg.maxDuration as nat)
              && (a.result == SetOk ==> a.state.duration as nat == p.toMillis(val) && a.state.(duration := pp.duration) == pp)
              && (a.result != SetOk ==> a.result == SetInvalidValue && a.note.Some?
                                        && EndsWith(a.note.value, MaxSuffix(Decimal(cfg.maxDuration as nat), "ms")))
  {
    var parsed := ToU32(p.toInt(val));
    var code := p.toInt(key);
    if code == KEY_PWM_FREQ then
      var note := CheckLimit("PWM frequency", parsed as nat, Decimal(parsed as nat), cfg.maxFreq as nat, Decimal(cfg.maxFreq as nat), "Hz");
      if note.Some? then Applied(SetInvalidValue, note, pp) else Applied(SetOk, None, pp.(freq := parsed))
    else if code == KEY_PWM_WIDTH then
      var note := CheckLimit("PWM width", parsed as nat, Decimal(parsed as nat), cfg.maxWidth as nat, Decimal(cfg.maxWidth as nat), "us");
      if note.Some? then Applied(SetInvalidValue, note, pp) else Applied(SetOk, None, pp.(width := parsed))
    else if code == KEY_PWM_DUTY then
      var v := p.toPercent(val);
      var note := CheckLimit("PWM duty cycle", v, Decimal(v) + ".0", cfg.maxDuty, Decimal(cfg.maxDuty) + ".0", "%");
      if note.Some? then Applied(SetInvalidValue, note, pp) else Applied(SetOk, None, pp.(duty := v))
    else if code == KEY_PWM_DURATION then
      var ms := p.toMillis(val);
      var note := CheckLimit("PWM duration", ms, Decimal(ms), cfg.maxDuration as nat, Decimal(cfg.maxDuration as nat), "ms");
      if note.Some? then Applied(SetInvalidValue, note, pp) else Applied(SetOk, None, pp.(duration := ms as u32))
    else Applied(SetInvalidKey, None, pp)
  }

  // ---------------------------------------------------------------------
  // The controller object
  // ---------------------------------------------------------------------

  class PwmController {
    /** The configuration whose maxima the controller enforces (a reference). */
    const config: SavedConfig

    var active: bool
    var t0: u32
    var freq: u32
    var width: u32
    var duration: u32
    var duty: nat

    /** The output pin. */
    ghost var pin: Pin

    function Params(): PulseParams
      reads this
    {
      PulseParams(freq, width, duration, duty)
    }

    /** The defaults of the constructor. The source constructor does not
        touch the pin; `pin == Low` stands for the `digitalWrite(..., LOW)`
        that `setup()` performs before the controller is used. */
    constructor (config: SavedConfig)
      ensures this.config == config
      ensures !active && t0 == 0 && Params() == PulseParams(100, 200, 1000, 0) && pin == Low
    {
      this.config := config;
      active, t0 := false, 0;
      freq, width, duration, duty := 100, 200, 1000, 0;
      pin := Low;
    }

    /** `init()`: switch the output off. */
    method Init()
      modifies this
      ensures !active && pin == Low
      ensures Params() == old(Params()) && t0 == old(t0)
    {
      Stop();
    }

    /** `stop()`: output low and inactive, whatever the state before. */
    method Stop()
      modifies this
      ensures !active && pin == Low
      ensures Params() == old(Params()) && t0 == old(t0)
    {
      pin := Low;
      active := false;
    }

    /** The clamp stage of `start()`. */
    method ClampParams() returns (clipped: bool)
      modifies this
      ensures var c := ClampStage(old(freq), old(width), old(duration), config.maxDuration);
              freq == c.freq && width == c.width && duration == c.duration && clipped == c.clipped
      ensures duty == old(duty) && active == old(active) && t0 == old(t0) && pin == old(pin)
    {
      clipped := false;
      if freq > PWM_MAX_FREQ {
        freq := PWM_MAX_FREQ;
        clipped := true;
      }
      if freq < PWM_MIN_FREQ {
        // left as it is: 0 selects the CW trigger
        clipped := true;
      }
      if width > PWM_MAX_WIDTH {
        width := PWM_MAX_WIDTH;
        clipped := true;
      }
      if width < PWM_MIN_WIDTH {
        width := PWM_MIN_WIDTH;
        clipped := true;
      }
      if duration > config.maxDuration {
        duration := config.maxDuration;
        clipped := true;
      }
    }

    /** The PWM branch of `start()`: the duty limit, then the output level.
        Every product stays below 2^32 because it is computed in `u32`. */
    method LimitDuty() returns (level: u32, clipped: bool)
      requires 0 < freq <= PWM_MAX_FREQ && width <= PWM_MAX_WIDTH
      modifies this
      ensures var d := DutyStage(old(freq), old(width), config.maxDuty);
              width == d.width && level as nat == d.level && clipped == d.clipped
      ensures freq == old(freq) && duration == old(duration) && duty == old(duty)
      ensures active == old(active) && t0 == old(t0) && pin == old(pin)
    {
      ghost var d := DutyStage(freq, width, config.maxDuty);
      var period: u32 := 1000000 / freq;
      assert period as nat == Period(freq);
      var dutyPercent: u32 := 100 * width / period;
      assert dutyPercent as nat == DutyPercent(width as nat, period as nat);
      clipped := false;
      if dutyPercent as nat > config.maxDuty {
        // a float product in the source, truncated back to uint32_t
        DutyClampShrinks(width as nat, period as nat, config.maxDuty);
        width := (config.maxDuty * period as nat / 100) as u32;
        clipped := true;
      }
      assert width == d.width;
      level := PWM_RANGE * width / period;
      assert level as nat == Level(width as nat, period as nat);
    }

    /** `start()`, with `now` the value `millis()` returns. */
    method Start(now: u32) returns (r: StartResult)
      modifies this
      ensures var o := StartSpec(old(Params()), config.View());
              && r == o.result
              && Params() == old(Params()).(freq := o.freq, width := o.width, duration := o.duration)
              && active == (r != StartOff)
              && pin == PinAfter(o)
              && t0 == (if r != StartOff then now else old(t0))
    {
      var clipped := ClampParams();
      if width <= 0 || duration <= 0 {
        Stop();
        return StartOff;
      }
      var level: u32;
      if freq != 0 {
        var dutyClipped;
        level, dutyClipped := LimitDuty();
        clipped := clipped || dutyClipped;
      } else {
        level := if width >= config.maxWidth then PWM_RANGE else 0;
      }
      if level <= 0 {
        Stop();
        return StartOff;
      }
      active := true;
      t0 := now;
      if level < PWM_RANGE {
        pin := Pwm(freq, level as nat);
        return if clipped then StartPwmClipped else StartPwm;
      }
      pin := High;
      return StartCw;
    }

    /** `loop()`: stop once the duration has elapsed on the wrapping clock. */
    method Loop(now: u32)
      modifies this
      ensures if old(active) && Elapsed(now, old(t0)) >= old(duration)
              then !active && pin == Low
              else active == old(active) && pin == old(pin)
      ensures Params() == old(Params()) && t0 == old(t0)
    {
      if !active {
        return;
      }
      if Elapsed(now, t0) >= duration {
        Stop();
      }
    }

    /** `set(key, val, msg)` for the pulse keys; `msg` is overwritten only on
        an invalid value. */
    method Set(key: string, val: string, msg0: string, p: Parsers) returns (r: SetResult, msg: string)
      modifies this
      ensures var a := PulseSet(old(Params()), key, val, p, config.View());
              r == a.result && Params() == a.state
              && msg == (if a.note.Some? then a.note.value else msg0)
      ensures active == old(active) && t0 == old(t0) && pin == old(pin)
    {
      msg := msg0;
      var parsed := ToU32(p.toInt(val));
      var code := p.toInt(key);
      if code == KEY_PWM_FREQ {
        if parsed > config.maxFreq {
          msg := LimitMessage("PWM frequency", Decimal(parsed as nat), Decimal(config.maxFreq as nat), "Hz");
          return SetInvalidValue, msg;
        }
        freq := parsed;
      } else if code == KEY_PWM_WIDTH {
        if parsed > config.maxWidth {
          msg := LimitMessage("PWM width", Decimal(parsed as nat), Decimal(config.maxWidth as nat), "us");
          return SetInvalidValue, msg;
        }
        width := parsed;
      } else if code == KEY_PWM_DUTY {
        var percent := p.toPercent(val);
        if percent > config.maxDuty {
          msg := LimitMessage("PWM duty cycle", Decimal(percent) + ".0", Decimal(config.maxDuty) + ".0", "%");
          return SetInvalidValue, msg;
        }
        duty := percent;
      } else if code == KEY_PWM_DURATION {
        var ms := p.toMillis(val);
        if ms > config.maxDuration as nat {
          msg := LimitMessage("PWM duration", Decimal(ms), Decimal(config.maxDuration as nat), "ms");
          return SetInvalidValue, msg;
        }
        duration := ms as u32;
      } else {
        return SetInvalidKey, msg;
      }
      r := SetOk;
    }
  }
}
