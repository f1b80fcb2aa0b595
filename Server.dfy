/** The application server (src/AppServer.cpp): the network state machine run
    from the main loop, the connection retry loops, the authentication rule
    and the three request handlers that change state. */
module Server {
  import opened Config
  import opened FormInterface
  import opened ConfigStore
  import opened Pulse
  import opened Pages

  /** AppServer::NetType: joined to an external network, or running the
      device's own access point. */
  datatype NetType = NetExt | NetAp

  /** AppServer::ServerState */
  datatype ServerState = SetupNet | SetupAp | Handle

  /** What one pass of the main loop observes of the hardware and the radio. */
  datatype Radio = Radio(
    pinLow: bool,           // the AP button pin reads LOW
    linked: bool,           // the station is connected when `loop()` looks
    linkPolls: nat -> bool, // the station is connected at each poll of `_setup_net`
    apPolls: nat -> bool    // the access point starts at each attempt of `_setup_ap`
  )

  /** The credentials a client has proved it knows (digest authentication). */
  datatype Credentials = Credentials(user: string, pass: string)

  /** The severity and the text of a status message. */
  datatype Report = Report(kind: MessageType, text: string)

  /** A setup loop gives up once its counter passes this value: it looks
      MAX_RETRIES + 1 times in all. */
  const MAX_RETRIES: nat := 32

  // ---------------------------------------------------------------------
  // The network state machine
  // ---------------------------------------------------------------------

  /** One of the first MAX_RETRIES + 1 polls succeeds. */
  predicate SucceedsWithin(polls: nat -> bool)
  {
    exists k :: 0 <= k <= MAX_RETRIES && polls(k)
  }

  /** All four addresses of the static network configuration parse. */
  predicate AddressesParse(cfg: Settings, p: Parsers)
  {
    p.isIp(cfg.staticIp) && p.isIp(cfg.subnet) && p.isIp(cfg.gateway) && p.isIp(cfg.dns)
  }

  /** The mode switch at the head of `loop()`. */
  function Mode(t: NetType, s: ServerState, r: Radio): (m: (NetType, ServerState))
    ensures t == NetAp ==> m == (t, s)
    ensures t == NetExt ==> (m.0 == NetAp <==> r.pinLow)
    ensures t == NetExt && r.pinLow ==> m.1 == SetupAp
    ensures t == NetExt && !r.pinLow && !r.linked ==> m == (NetExt, SetupNet)
    ensures t == NetExt && !r.pinLow && r.linked ==> m == (t, s)
  {
    match t
    case NetExt =>
      if r.pinLow then (NetAp, SetupAp)
      else if !r.linked then (NetExt, SetupNet)
      else (t, s)
    case NetAp => (t, s)
  }

  /** One pass of `loop()`: the mode switch, then a setup attempt in either
      setup state. */
  ghost function Step(t: NetType, s: ServerState, r: Radio, cfg: Settings, p: Parsers): (n: (NetType, ServerState))
    ensures n.0 == Mode(t, s, r).0
    ensures n.1 == Handle <==> match Mode(t, s, r).1
                               case SetupNet => SucceedsWithin(r.linkPolls) && AddressesParse(cfg, p)
                               case SetupAp => SucceedsWithin(r.apPolls)
                               case Handle => true
    ensures n.1 != Handle ==> n.1 == Mode(t, s, r).1
  {
    var m := Mode(t, s, r);
    match m.1
    case SetupNet => (m.0, if SucceedsWithin(r.linkPolls) && AddressesParse(cfg, p) then Handle else SetupNet)
    case SetupAp => (m.0, if SucceedsWithin(r.apPolls) then Handle else SetupAp)
    case Handle => m
  }

  /** A sequence of passes with the configuration held fixed. */
  ghost function Run(t: NetType, s: ServerState, rs: seq<Radio>, cfg: Settings, p: Parsers): (n: (NetType, ServerState))
    decreases |rs|
  {
    if rs == [] then (t, s)
    else
      var m := Step(t, s, rs[0], cfg, p);
      Run(m.0, m.1, rs[1..], cfg, p)
  }

  /** Passes compose. */
  lemma {:induction false} RunAppend(t: NetType, s: ServerState, first: seq<Radio>, rest: seq<Radio>, cfg: Settings, p: Parsers)
    ensures var m := Run(t, s, first, cfg, p);
            Run(t, s, first + rest, cfg, p) == Run(m.0, m.1, rest, cfg, p)
    decreases |first|
  {
    if first == [] {
      assert first + rest == rest;
    } else {
      assert (first + rest)[1..] == first[1..] + rest;
      var m := Step(t, s, first[0], cfg, p);
      RunAppend(m.0, m.1, first[1..], rest, cfg, p);
    }
  }

  /** Once in access point mode, the server never leaves it: only a restart
      returns to the external network. */
  lemma {:induction false} AccessPointIsFinal(s: ServerState, rs: seq<Radio>, cfg: Settings, p: Parsers)
    ensures Run(NetAp, s, rs, cfg, p).0 == NetAp
    decreases |rs|
  {
    if rs != [] {
      var m := Step(NetAp, s, rs[0], cfg, p);
      AccessPointIsFinal(m.1, rs[1..], cfg, p);
    }
  }

  /** A serving access point keeps serving whatever the radio reports. */
  lemma {:induction false} ServingAccessPointIsStable(rs: seq<Radio>, cfg: Settings, p: Parsers)
    ensures Run(NetAp, Handle, rs, cfg, p) == (NetAp, Handle)
    decreases |rs|
  {
    if rs != [] {
      ServingAccessPointIsStable(rs[1..], cfg, p);
    }
  }

  /** A press of the button during any pass puts the server in access point
      mode for good. */
  lemma ButtonSelectsAccessPoint(t: NetType, s: ServerState, before: seq<Radio>, r: Radio, after: seq<Radio>, cfg: Settings, p: Parsers)
    requires r.pinLow
    ensures Run(t, s, before + [r] + after, cfg, p).0 == NetAp
  {
    var m := Run(t, s, before, cfg, p);
    RunAppend(t, s, before, [r] + after, cfg, p);
    assert before + [r] + after == before + ([r] + after);
    var n := Step(m.0, m.1, r, cfg, p);
    assert ([r] + after)[1..] == after;
    assert Run(m.0, m.1, [r] + after, cfg, p) == Run(n.0, n.1, after, cfg, p);
    AccessPointIsFinal(n.1, after, cfg, p);
  }

  /** On the external network a lost link takes the server out of the
      serving state unless the reconnection succeeds within the retries and
      the static addresses parse. */
  lemma LostLinkNeedsReconnection(s: ServerState, r: Radio, cfg: Settings, p: Parsers)
    requires !r.pinLow && !r.linked
    ensures var n := Step(NetExt, s, r, cfg, p);
            n.0 == NetExt && (n.1 == Handle <==> SucceedsWithin(r.linkPolls) && AddressesParse(cfg, p))
  {
  }

  // ---------------------------------------------------------------------
  // Status messages of the request handlers
  // ---------------------------------------------------------------------

  const MSG_SAVED: string := "Successfully saved configuration"
  const MSG_SAVE_FAILED: string := "Failed to save configuration! ret: "
  const MSG_STARTED_PWM: string := "Interrupter started in PWM mode"
  const MSG_STARTED_CLIPPED: string := "Interrupter started in PWM mode with clipped parameters! Limits: "
  const MSG_STARTED_CW: string := "Interrupter started in CW mode - Watch for overheating"
  const MSG_STOPPED_LOW: string := "Interrupter stopped with low parameters"
  const MSG_STOPPED_BUTTON: string := "Interrupter stopped with stop button"

  /** The part of the limits text before the duty maximum: the device ranges. */
  const LIMITS_HEAD: string :=
    "Frequency: [" + Decimal(PWM_MIN_FREQ as nat) + "," + Decimal(PWM_MAX_FREQ as nat) + "] Hz | "
    + "Width: [" + Decimal(PWM_MIN_WIDTH as nat) + "," + Decimal(PWM_MAX_WIDTH as nat) + "] us | "
    + "Duty Cycle: [0,"
  /** Between the duty maximum and the duration maximum. */
  const LIMITS_MID: string := ".00] % | Duration: [0,"
  /** After the duration maximum. */
  const LIMITS_TAIL: string := "] ms"

  /** PWMController::limits_str: the device ranges and the configured maxima.
      The duty maximum prints with two decimals, as a float does. */
  function LimitsText(cfg: Settings): string
  {
    LIMITS_HEAD + (Decimal(cfg.maxDuty) + (LIMITS_MID + (Decimal(cfg.maxDuration as nat) + LIMITS_TAIL)))
  }

  /** A run of digits ends where a non-digit follows, so two texts that agree
      and start with digits then a non-digit split at the same place. */
  lemma DigitsThenSeparator(x: string, u: string, y: string, v: string)
    requires forall i :: 0 <= i < |x| ==> '0' <= x[i] <= '9'
    requires forall i :: 0 <= i < |y| ==> '0' <= y[i] <= '9'
    requires |u| > 0 && !('0' <= u[0] <= '9') && |v| > 0 && !('0' <= v[0] <= '9')
    requires x + u == y + v
    ensures x == y && u == v
  {
    var w := x + u;
    assert !('0' <= w[|x|] <= '9') && !('0' <= w[|y|] <= '9');
    assert forall i :: 0 <= i < |x| ==> '0' <= w[i] <= '9';
    assert forall i :: 0 <= i < |y| ==> '0' <= w[i] <= '9';
    assert |x| == |y|;
    assert x == w[..|x|] && y == w[..|y|];
    assert u == w[|x|..] && v == w[|y|..];
  }

  /** The limits text names the configured maxima: two configurations give
      the same text exactly when their duty and duration maxima agree. */
  lemma LimitsTextNamesMaxima(a: Settings, b: Settings)
    ensures LimitsText(a) == LimitsText(b) <==> a.maxDuty == b.maxDuty && a.maxDuration == b.maxDuration
  {
    if LimitsText(a) == LimitsText(b) {
      var da, db := Decimal(a.maxDuty), Decimal(b.maxDuty);
      var ea, eb := Decimal(a.maxDuration as nat), Decimal(b.maxDuration as nat);
      var ra, rb := da + (LIMITS_MID + (ea + LIMITS_TAIL)), db + (LIMITS_MID + (eb + LIMITS_TAIL));
      assert ra == LimitsText(a)[|LIMITS_HEAD|..] == LimitsText(b)[|LIMITS_HEAD|..] == rb;
      DigitsThenSeparator(da, LIMITS_MID + (ea + LIMITS_TAIL), db, LIMITS_MID + (eb + LIMITS_TAIL));
      var sa, sb := ea + LIMITS_TAIL, eb + LIMITS_TAIL;
      assert sa == (LIMITS_MID + sa)[|LIMITS_MID|..] == (LIMITS_MID + sb)[|LIMITS_MID|..] == sb;
      DigitsThenSeparator(ea, LIMITS_TAIL, eb, LIMITS_TAIL);
      DecimalRoundTrip(a.maxDuty);
      DecimalRoundTrip(b.maxDuty);
      DecimalRoundTrip(a.maxDuration as nat);
      DecimalRoundTrip(b.maxDuration as nat);
    }
  }

  /** The message `_handle_pwm_start` reports for each start result: only an
      unclipped PWM start is information, only a start that leaves the output
      off is an error, and a clipped start names the limits. */
  function StartReport(r: StartResult, cfg: Settings): (m: Report)
    ensures m.kind == MsgInfo <==> r == StartPwm
    ensures m.kind == MsgError <==> r == StartOff
    ensures m.kind == MsgWarning <==> r in {StartPwmClipped, StartCw}
    ensures r == StartPwmClipped ==> m.text == MSG_STARTED_CLIPPED + LimitsText(cfg)
  {
    match r
    case StartPwm => Report(MsgInfo, MSG_STARTED_PWM)
    case StartPwmClipped => Report(MsgWarning, MSG_STARTED_CLIPPED + LimitsText(cfg))
    case StartCw => Report(MsgWarning, MSG_STARTED_CW)
    case StartOff => Report(MsgError, MSG_STOPPED_LOW)
  }

  /** Only a clipped start lists the limits: no other result reports that
      text. */
  lemma OnlyClippedStartListsLimits(r: StartResult, cfg: Settings)
    ensures StartReport(r, cfg).text == MSG_STARTED_CLIPPED + LimitsText(cfg) ==> r == StartPwmClipped
  {
    if r != StartPwmClipped {
      assert |StartReport(r, cfg).text| < |MSG_STARTED_CLIPPED + LimitsText(cfg)|;
    }
  }

  /** The severity a start reports agrees with the output it leaves: an error
      exactly when the output stays low, and information only when the wave
      runs with the parameters as submitted. */
  lemma StartReportMatchesOutput(pp: PulseParams, cfg: Settings)
    ensures var o := StartSpec(pp, cfg);
            var m := StartReport(o.result, cfg);
            && (m.kind == MsgError <==> PinAfter(o) == Low)
            && (m.kind == MsgInfo ==> PinAfter(o) == Pwm(pp.freq, o.level) && o.width == pp.width && o.duration == pp.duration)
  {
    var o := StartSpec(pp, cfg);
    if o.result == StartPwm {
      UnclippedPwmKeepsParameters(pp, cfg);
    }
  }

  /** `_handle_set_config` applies each argument to the saved configuration. */
  function ConfigStep(p: Parsers): (Settings, Arg) -> Applied<Settings>
  {
    (s: Settings, a: Arg) => ApplySetting(s, a.key, a.val, p)
  }

  /** `_handle_pwm_start` applies each argument to the pulse parameters. */
  function PulseStep(p: Parsers, cfg: Settings): (PulseParams, Arg) -> Applied<PulseParams>
  {
    (pp: PulseParams, a: Arg) => PulseSet(pp, a.key, a.val, p, cfg)
  }

  // ---------------------------------------------------------------------
  // The server object
  // ---------------------------------------------------------------------

  class AppServer {
    const config: SavedConfig
    const control: PwmController
    const pages: PageManager
    var netType: NetType
    var state: ServerState

    /** The server starts on the external network, about to connect. */
    constructor (config: SavedConfig, control: PwmController)
      requires control.config == config
      ensures this.config == config && this.control == control
      ensures this.control.config == this.config
      ensures fresh(pages) && pages.serviceCount == 0
      ensures netType == NetExt && state == SetupNet
    {
      this.config := config;
      this.control := control;
      pages := new PageManager();
      netType := NetExt;
      state := SetupNet;
    }

    /** `init()`: back to the external network, about to connect. */
    method Init()
      modifies this
      ensures netType == NetExt && state == SetupNet
    {
      netType := NetExt;
      state := SetupNet;
    }

    /** `_setup_net`: poll the link until it is up, giving up after
        MAX_RETRIES + 1 polls, then require the static addresses to parse. */
    method SetupNetwork(polls: nat -> bool, p: Parsers) returns (ok: bool)
      ensures ok <==> (exists k :: 0 <= k <= MAX_RETRIES && polls(k))
                      && p.isIp(config.staticIp) && p.isIp(config.subnet)
                      && p.isIp(config.gateway) && p.isIp(config.dns)
    {
      var count := 0;
      while !polls(count)
        invariant 0 <= count <= MAX_RETRIES
        invariant forall k :: 0 <= k < count ==> !polls(k)
        decreases MAX_RETRIES - count
      {
        count := count + 1;
        if count > MAX_RETRIES {
          return false;
        }
      }
      ok := p.isIp(config.staticIp) && p.isIp(config.subnet) && p.isIp(config.gateway) && p.isIp(config.dns);
    }

    /** `_setup_ap`: attempt to start the access point until it starts,
        giving up after MAX_RETRIES + 1 attempts. */
    method SetupAccessPoint(attempts: nat -> bool) returns (ok: bool)
      ensures ok <==> exists k :: 0 <= k <= MAX_RETRIES && attempts(k)
    {
      var count := 0;
      while !attempts(count)
        invariant 0 <= count <= MAX_RETRIES
        invariant forall k :: 0 <= k < count ==> !attempts(k)
        decreases MAX_RETRIES - count
      {
        count := count + 1;
        if count > MAX_RETRIES {
          return false;
        }
      }
      ok := true;
    }

    /** `_server_loop`: in a setup state switch the output off and try to
        connect, serving once connected; in the serving state do nothing
        here (requests are the handlers below). */
    method ServerLoop(r: Radio, p: Parsers)
      modifies this, control
      ensures netType == old(netType)
      ensures old(state) == SetupNet ==> (state == Handle <==> SucceedsWithin(r.linkPolls) && AddressesParse(config.View(), p))
      ensures old(state) == SetupAp ==> (state == Handle <==> SucceedsWithin(r.apPolls))
      ensures old(state) == Handle ==> state == Handle
      ensures state != Handle ==> state == old(state)
      ensures old(state) == Handle ==> control.active == old(control.active) && control.pin == old(control.pin)
      ensures old(state) != Handle ==> !control.active && control.pin == Low
      ensures control.Params() == old(control.Params()) && control.t0 == old(control.t0)
    {
      match state {
        case SetupNet =>
          control.Stop();
          var ok := SetupNetwork(r.linkPolls, p);
          if ok {
            state := Handle;
          }
        case SetupAp =>
          control.Stop();
          var ok := SetupAccessPoint(r.apPolls);
          if ok {
            state := Handle;
          }
        case Handle =>
      }
    }

    /** `loop()`: the button selects the access point; on the external
        network a lost link restarts the connection; then `_server_loop`. */
    method Loop(r: Radio, p: Parsers)
      modifies this, control
      ensures (netType, state) == Step(old(netType), old(state), r, config.View(), p)
      ensures var m := Mode(old(netType), old(state), r);
              if m.1 == Handle then control.active == old(control.active) && control.pin == old(control.pin)
              else !control.active && control.pin == Low
      ensures state != Handle ==> !control.active && control.pin == Low
      ensures control.Params() == old(control.Params()) && control.t0 == old(control.t0)
    {
      match netType {
        case NetExt =>
          if r.pinLow {
            netType := NetAp;
            state := SetupAp;
          } else if !r.linked {
            state := SetupNet;
          }
        case NetAp =>
      }
      ServerLoop(r, p);
    }

    /** `_http_authenticate`: free access in access point mode, which only
        the physical button selects; otherwise the configured credentials. */
    function Authenticate(given: Option<Credentials>): (ok: bool)
      reads this, config
      ensures netType == NetAp ==> ok
      ensures netType == NetExt ==> (ok <==> given == Some(Credentials(config.authUser, config.authPass)))
    {
      netType == NetAp || given == Some(Credentials(config.authUser, config.authPass))
    }

    /** The argument loop of `_handle_set_config`: apply each argument but
        the raw body to the configuration, and stop at the first one `set`
        rejects, returning the text to report. */
    method ApplyConfigArgs(args: seq<Arg>, p: Parsers) returns (rejection: Option<string>)
      modifies config
      ensures var b := RunBatch(old(config.View()), args, ConfigStep(p));
              && config.View() == b.state
              && (rejection.None? <==> b.failure.None?)
              && (b.failure.Some? ==> rejection == Some(FailureText(b.failure.value)))
      ensures config.persisted == old(config.persisted)
    {
      ghost var apply := ConfigStep(p);
      ghost var s0 := config.View();
      var res := "";
      var i := 0;
      while i < |args|
        invariant 0 <= i <= |args|
        invariant res == ""
        invariant RunBatch(config.View(), args[i..], apply) == RunBatch(s0, args, apply)
        invariant config.persisted == old(config.persisted)
      {
        assert args[i..][1..] == args[i + 1..];
        var key := args[i].key;
        var val := args[i].val;
        if key == RAW_BODY_KEY {
          i := i + 1;
          continue;
        }
        ApplySettingNoteOnlyForInvalidValue(config.View(), key, val, p);
        var ret;
        ret, res := config.Set(key, val, res, p);
        if ret != SetOk {
          if |res| == 0 {
            res := "Failed to set key: " + key + "to value: " + val;
          }
          return Some(res);
        }
        i := i + 1;
      }
      rejection := None;
    }

    /** The argument loop of `_handle_pwm_start`: apply each argument but the
        raw body to the pulse parameters, and stop at the first one `set`
        rejects, returning the text to report. The output is not touched. */
    method ApplyPulseArgs(args: seq<Arg>, p: Parsers) returns (rejection: Option<string>)
      modifies control
      ensures var b := RunBatch(old(control.Params()), args, PulseStep(p, control.config.View()));
              && control.Params() == b.state
              && (rejection.None? <==> b.failure.None?)
              && (b.failure.Some? ==> rejection == Some(FailureText(b.failure.value)))
      ensures control.active == old(control.active) && control.pin == old(control.pin)
      ensures control.t0 == old(control.t0)
    {
      ghost var apply := PulseStep(p, control.config.View());
      ghost var p0 := control.Params();
      var res := "";
      var i := 0;
      while i < |args|
        invariant 0 <= i <= |args|
        invariant res == ""
        invariant RunBatch(control.Params(), args[i..], apply) == RunBatch(p0, args, apply)
        invariant control.active == old(control.active) && control.pin == old(control.pin)
        invariant control.t0 == old(control.t0)
      {
        assert args[i..][1..] == args[i + 1..];
        var key := args[i].key;
        var val := args[i].val;
        if key == RAW_BODY_KEY {
          i := i + 1;
          continue;
        }
        var ret;
        ret, res := control.Set(key, val, res, p);
        if ret != SetOk {
          if |res| == 0 {
            res := "Failed to set key: " + key + "to value: " + val;
          }
          return Some(res);
        }
        i := i + 1;
      }
      rejection := None;
    }

    /** `_handle_set_config`: apply the arguments in order, stop at the first
        rejected one and report it (earlier changes stay, nothing is saved);
        otherwise save and report how the save went. */
    method HandleSetConfig(args: seq<Arg>, given: Option<Credentials>, p: Parsers, saveOutcome: int)
      returns (sent: Option<Response>)
      modifies config, pages
      ensures !old(Authenticate(given)) ==>
                && sent.None?
                && config.View() == old(config.View()) && config.persisted == old(config.persisted)
                && pages.serviceCount == old(pages.serviceCount)
      ensures old(Authenticate(given)) ==>
                var b := RunBatch(old(config.View()), args, ConfigStep(p));
                && config.View() == b.state
                && pages.serviceCount == NextCount(old(pages.serviceCount))
                && (b.failure.Some? ==>
                      && config.persisted == old(config.persisted)
                      && sent == Some(Render(FailureText(b.failure.value), MsgError, pages.serviceCount)))
                && (b.failure.None? && saveOutcome == 0 ==>
                      && config.persisted == b.state
                      && sent == Some(Render(MSG_SAVED, MsgInfo, pages.serviceCount)))
                && (b.failure.None? && saveOutcome != 0 ==>
                      && config.persisted == old(config.persisted)
                      && sent == Some(Render(MSG_SAVE_FAILED + SignedDecimal(saveOutcome), MsgError, pages.serviceCount)))
    {
      var msg := new PopMessage();
      if !Authenticate(given) {
        return None;
      }
      var rejection := ApplyConfigArgs(args, p);
      if rejection.Some? {
        msg.Set(MsgError, rejection.value);
        var response := pages.SendResponse(msg);
        return Some(response);
      }
      var ret := config.Save(saveOutcome);
      if ret != 0 {
        msg.Set(MsgError, MSG_SAVE_FAILED + SignedDecimal(ret));
      } else {
        msg.Set(MsgInfo, MSG_SAVED);
      }
      var response := pages.SendResponse(msg);
      sent := Some(response);
    }

    /** `_handle_pwm_start`: apply the arguments in order, stop at the first
        rejected one and report it (earlier changes stay, nothing starts);
        otherwise start and report the result with its severity. */
    method HandlePwmStart(args: seq<Arg>, given: Option<Credentials>, p: Parsers, now: u32)
      returns (sent: Option<Response>)
      modifies control, pages
      ensures !Authenticate(given) ==>
                && sent.None?
                && control.Params() == old(control.Params())
                && control.active == old(control.active) && control.pin == old(control.pin)
                && control.t0 == old(control.t0)
                && pages.serviceCount == old(pages.serviceCount)
      ensures Authenticate(given) ==>
                var cfg := control.config.View();
                var b := RunBatch(old(control.Params()), args, PulseStep(p, cfg));
                && pages.serviceCount == NextCount(old(pages.serviceCount))
                && (b.failure.Some? ==>
                      && control.Params() == b.state
                      && control.active == old(control.active) && control.pin == old(control.pin)
                      && control.t0 == old(control.t0)
                      && sent == Some(Render(FailureText(b.failure.value), MsgError, pages.serviceCount)))
                && (b.failure.None? ==>
                      var o := StartSpec(b.state, cfg);
                      var m := StartReport(o.result, cfg);
                      && control.Params() == b.state.(freq := o.freq, width := o.width, duration := o.duration)
                      && control.active == (o.result != StartOff)
                      && control.pin == PinAfter(o)
                      && control.t0 == (if o.result != StartOff then now else old(control.t0))
                      && sent == Some(Render(m.text, m.kind, pages.serviceCount)))
    {
      var msg := new PopMessage();
      if !Authenticate(given) {
        return None;
      }
      var rejection := ApplyPulseArgs(args, p);
      if rejection.Some? {
        msg.Set(MsgError, rejection.value);
        var response := pages.SendResponse(msg);
        return Some(response);
      }
      var response := StartAndReport(msg, now);
      sent := Some(response);
    }

    /** The end of `_handle_pwm_start` once every argument is accepted: start
        the pulse and send the message for its result. */
    method StartAndReport(msg: PopMessage, now: u32) returns (response: Response)
      modifies control, pages, msg
      ensures var cfg := control.config.View();
              var o := StartSpec(old(control.Params()), cfg);
              var m := StartReport(o.result, cfg);
              && control.Params() == old(control.Params()).(freq := o.freq, width := o.width, duration := o.duration)
              && control.active == (o.result != StartOff)
              && control.pin == PinAfter(o)
              && control.t0 == (if o.result != StartOff then now else old(control.t0))
              && pages.serviceCount == NextCount(old(pages.serviceCount))
              && response == Render(m.text, m.kind, pages.serviceCount)
    {
      var ret := control.Start(now);
      match ret {
        case StartPwm =>
          msg.Set(MsgInfo, MSG_STARTED_PWM);
        case StartPwmClipped =>
          msg.Set(MsgWarning, MSG_STARTED_CLIPPED + LimitsText(control.config.View()));
        case StartCw =>
          msg.Set(MsgWarning, MSG_STARTED_CW);
        case StartOff =>
          msg.Set(MsgError, MSG_STOPPED_LOW);
      }
      response := pages.SendResponse(msg);
    }

    /** `_handle_pwm_stop`: switch the output off and confirm it. The message
        is built with the two-argument constructor before authentication. */
    method HandlePwmStop(given: Option<Credentials>) returns (sent: Option<Response>)
      modifies control, pages
      ensures !Authenticate(given) ==>
                && sent.None?
                && control.active == old(control.active) && control.pin == old(control.pin)
                && pages.serviceCount == old(pages.serviceCount)
      ensures Authenticate(given) ==>
                && !control.active && control.pin == Low
                && pages.serviceCount == NextCount(old(pages.serviceCount))
                && sent == Some(Render(MSG_STOPPED_BUTTON, MsgInfo, pages.serviceCount))
      ensures control.Params() == old(control.Params()) && control.t0 == old(control.t0)
    {
      var msg := new PopMessage.WithText(MsgInfo, MSG_STOPPED_BUTTON);
      if !Authenticate(given) {
        return None;
      }
      control.Stop();
      var response := pages.SendResponse(msg);
      sent := Some(response);
    }
  }
}
