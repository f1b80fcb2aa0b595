/** The saved configuration (src/SavedConfig.cpp): network identity and
    credentials, the static-IP block and the safety maxima, validated one
    form key at a time. */
module ConfigStore {
  import opened Config
  import opened FormInterface

  const VAL_NOT_SET: string := "<NOT SET>"

  // SavedConfig::FormKey
  const KEY_NET_SSID: int := 100
  const KEY_NET_PASS: int := 101
  const KEY_AP_SSID: int := 102
  const KEY_AP_PASS: int := 103
  const KEY_AUTH_USER: int := 104
  const KEY_AUTH_PASS: int := 105
  const KEY_MDNS_NAME: int := 106
  const KEY_STATIC_IP: int := 107
  const KEY_SUBNET: int := 108
  const KEY_GATEWAY: int := 109
  const KEY_DNS: int := 110
  const KEY_MAX_FREQ: int := 111
  const KEY_MAX_WIDTH: int := 112
  const KEY_MAX_DUTY: int := 113
  const KEY_MAX_DURATION: int := 114

  /** Sanity ceilings for the configurable maxima. */
  const MAX_FREQ_CEILING: u32 := 1000000
  const MAX_WIDTH_CEILING: u32 := 1000000
  const MAX_DURATION_CEILING: u32 := 3600000
  const MAX_DUTY_CEILING: nat := 100

  const MSG_MAX_FREQ: string := "Max frequency can't be more than 1MHz since period can't be smaller than 1 us"
  const MSG_MAX_WIDTH: string := "Max width can't be more than 1 second"
  const MSG_MAX_DURATION: string := "Max duration  can't be more than 1 hour"
  const MSG_MAX_DUTY: string := "Max duty cycle can't be more than 100%"

  /** The value of every field of a saved configuration. */
  datatype Settings = Settings(
    netSsid: string, netPass: string, apSsid: string, apPass: string,
    authUser: string, authPass: string, mdnsName: string,
    staticIp: string, subnet: string, gateway: string, dns: string,
    maxFreq: u32, maxWidth: u32, maxDuration: u32, maxDuty: nat)

  /** The value of one field, for stating what a key changes. */
  datatype FieldValue = Text(text: string) | Number(number: nat) | NoField

  /** The field a form key names. */
  function FieldOf(s: Settings, key: int): FieldValue
  {
    if key == KEY_NET_SSID then Text(s.netSsid)
    else if key == KEY_NET_PASS then Text(s.netPass)
    else if key == KEY_AP_SSID then Text(s.apSsid)
    else if key == KEY_AP_PASS then Text(s.apPass)
    else if key == KEY_AUTH_USER then Text(s.authUser)
    else if key == KEY_AUTH_PASS then Text(s.authPass)
    else if key == KEY_MDNS_NAME then Text(s.mdnsName)
    else if key == KEY_STATIC_IP then Text(s.staticIp)
    else if key == KEY_SUBNET then Text(s.subnet)
    else if key == KEY_GATEWAY then Text(s.gateway)
    else if key == KEY_DNS then Text(s.dns)
    else if key == KEY_MAX_FREQ then Number(s.maxFreq as nat)
    else if key == KEY_MAX_WIDTH then Number(s.maxWidth as nat)
    else if key == KEY_MAX_DUTY then Number(s.maxDuty)
    else if key == KEY_MAX_DURATION then Number(s.maxDuration as nat)
    else NoField
  }

  /** Two settings agree on every field but (possibly) the one `key` names. */
  ghost predicate OnlyFieldChanged(s: Settings, s': Settings, key: int)
  {
    forall k :: k != key ==> FieldOf(s', k) == FieldOf(s, k)
  }

  /** The name an IP field carries in the saved file and in its error message. */
  function IpName(key: int): string
  {
    if key == KEY_STATIC_IP then "static_ip"
    else if key == KEY_SUBNET then "subnet"
    else if key == KEY_GATEWAY then "gateway"
    else "dns"
  }

  /** `_check_ip`: `None` when the value parses as an IP address, otherwise the
      message naming the field. */
  function CheckIp(val: string, key: int, p: Parsers): (note: Option<string>)
    ensures note.None? <==> p.isIp(val)
  {
    if p.isIp(val) then None else Some("Invalid IP for: " + IpName(key))
  }

  /** Store `val` in the text field `key` names. */
  function WithText(s: Settings, key: int, val: string): (r: Settings)
    requires KEY_NET_SSID <= key <= KEY_DNS
    ensures FieldOf(r, key) == Text(val)
  {
    if key == KEY_NET_SSID then s.(netSsid := val)
    else if key == KEY_NET_PASS then s.(netPass := val)
    else if key == KEY_AP_SSID then s.(apSsid := val)
    else if key == KEY_AP_PASS then s.(apPass := val)
    else if key == KEY_AUTH_USER then s.(authUser := val)
    else if key == KEY_AUTH_PASS then s.(authPass := val)
    else if key == KEY_MDNS_NAME then s.(mdnsName := val)
    else if key == KEY_STATIC_IP then s.(staticIp := val)
    else if key == KEY_SUBNET then s.(subnet := val)
    else if key == KEY_GATEWAY then s.(gateway := val)
    else s.(dns := val)
  }

  /** SavedConfig::set as a function of the settings it is applied to. */
  function ApplySetting(s: Settings, key: string, val: string, p: Parsers): (a: Applied<Settings>)
    // a value that is too long is refused whatever the key, and changes nothing
    ensures |val| > HTML_TEXT_INPUT_MAX_LENGTH <==> a.result == SetValTooLong
    ensures a.result != SetOk ==> a.state == s
    // an unknown key is refused and changes nothing
    ensures |val| <= HTML_TEXT_INPUT_MAX_LENGTH && !(KEY_NET_SSID <= p.toInt(key) <= KEY_MAX_DURATION)
            ==> a == Applied(SetInvalidKey, None, s)
    // text fields are always accepted
    ensures |val| <= HTML_TEXT_INPUT_MAX_LENGTH && KEY_NET_SSID <= p.toInt(key) <= KEY_MDNS_NAME
            ==> a.result == SetOk
    // IP fields are accepted exactly when the value parses
    ensures |val| <= HTML_TEXT_INPUT_MAX_LENGTH && KEY_STATIC_IP <= p.toInt(key) <= KEY_DNS
            ==> (a.result == SetOk <==> p.isIp(val))
                && (a.result != SetOk ==> a.result == SetInvalidValue
                                          && a.note == Some("Invalid IP for: " + IpName(p.toInt(key))))
    // the maxima are refused above their ceiling and accepted up to and including it
    ensures |val| <= HTML_TEXT_INPUT_MAX_LENGTH && p.toInt(key) in {KEY_MAX_FREQ, KEY_MAX_WIDTH, KEY_MAX_DURATION}
            ==> var v := ToU32(p.toInt(val));
                var ceiling := if p.toInt(key) == KEY_MAX_DURATION then MAX_DURATION_CEILING
                               else if p.toInt(key) == KEY_MAX_WIDTH then MAX_WIDTH_CEILING
                               else MAX_FREQ_CEILING;
                (a.result == SetOk <==> v <= ceiling)
                && (a.result != SetOk ==> a.result == SetInvalidValue && a.note.Some?)
    ensures |val| <= HTML_TEXT_INPUT_MAX_LENGTH && p.toInt(key) == KEY_MAX_DUTY
            ==> (a.result == SetOk <==> p.toPercent(val) <= MAX_DUTY_CEILING)
                && (a.result != SetOk ==> a.result == SetInvalidValue && a.note == Some(MSG_MAX_DUTY))
  {
    if |val| > HTML_TEXT_INPUT_MAX_LENGTH then Applied(SetValTooLong, None, s)
    else
      var code := p.toInt(key);
      if KEY_NET_SSID <= code <= KEY_MDNS_NAME then Applied(SetOk, None, WithText(s, code, val))
      else if KEY_STATIC_IP <= code <= KEY_DNS then
        var note := CheckIp(val, code, p);
        if note.Some? then Applied(SetInvalidValue, note, s) else Applied(SetOk, None, WithText(s, code, val))
      else if code == KEY_MAX_FREQ then
        var v := ToU32(p.toInt(val));
        if v > MAX_FREQ_CEILING then Applied(SetInvalidValue, Some(MSG_MAX_FREQ), s)
        else Applied(SetOk, None, s.(maxFreq := v))
      else if code == KEY_MAX_WIDTH then
        var v := ToU32(p.toInt(val));
        if v > MAX_WIDTH_CEILING then Applied(SetInvalidValue, Some(MSG_MAX_WIDTH), s)
        else Applied(SetOk, None, s.(maxWidth := v))
      else if code == KEY_MAX_DURATION then
        var v := ToU32(p.toInt(val));
        if v > MAX_DURATION_CEILING then Applied(SetInvalidValue, Some(MSG_MAX_DURATION), s)
        else Applied(SetOk, None, s.(maxDuration := v))
      else if code == KEY_MAX_DUTY then
        var v := p.toPercent(val);
        if v > MAX_DUTY_CEILING then Applied(SetInvalidValue, Some(MSG_MAX_DUTY), s)
        else Applied(SetOk, None, s.(maxDuty := v))
      else Applied(SetInvalidKey, None, s)
  }

  /** Storing a text field puts the value in the field the key names and
      leaves every other field as it was. */
  lemma WithTextStoresOnlyItsField(s: Settings, key: int, val: string)
    requires KEY_NET_SSID <= key <= KEY_DNS
    ensures FieldOf(WithText(s, key, val), key) == Text(val)
    ensures OnlyFieldChanged(s, WithText(s, key, val), key)
  {
    var s' := WithText(s, key, val);
    forall k | k != key
      ensures FieldOf(s', k) == FieldOf(s, k)
    {
    }
  }

  /** A key that is accepted stores its value, verbatim for the text and IP
      fields, in the field it names, and changes no other field. */
  lemma ApplySettingStoresOnlyItsField(s: Settings, key: string, val: string, p: Parsers)
    ensures var a := ApplySetting(s, key, val, p);
            var code := p.toInt(key);
            && (a.result == SetOk ==> OnlyFieldChanged(s, a.state, code))
            && (a.result == SetOk && KEY_NET_SSID <= code <= KEY_DNS ==> FieldOf(a.state, code) == Text(val))
            && (a.result == SetOk && code in {KEY_MAX_FREQ, KEY_MAX_WIDTH, KEY_MAX_DURATION}
                ==> FieldOf(a.state, code) == Number(ToU32(p.toInt(val)) as nat))
            && (a.result == SetOk && code == KEY_MAX_DUTY ==> FieldOf(a.state, code) == Number(p.toPercent(val)))
  {
    var a := ApplySetting(s, key, val, p);
    var code := p.toInt(key);
    if a.result == SetOk {
      if KEY_NET_SSID <= code <= KEY_DNS {
        WithTextStoresOnlyItsField(s, code, val);
      } else {
        forall k | k != code
          ensures FieldOf(a.state, k) == FieldOf(s, k)
        {
        }
      }
    }
  }

  /** `set` never produces a message for a result other than an invalid value,
      so a handler that sees another failure falls back to its generic text. */
  lemma ApplySettingNoteOnlyForInvalidValue(s: Settings, key: string, val: string, p: Parsers)
    ensures var a := ApplySetting(s, key, val, p);
            a.note.Some? <==> a.result == SetInvalidValue
  {
  }

  class SavedConfig {
    var netSsid: string
    var netPass: string
    var apSsid: string
    var apPass: string
    var authUser: string
    var authPass: string
    var mdnsName: string
    var staticIp: string
    var subnet: string
    var gateway: string
    var dns: string
    var maxFreq: u32
    var maxWidth: u32
    var maxDuration: u32
    var maxDuty: nat

    /** The contents of the saved configuration file, as last written by `Save`. */
    ghost var persisted: Settings

    function View(): Settings
      reads this
    {
      Settings(netSsid, netPass, apSsid, apPass, authUser, authPass, mdnsName,
               staticIp, subnet, gateway, dns, maxFreq, maxWidth, maxDuration, maxDuty)
    }

    /** The defaults every field has before the saved file is loaded. */
    constructor ()
      ensures View() == Settings(VAL_NOT_SET, VAL_NOT_SET, "esptc", "", VAL_NOT_SET, VAL_NOT_SET,
                                 VAL_NOT_SET, VAL_NOT_SET, VAL_NOT_SET, VAL_NOT_SET, VAL_NOT_SET,
                                 500, 1000, 5000, 20)
      ensures persisted == View()
    {
      netSsid, netPass := VAL_NOT_SET, VAL_NOT_SET;
      apSsid, apPass := "esptc", "";
      authUser, authPass := VAL_NOT_SET, VAL_NOT_SET;
      mdnsName := VAL_NOT_SET;
      staticIp, subnet, gateway, dns := VAL_NOT_SET, VAL_NOT_SET, VAL_NOT_SET, VAL_NOT_SET;
      maxFreq, maxWidth, maxDuration, maxDuty := 500, 1000, 5000, 20;
      persisted := Settings(VAL_NOT_SET, VAL_NOT_SET, "esptc", "", VAL_NOT_SET, VAL_NOT_SET,
                            VAL_NOT_SET, VAL_NOT_SET, VAL_NOT_SET, VAL_NOT_SET, VAL_NOT_SET,
                            500, 1000, 5000, 20);
    }

    /** The assignment of a name or password field in `set`. */
    method StoreName(code: int, val: string)
      requires KEY_NET_SSID <= code <= KEY_MDNS_NAME
      modifies this
      ensures View() == WithText(old(View()), code, val)
      ensures persisted == old(persisted)
    {
      if code == KEY_NET_SSID {
        netSsid := val;
      } else if code == KEY_NET_PASS {
        netPass := val;
      } else if code == KEY_AP_SSID {
        apSsid := val;
      } else if code == KEY_AP_PASS {
        apPass := val;
      } else if code == KEY_AUTH_USER {
        authUser := val;
      } else if code == KEY_AUTH_PASS {
        authPass := val;
      } else {
        mdnsName := val;
      }
    }

    /** The assignment of an address field in `set`, once the value has
        parsed. */
    method StoreAddress(code: int, val: string)
      requires KEY_STATIC_IP <= code <= KEY_DNS
      modifies this
      ensures View() == WithText(old(View()), code, val)
      ensures persisted == old(persisted)
    {
      if code == KEY_STATIC_IP {
        staticIp := val;
      } else if code == KEY_SUBNET {
        subnet := val;
      } else if code == KEY_GATEWAY {
        gateway := val;
      } else {
        dns := val;
      }
    }

    /** `set(key, val, msg)`: `msg` is an in/out string that is overwritten
        only where the source writes it. */
    method Set(key: string, val: string, msg0: string, p: Parsers) returns (r: SetResult, msg: string)
      modifies this
      ensures var a := ApplySetting(old(View()), key, val, p);
              r == a.result && View() == a.state
              && msg == (if a.note.Some? then a.note.value else msg0)
      ensures persisted == old(persisted)
    {
      ghost var a := ApplySetting(View(), key, val, p);
      msg := msg0;
      if |val| > HTML_TEXT_INPUT_MAX_LENGTH {
        return SetValTooLong, msg;
      }
      var code := p.toInt(key);
      if KEY_NET_SSID <= code <= KEY_MDNS_NAME {
        StoreName(code, val);
      } else if KEY_STATIC_IP <= code <= KEY_DNS {
        if !p.isIp(val) {
          msg := "Invalid IP for: " + IpName(code);
          return SetInvalidValue, msg;
        }
        StoreAddress(code, val);
      } else if code == KEY_MAX_FREQ {
        var parsed := ToU32(p.toInt(val));
        if parsed > MAX_FREQ_CEILING {
          msg := MSG_MAX_FREQ;
          return SetInvalidValue, msg;
        }
        maxFreq := parsed;
      } else if code == KEY_MAX_WIDTH {
        var parsed := ToU32(p.toInt(val));
        if parsed > MAX_WIDTH_CEILING {
          msg := MSG_MAX_WIDTH;
          return SetInvalidValue, msg;
        }
        maxWidth := parsed;
      } else if code == KEY_MAX_DURATION {
        var parsed := ToU32(p.toInt(val));
        if parsed > MAX_DURATION_CEILING {
          msg := MSG_MAX_DURATION;
          return SetInvalidValue, msg;
        }
        maxDuration := parsed;
      } else if code == KEY_MAX_DUTY {
        var parsed := p.toPercent(val);
        if parsed > MAX_DUTY_CEILING {
          msg := MSG_MAX_DUTY;
          return SetInvalidValue, msg;
        }
        maxDuty := parsed;
      } else {
        return SetInvalidKey, msg;
      }
      r := SetOk;
    }

    /** `save()`: the file system's outcome is an input; a return of 0 means the
        whole configuration was written. */
    method Save(outcome: int) returns (ret: int)
      modifies this
      ensures ret == outcome && View() == old(View())
      ensures persisted == if outcome == 0 then View() else old(persisted)
    {
      ret := outcome;
      if ret == 0 {
        persisted := View();
      }
    }
  }
}
