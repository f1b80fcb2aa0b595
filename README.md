# esp-sstc-interrupter: a verified model of the pulse controller and its web server

The firmware turns an ESP8266 into the interrupter of a solid-state Tesla coil.
It drives one output pin with a PWM wave whose frequency, pulse width and
duration come from a web form. Before the pulse starts, the parameters are
clamped to the device limits and to the safety maxima kept in a saved
configuration. The output stops by itself once the duration has elapsed. The
web server runs on the external network and falls back to an access point of
its own when a button pin is held low. It accepts form batches that change the
configuration or start the pulse, and it answers each request with a numbered
status message.

The model has one Dafny module per part of the firmware:

- `Config`: compile-time constants, `uint32_t` as the newtype `u32`, and
  decimal printing.
- `FormInterface`: the `set(key, val, msg)` result codes and the batch loop
  that the handlers run over the submitted arguments.
- `ConfigStore`: `SavedConfig`, a class with the fifteen configuration fields.
  The pure function `ApplySetting` specifies its `set`.
- `Pulse`: `PWMController`, a class with the pulse parameters, the active flag,
  the start time and a ghost output pin. `StartSpec` (the clamp and
  mode-selection algorithm) and `PulseSet` specify its methods.
- `Pages`: `PopMessage`, plus the service counter and the response formatting
  of `PageManager`.
- `Server`: `AppServer`, covering the network state machine, the connection
  retry loops, authentication and the three handlers that change state.

Each method that changes state is proved against a pure function of the old
state. The properties of those functions are proved as lemmas.

Text parsing from the platform libraries is a parameter of type `Parsers`:
`String::toInt`, `String::toFloat` and `IPAddress::fromString`. The following
are also parameters: the readings of the button pin and of the radio during a
loop pass, the value of `millis()`, the outcome of writing the configuration
file, and the credentials a client proved during digest authentication.

## Model

| member | source | states |
|---|---|---|
| Config.ToU32 | src/PWMController.cpp:151 | the `(uint32_t)` cast is the identity on 0..2^32-1 and congruent to its argument modulo 2^32 |
| Config.Decimal | src/PWMController.cpp:159-160 | `%u` printing yields a nonempty string of decimal digits |
| Config.DecimalRoundTrip | src/PWMController.cpp:159-160 | the printed digits read back as the number printed, so a message names exactly its limit |
| Config.SignedDecimal | src/AppServer.cpp:309 | `String(int)` is nonempty and starts with '-' exactly for negative numbers |
| FormInterface.RunBatch | src/AppServer.cpp:282-303 | a batch that stops reports a non-OK result for an argument other than the raw body |
| FormInterface.RunBatchAppend | src/AppServer.cpp:282-303 | a batch that gets through a prefix continues from the state that prefix left |
| FormInterface.RunBatchAbort | src/AppServer.cpp:282-303 | after the first rejected argument the remaining arguments are never applied |
| FormInterface.RunBatchStopsAt | src/AppServer.cpp:282-303 | the batch ends at the first rejected argument, keeping the changes made by the arguments before it |
| FormInterface.RunBatchIgnoresRawBody | src/AppServer.cpp:287-288 | the argument named "plain" plays no part: the batch equals the batch without it |
| FormInterface.WithoutRawBody | src/AppServer.cpp:287-288 | the arguments kept are original arguments, none named "plain" |
| FormInterface.FailureText | src/AppServer.cpp:294-299 | a failure reports the validator's message, or the generic key/value text when there is none; never empty |
| ConfigStore.CheckIp | src/SavedConfig.cpp:342-351 | no message exactly when the value parses as an IP address |
| ConfigStore.WithText | src/SavedConfig.cpp:200-277 | the field a text or address key names holds the value verbatim |
| ConfigStore.WithTextStoresOnlyItsField | src/SavedConfig.cpp:200-277 | storing a text key puts the value verbatim in the field it names and leaves every other field as it was |
| ConfigStore.ApplySetting | src/SavedConfig.cpp:190-340 | values over 64 characters are refused for every key; an unknown key is refused; a refusal changes nothing; name and password keys are always accepted; IP keys are accepted exactly when the value parses, otherwise with "Invalid IP for: <field>"; maxima exactly up to their ceilings (1000000, 1000000, 3600000, 100) |
| ConfigStore.ApplySettingStoresOnlyItsField | src/SavedConfig.cpp:190-340 | an accepted key stores its value (verbatim for text and IP keys, the uint32_t conversion for the maxima) in the field it names and changes no other field |
| ConfigStore.ApplySettingNoteOnlyForInvalidValue | src/SavedConfig.cpp:190-340 | `msg` is written exactly when the result is an invalid value |
| ConfigStore.SavedConfig.constructor | src/SavedConfig.cpp:32-49 | the defaults: "<NOT SET>" everywhere except AP name "esptc" and an empty AP password, maxima 500 Hz, 1000 us, 5000 ms and 20 % |
| ConfigStore.SavedConfig.StoreName | src/SavedConfig.cpp:200-241 | the fields become `WithText` of the old fields for a name or password key |
| ConfigStore.SavedConfig.StoreAddress | src/SavedConfig.cpp:242-277 | the fields become `WithText` of the old fields for an address key |
| ConfigStore.SavedConfig.Set | src/SavedConfig.cpp:190-340 | the new fields, the result and `msg` are those of `ApplySetting` on the old fields; the saved copy is untouched |
| ConfigStore.SavedConfig.Save | src/SavedConfig.cpp:140-188 | the saved copy becomes the current fields exactly when the write reports 0; the fields are unchanged |
| Pulse.DivBelow | src/PWMController.cpp:84-93 | the floor quotient `a / b` is below `c` exactly when `a < c * b` |
| Pulse.DutyClampShrinks | src/PWMController.cpp:87-90 | when the duty limit fires, the recomputed width is strictly smaller than the submitted one |
| Pulse.ClampStage | src/PWMController.cpp:39-71 | the frequency is capped at 1000 but never raised; the width is clamped into 1..10000; the duration is capped at the configured maximum; values in range are kept; `clipped` is set exactly when one of the five tests fires, the below-100 Hz test included |
| Pulse.Period | src/PWMController.cpp:83 | a frequency in 1..1000 Hz has a period of 1000..1000000 us |
| Pulse.Level | src/PWMController.cpp:93 | the output level is below the full range exactly when the pulse is shorter than the period |
| Pulse.DutyLimitedWidth | src/PWMController.cpp:89 | the re-clamped width has an integer duty cycle within the configured limit |
| Pulse.DutyStage | src/PWMController.cpp:80-94 | the limit fires exactly when the integer duty cycle exceeds the maximum; the width is then strictly smaller and otherwise kept; the resulting duty is within the limit |
| Pulse.Classify | src/PWMController.cpp:108-127 | off exactly at level 0, CW exactly at full range or above, clipped PWM exactly for a partial level with a clip |
| Pulse.StartSpec | src/PWMController.cpp:33-128 | the output is off exactly at level 0 and CW exactly at the full level; a plain PWM result is unclipped and a clipped one is flagged; a zero duration never starts the output; the duration never exceeds the configured maximum or the one submitted |
| Pulse.PwmStartIsBounded | src/PWMController.cpp:33-128 | in either PWM result the frequency is in 1..1000, the level is partial, the width is at least 1 and below the period, the duty is within the maximum, and the duration is in 1..maximum |
| Pulse.UnclippedPwmKeepsParameters | src/PWMController.cpp:39-123 | a plain PWM result means the frequency, width and duration run as submitted |
| Pulse.TriggerMode | src/PWMController.cpp:95-106 | at frequency 0 the output is CW exactly when the duration is nonzero and the clamped width reaches the configured maximum width, and is otherwise off |
| Pulse.TriggerNeedsReachableMaxWidth | src/PWMController.cpp:55-106 | with a configured maximum width above 10000 us the CW trigger can never fire |
| Pulse.LowFrequencyIsReported | src/PWMController.cpp:47-53 | a frequency below 100 Hz is kept but never gives a plain PWM result |
| Pulse.CwMeansFullOutput | src/PWMController.cpp:95-127 | CW means either the trigger with the maximum width or a pulse at least as long as the period |
| Pulse.DutyLimitExample | src/PWMController.cpp:80-94 | 500 Hz, 2000 us and a 20 % limit give width 400 us, level 204 and a clipped PWM start |
| Pulse.UnclippedExample | src/PWMController.cpp:80-94 | 200 Hz, 100 us and a 50 % limit give level 20 and a plain PWM start |
| Pulse.Elapsed | src/PWMController.cpp:141 | the uint32_t difference is `now - t0` when the clock has not wrapped since `t0`, and `2^32 + now - t0` when it has |
| Pulse.ElapsedAcrossWrap | src/PWMController.cpp:141 | `millis() - _t0` in uint32_t gives the true elapsed time across a wrap of the clock |
| Pulse.LimitMessage | src/PWMController.cpp:159-161 | a rejection message ends with "Max: <limit> [<unit>]" |
| Pulse.CheckLimit | src/PWMController.cpp:157-163 | no message exactly when the value is within its limit |
| Pulse.PulseSet | src/PWMController.cpp:145-222 | an unknown key is refused without a message; each pulse key is accepted exactly when its value is within the configured maximum, which then stores that value; a refusal changes nothing and names the maximum and unit; an accepted key writes no message |
| Pulse.PwmController.constructor | src/PWMController.cpp:8-15 | inactive, start time 0, 100 Hz, 200 us, 1000 ms, output low |
| Pulse.PwmController.Init | src/PWMController.cpp:17-21 | the output is low and inactive; the parameters are kept |
| Pulse.PwmController.Stop | src/PWMController.cpp:130-134 | the output is low and inactive; the parameters and the start time are kept |
| Pulse.PwmController.ClampParams | src/PWMController.cpp:39-71 | the fields become those of `ClampStage` |
| Pulse.PwmController.LimitDuty | src/PWMController.cpp:80-94 | the width and the level become those of `DutyStage`; every intermediate fits in uint32_t |
| Pulse.PwmController.Start | src/PWMController.cpp:33-128 | result, parameters and output pin are those of `StartSpec`; the controller is active exactly when the result is not off; the start time is `now` exactly then |
| Pulse.PwmController.Loop | src/PWMController.cpp:136-143 | an active output stops exactly when the wrapped elapsed time reaches the duration; nothing else changes |
| Pulse.PwmController.Set | src/PWMController.cpp:145-222 | the parameters, result and message are those of `PulseSet`; the output is untouched |
| Pages.Label | src/PageManager.cpp:408-422 | no label for information; warnings and errors get a word followed by ": " |
| Pages.Color | src/PageManager.cpp:408-422 | every severity is shown with an HTML "#rrggbb" colour |
| Pages.ColorIdentifiesSeverity | src/PageManager.cpp:408-422 | no two severities share a colour |
| Pages.Prefix | src/PageManager.cpp:406 | `substring(0, n)` is a prefix of at most `n` characters, the whole string when it is that short |
| Pages.Render | src/PageManager.cpp:395-426 | the response carries the counter and the severity's colour; the text is the label followed by a prefix of the message; a message of at most 384 characters is kept whole, and a longer one is cut to exactly 384 |
| Pages.NextCount | src/PageManager.cpp:404 | the counter advances by one, wrapping from 2^32-1 to 0 |
| Pages.PopMessage.constructor | include/PageManager.h:31-33 | an empty information message |
| Pages.PopMessage.WithText | include/PageManager.h:34-36 | the text is kept but the severity is information whatever type is passed |
| Pages.PopMessage.Set | include/PageManager.h:39-43 | both fields are overwritten |
| Pages.PageManager.constructor | src/PageManager.cpp:91-99 | the counter starts at 0 |
| Pages.PageManager.StartChunkedPage | src/PageManager.cpp:140 | every page advances the counter |
| Pages.PageManager.SendResponse | src/PageManager.cpp:395-426 | the counter advances first, and the response is `Render` of the message with the new count |
| Server.Mode | src/AppServer.cpp:46-65 | on the external network a low button pin selects the access point; otherwise a lost link selects network setup; in access point mode nothing changes |
| Server.Step | src/AppServer.cpp:44-108 | after one pass the server serves exactly when it was serving, or when the setup it entered succeeded within the retries (and, for the network, all four addresses parse) |
| Server.RunAppend | src/AppServer.cpp:44-108 | runs of loop passes compose |
| Server.AccessPointIsFinal | src/AppServer.cpp:46-65 | once in access point mode the server never returns to the external network |
| Server.ServingAccessPointIsStable | src/AppServer.cpp:62-106 | a serving access point keeps serving whatever the radio reports |
| Server.ButtonSelectsAccessPoint | src/AppServer.cpp:50-54 | a low button pin in any pass leaves the server in access point mode at the end of every run containing it |
| Server.LostLinkNeedsReconnection | src/AppServer.cpp:55-85 | after a lost link the server serves again only when reconnection succeeds within the retries and the addresses parse |
| Server.LimitsTextNamesMaxima | src/PWMController.cpp:23-31 | the limits text lists the device ranges and the configured maxima: two configurations give the same text exactly when their duty and duration maxima agree |
| Server.StartReport | src/AppServer.cpp:361-378 | information exactly for a plain PWM start, error exactly for an output left off, a warning exactly for clipped and CW starts, and the limits listed for a clipped start |
| Server.OnlyClippedStartListsLimits | src/AppServer.cpp:361-378 | no result other than a clipped start reports the limits |
| Server.StartReportMatchesOutput | src/AppServer.cpp:359-378 | the start message is an error exactly when the output stays low, and information only when the wave runs with the submitted parameters |
| Server.AppServer.constructor | src/AppServer.cpp:22-36 | starts on the external network in network setup, with a fresh page manager whose counter is 0; the server and the controller share one configuration object |
| Server.AppServer.Init | src/AppServer.cpp:38-42 | back to the external network in network setup |
| Server.AppServer.SetupNetwork | src/AppServer.cpp:110-166 | succeeds exactly when one of the first 33 link polls succeeds and all four static addresses parse |
| Server.AppServer.SetupAccessPoint | src/AppServer.cpp:168-192 | succeeds exactly when one of the first 33 access point attempts succeeds |
| Server.AppServer.ServerLoop | src/AppServer.cpp:70-108 | a setup state switches the output off and moves to serving exactly when its setup succeeds; the serving state is left as it is |
| Server.AppServer.Loop | src/AppServer.cpp:44-68 | the new mode and state are `Step` of the old ones; whenever the server is not serving, the output is off |
| Server.AppServer.Authenticate | src/AppServer.cpp:215-228 | access point mode grants access to everyone; otherwise access is granted exactly for the configured user name and password |
| Server.AppServer.ApplyConfigArgs | src/AppServer.cpp:282-303 | the configuration becomes the batch result of `ApplySetting` over the arguments; the text returned is the failure text exactly when the batch stopped; nothing is saved |
| Server.AppServer.HandleSetConfig | src/AppServer.cpp:266-318 | an unauthenticated request changes nothing and gets no response; otherwise the configuration becomes the batch result, a failed batch is reported as an error and is not saved, and a complete batch is saved, with the save outcome reported as information or as an error with its code |
| Server.AppServer.ApplyPulseArgs | src/AppServer.cpp:336-357 | the pulse parameters become the batch result of `PulseSet` over the arguments; the text returned is the failure text exactly when the batch stopped; the output is untouched |
| Server.AppServer.StartAndReport | src/AppServer.cpp:359-381 | the pulse starts as `StartSpec` says, the start time becomes `now` unless the result is off, and the response carries `StartReport` of the result |
| Server.AppServer.HandlePwmStart | src/AppServer.cpp:320-382 | an unauthenticated request changes nothing, the start time included; a failed batch keeps its earlier changes, leaves the output and the start time as they were and is reported as an error; a complete batch starts the pulse as `StartSpec` says, sets the start time to `now` unless the result is off, and reports `StartReport` of the result |
| Server.AppServer.HandlePwmStop | src/AppServer.cpp:384-396 | an authenticated request switches the output off and reports the stop as information; otherwise nothing changes; the parameters and the start time are always kept |

## Left out

- Floating point: `String::toFloat` is modelled as a parser that returns a whole percent for duty cycles and whole milliseconds for durations. The maximum duty cycle and the pulse duty are therefore whole percentages. With integer values, the float comparisons and the float product at src/PWMController.cpp:89 agree with integer arithmetic. Negative floats are not modelled; converting one to an unsigned integer is undefined behaviour in C++.
- Text lengths: a Dafny `string` stands for the bytes of an Arduino `String`, one element per byte, so every length in the model is a length in bytes. `String::length()` and `substring()` count bytes, and text outside ASCII is only faithful when given as its UTF-8 bytes.
- ConfigStore.ApplySetting: the 64 limit on a value is stated on the elements of the string, which are bytes under the reading above; it is not stated in Unicode characters.
- Pages.Render: the 384 cut is stated on the elements of the string, which are bytes under the reading above; a cut inside a multi-byte character is not modelled as such.
- Pulse.PwmController.Set: the duty value is printed in the rejection message as "<n>.0". A fractional submission would print its own first decimal instead.
- Server.LimitsText: the maximum duty cycle is printed as "<n>.00", which is how `String(float)` prints a whole number.
- Pulse.LimitMessage: `snprintf` into a 128-byte buffer would truncate a longer message. The truncation is not modelled. Every message built from values that a uint32_t or a float can hold fits in the buffer.
- Loading and saving the configuration file (`init`, `load`, `save`): the outcome of `save` is a parameter of `SavedConfig.Save`. The ghost field `persisted` records the last configuration written successfully. A partially written file is not modelled.
- The HTML pages (`send_root_page`, `send_config_page`, `send_control_page` and the chunked page bodies): only the counter step of `_start_chunked_page` is modelled.
- The JSON serialisation of a response: the model assumes it succeeds. Its failure branch, which sends a fixed text instead, is not modelled.
- The radio, mDNS, TLS certificates and handler registration (`_setup_server`): `_setup_server` always returns true, and the model treats it that way. The WiFi status and the access point result of each poll are inputs.
- Server.AppServer.Authenticate: the digest computation of the web server is not modelled. A client either proved the configured user name and password or did not. The 401 challenge sent on failure is a side effect the model leaves out.
- Request routing (`handleClient`, URL dispatch): the handlers are methods called directly. `_handle_root`, `_handle_config` and `_handle_control` only authenticate and send a page, so they are not modelled.
- The `default` branches of the result switches (an unknown severity or start result) cannot be reached with the enumerations as declared.
- `_pwm_duty` is not initialised by the constructor; the model starts it at 0. `start()` never reads it.
- Pin writes are modelled as a ghost value of the output pin. The order of the writes inside `start()` (low, then frequency, then level) is not modelled.
- Server.Run: the configuration is held fixed across a run of loop passes. A handler that changes the static addresses between passes is outside the lemmas about runs.
- The singleton check and the global instance that the static handlers go through: they are not modelled.
