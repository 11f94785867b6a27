# Cheese cave fan controller — model of the `SetFanState` direct method

The device program (`Program.cs`) keeps one process-wide fan state (`off`,
`on` or `failed`, starting at `off`) and drives GPIO pin 21 for the fan. A
cloud direct method `SetFanState` changes the state: once the fan is
`failed`, every call is refused with 400 `{"result":"Fan failed"}`;
otherwise every `"` is removed from the payload, the rest is parsed as a
state name, and on success the state is stored, the pin is driven High
exactly when the state is `on`, and 200 `{"result":"Executed direct method:
<name>"}` is returned; an unparsable payload gives 400
`{"result":"Invalid parameter"}` and changes nothing. The telemetry loop
reports the state's name under the twin key `fanstate`.

Modules:

- `Wrappers` — `Option`.
- `FanStates` — the enumeration, its names, and the case-sensitive name parse.
- `Payload` — quote removal and its properties.
- `Handler` — one call of the handler as a function (`Handle`: next state,
  pin write, response), sequences of calls (`Run`, with `RunConcat` chaining two of them), and the lemmas about both.
- `CheeseCave` — class `Device` with the mutable fields `fanState` and
  `pinHigh`, and a ghost record `pinLog` of every level written to the pin; `SetFanState` updates them
  and is proved to agree with `Handle`; `ReportedFanState` builds the
  `fanstate` entry.
- `Scenarios` — one operator session on a fresh device.

The code removes every quote character, not only an enclosing pair, and it
accepts `failed` as a command (from `off` or `on` it answers 200, drives the pin
Low and then refuses every later call). Because of that, repeating a command is
idempotent only for `off` and `on`; repeating `failed` answers 200 and then 400.
The success body ends with `"}` as the code builds it.

## Model

| member | source | states |
|---|---|---|
| FanStates.StateName | Program.cs:27-32 | no contract: the textual name `ToString` gives each state, reported at line 106; `ParseStateIffName` and `StateNameInjective` below are about it |
| FanStates.ParseState | Program.cs:86 | the parse succeeds exactly on `off`, `on`, `failed`, and the state it gives has the parsed text as its name |
| FanStates.ParseStateIffName | Program.cs:27-32 | a text parses to a state if and only if it is that state's name |
| FanStates.StateNameInjective | Program.cs:106 | two states have the same reported name only if they are the same state |
| FanStates.ParseRejectsOtherSpellings | Program.cs:86 | matching is case-sensitive: `On`, `OFF`, `Failed`, `spin` and the empty text are rejected |
| Payload.StripQuotes | Program.cs:84 | the result holds no `"`, is no longer than the payload, and keeps its length when the payload has no `"` |
| Payload.StripQuotesQuoteFree | Program.cs:84 | a payload without `"` is left unchanged |
| Payload.StripQuotesIdempotent | Program.cs:84 | removing quotes twice equals removing them once |
| Payload.StripQuotesConcat | Program.cs:84 | removal distributes over concatenation, so the order of the remaining characters is kept |
| Payload.StripQuotesKeepsOthers | Program.cs:84 | every character other than `"` occurs as often after removal as before |
| Payload.StripQuotesExamples | Program.cs:84 | `"on"` and `o"n` both normalise to `on`; `"off"` and `""off"` to `off` |
| Handler.Handle | Program.cs:70-101 | no contract: the reference definition of one call (next state, pin write, response) that the lemmas below and `Device.SetFanState` are stated about |
| Handler.PinLevel | Program.cs:89 | no contract: the level chosen for a state, High exactly for `on`; `PinFollowsState` and `RunPinMatchesFinal` are about it |
| Handler.ExecutedBody | Program.cs:91 | no contract: the success body naming the method; `ValidCommandApplies` states it literally |
| Handler.FailedRejectsEverything | Program.cs:72-77 | in `failed`, any payload gives 400 `Fan failed`, no pin write and the state stays `failed` |
| Handler.ValidCommandApplies | Program.cs:86-92 | from `off`/`on`, a payload normalising to a state name sets that state, writes High exactly for `on` and answers 200 with the method name |
| Handler.InvalidCommandNoTrace | Program.cs:94-99 | from `off`/`on`, a payload normalising to no state name gives 400 `Invalid parameter`, keeps the state and writes nothing |
| Handler.PinFollowsState | Program.cs:89 | every pin write drives High if and only if the resulting state is `on` |
| Handler.SuccessIffEffect | Program.cs:72-99 | a call answers 200 exactly when it writes the pin, and a non-200 call never changes the state |
| Handler.QuotesIrrelevant | Program.cs:84-86 | the handler gives the same outcome for a payload and for its quote-free form |
| Handler.QuotedOnSwitchesOn | Program.cs:84-89 | from `off`/`on`, both `"on"` and `o"n` switch the fan on |
| Handler.RepeatIdempotent | Program.cs:86-92 | sending the same `off`/`on` command twice gives 200 both times with the same state and pin level |
| Handler.FailedReachableAndAbsorbing | Program.cs:72-92 | the `failed` command from `off`/`on` answers 200 with a Low pin, and the same command is then refused with `Fan failed` |
| Handler.FailedAbsorbsRun | Program.cs:72-77 | from `failed`, any sequence of calls ends in `failed`, writes no pin level and answers `Fan failed` to every call |
| Handler.RunNeverLeavesFailed | Program.cs:72-77 | a run that does not end in `failed` did not start in `failed` |
| Handler.RunConcat | Program.cs:70-101 | running two sequences of calls one after the other is running their concatenation: states, responses and pin writes chain |
| Handler.FailedIsFinal | Program.cs:72-77 | once any prefix of a run has reached `failed`, the whole run ends in `failed` and writes nothing more to the pin |
| Handler.RunPinMatchesFinal | Program.cs:86-89 | after any sequence of calls that wrote the pin, the last level written is the level of the final state |
| Handler.RunUnwrittenKeepsState | Program.cs:72-99 | a sequence of calls that never wrote the pin never changed the state |
| Handler.InvalidRunNoTrace | Program.cs:72-99 | a sequence of unparsable payloads keeps the state, writes nothing and gives one 400 response per call, `Invalid parameter` from `off`/`on` (`Fan failed` from `failed`) |
| CheeseCave.Device.constructor | Program.cs:23 | the fan starts `off`, with no pin write yet |
| CheeseCave.Device.SetFanState | Program.cs:70-101 | the new state, pin level, pin writes and response are those of `Handle`; `failed` and invalid calls change nothing; a success stores the named state with pin High exactly for `on`; the pin invariant is kept |
| CheeseCave.Device.ReportedFanState | Program.cs:106 | the reported properties hold only `fanstate`, whose value parses back to the current state; nothing is changed |
| Scenarios.OperatorSession | Program.cs:70-101 | from start, `on`, `"off"`, `spin`, `failed`, `on` give 200, 200, 400, 200, 400 with states on, off, off, failed, failed and a Low pin; the two successes name the method, the first 400 is `Invalid parameter` and the last `Fan failed` |

## Left out

- Hardware and cloud set-up in `Main` (GPIO controller, I2C, BME280 sensor, device client, handler registration): foreign device and SDK calls. The pin's level when it is opened is a constructor parameter.
- The telemetry loop `MonitorConditionsAndUpdateTwinAsync`: an endless asynchronous loop with a delay, a sensor read, and interleaving with the handler (concurrency).
- Submission of the reported properties and their JSON form: SDK call and I/O. Only the `fanstate` entry is modelled.
- `humidity` and `temperature` entries with `Math.Round(..., 2)`: floating point.
- UTF-8 decoding of the payload and encoding of the response: the payload is already-decoded text and the body is text.
- Console colouring and logging: output only.
- FanStates.ParseState: accepts only the exact three names; the .NET enum parse also accepts numeric strings, surrounding whitespace and comma-joined names, which are runtime behaviour not modelled.
- CheeseCave.Device.SetFanState: the pin write is treated as infallible; if it threw, the code would already have stored the new state yet answer `Invalid parameter`.
