# TPad response box — a verified model

The BBTK TPad is a response box reached over a serial port. It reports button
presses, photodiode (opto) transitions, voice-key and TTL events. Each event is one
line of text such as `A P 3 1520`: a channel-class letter, a state letter, a button
code and a device timestamp in milliseconds.

The PsychoPy plugin in `psychopy_bbtk/tpad.py` does five things:

- opens the pad;
- sends it mode and threshold commands;
- reads batches of lines and stores them by host-clock time;
- hands each line to the attached button and photodiode group objects, which turn it
  into typed responses;
- lists the pads and groups that can be created, from the system's serial-port
  profiles.

This project models that file in Dafny and proves properties of the model.

| file | module | what it models |
|---|---|---|
| `wrappers.dfy` | `Wrappers` | `Option`, `Result`, and the Python exceptions the code can raise |
| `text.dfy` | `Text` | ASCII digits, `str()`/`int()` of integers, the greedy `\d*`, `str.find` |
| `codec.dfy` | `Codec` | the code tables, the message format and its prefix match, `splitTPadMessage` |
| `groups.dfy` | `Groups` | the two groups' `parseMessage`, on a line and on a tuple of parts |
| `router.dfy` | `Router` | `dispatchMessages` as a function: conversion, storage by time, the node filters, where it raises |
| `commands.dfy` | `Commands` | the commands sent, their text on the wire, and the mode they leave the device in |
| `discovery.dfy` | `Discovery` | `TPad.getAvailableDevices`, `_detectComPort`, the groups' `getAvailableDevices` |
| `device.dfy` | `Device` | the objects `TPad` and its group nodes, with the fields their methods update |

Python exceptions are values of `Exception`. The model covers every point where the
code raises:

- a matched line whose button code is `[` or `]` makes `int()` fail;
- a matched line with no timestamp digits makes `float('')` fail;
- a voice-key node that passes the filter has no `parseMessage`;
- `splitTPadMessage` on a line that does not match calls `.groups()` on `None`;
- `_detectComPort` raises when it finds no pad;
- both groups' `getAvailableDevices` raise KeyError('Instance ID') as soon as one pad is
  listed (see "## Findings").

`dispatchMessages` stops at the first exception. What the lines before it did is kept,
and so is the message stored for the failing line itself when the exception comes
from a node.

The serial port, the host clock and the system profiler are parameters:

- the received batch of lines;
- the clock reading taken by `resetTimer`;
- the reply to `HELP`;
- the list of serial-port profiles.

Each `Command`'s text is given by `Commands.Wire`. That text can be read back, so
distinct commands are sent as distinct strings. The device mode, the last `MOD<n>`
sent, reads the same off the commands as off their text.

`Device.TPad` holds these fields:

- the outbound command log;
- the time of the last timer reset;
- the message table keyed by host-clock time;
- the node list;
- the log of `receiveMessage` calls.

`Device.Group` stands for both group classes, told apart by a constant `kind`. Each
group records its threshold and its listeners. `TPad.DispatchMessages` is proved equal
to `Router.DispatchAll`. The properties of the dispatch are proved as lemmas about
`Router.DispatchAll`.

## Model

| member | source | states |
|---|---|---|
| `Codec.CodeTables` | psychopy_bbtk/tpad.py:9-34 | the format's three character classes are exactly the key sets of channelCodes, stateCodes and buttonCodes |
| `Codec.Match` | psychopy_bbtk/tpad.py:37-43 | re.match succeeds exactly on lines that start with a channel code, a space, a state code, a space, a button code and a space; anything may follow |
| `Codec.SplitTPadMessage` | psychopy_bbtk/tpad.py:46-47 | raises (AttributeError from `.groups()` on None) exactly when the line does not match |
| `Codec.MatchEncode` | psychopy_bbtk/tpad.py:37-47 | a device line built from well-formed fields matches back to those fields, whatever non-digit text follows the timestamp |
| `Codec.LeadingDigitsOfDigits` | psychopy_bbtk/tpad.py:38 | the greedy `\d*` group takes all the timestamp digits and stops at the first non-digit |
| `Codec.MatchDecomposes` | psychopy_bbtk/tpad.py:37-47 | a matched line is the encoding of its groups followed by text that does not start with a digit: the groups lose and add nothing |
| `Text.ParseNatToString` | psychopy_bbtk/tpad.py:280 | reading back the decimal text of a natural number gives the number |
| `Text.ParseIntToString` | psychopy_bbtk/tpad.py:318 | `str()` of an integer, sign included, reads back to the same integer |
| `Text.LeadingDigits` | psychopy_bbtk/tpad.py:38 | the longest run of digits at the start of the text: a prefix, all digits, followed by a non-digit or the end |
| `Text.FindCharacterised` | psychopy_bbtk/tpad.py:239-240 | `str.find` gives the first occurrence at or after start, and gives -1 exactly when there is none |
| `Groups.StateValue` | psychopy_bbtk/tpad.py:166-169 | the state is true exactly for `P` and false exactly for `R` |
| `Groups.ParseButtonParts` | psychopy_bbtk/tpad.py:158-175 | a ButtonResponse with the time and channel unchanged and the state as a boolean |
| `Groups.ParsePhotodiodeParts` | psychopy_bbtk/tpad.py:94-118 | a PhotodiodeResponse with time and channel unchanged, the state as a boolean and the group's current threshold |
| `Groups.ParseButtonLine` | psychopy_bbtk/tpad.py:158-175 | TPadButtonGroup.parseMessage on a string: the line is split by splitTPadMessage, so it raises exactly where the split raises (`Groups.ParseLineRejects`), and otherwise it is the button parse of the line's own fields (`Groups.ParseLineOfEncoding`) |
| `Groups.ParsePhotodiodeLine` | psychopy_bbtk/tpad.py:94-118 | TPadPhotodiodeGroup.parseMessage on a string: it raises exactly where splitTPadMessage raises, and otherwise it is the photodiode parse of the line's own fields with the group's threshold (same two lemmas) |
| `Groups.ParseLineOfEncoding` | psychopy_bbtk/tpad.py:158-175 | given a device line, both parseMessage variants split it and yield its own time digits and button character, unconverted |
| `Groups.ParseLineRejects` | psychopy_bbtk/tpad.py:159-161 | parseMessage on a string raises exactly when the string does not match the format |
| `Router.ToTimeStrictlyMonotonic` | psychopy_bbtk/tpad.py:280 | ms / 1000 + last reset preserves order and equality of device timestamps, so distinct stamps are distinct keys |
| `Router.ReadLine` | psychopy_bbtk/tpad.py:274-282 | a line is skipped exactly when it does not match; an accepted line has a valid state and channel class |
| `Router.RoutingTable` | psychopy_bbtk/tpad.py:286-295 | an A message reaches exactly button groups, a C message exactly photodiode groups, an M message exactly voice keys, and a T message every node |
| `Router.FanoutSound` | psychopy_bbtk/tpad.py:286-298 | every receiveMessage call goes to a node the filters let through, never a voice key, and carries that node's parseMessage of the parts |
| `Router.FanoutOrdered` | psychopy_bbtk/tpad.py:286 | the nodes are served in list order, none twice |
| `Router.FanoutComplete` | psychopy_bbtk/tpad.py:286-298 | unless the loop raised, every node the filters let through receives the message |
| `Router.FanoutFailure` | psychopy_bbtk/tpad.py:293-297 | the node loop raises exactly when the list holds a voice key and the message's class lets a voice key through |
| `Router.FanoutStep` | psychopy_bbtk/tpad.py:286-298 | one more node of the loop: skipped by the filter, raising at a voice key, or one receiveMessage call |
| `Router.FanoutStopsAtFailure` | psychopy_bbtk/tpad.py:297 | once the node loop has raised, later nodes receive nothing |
| `Router.FanoutEveryNode` | psychopy_bbtk/tpad.py:286-298 | a message that no filter stops, on a list without voice keys, reaches every node once, in list order |
| `Router.Fanout` | psychopy_bbtk/tpad.py:286-298 | the node loop for one converted message: the nodes in list order, each skipped by its filter, raising AttributeError at a voice key, or given one receiveMessage call; its properties are `Router.FanoutSound`, `FanoutOrdered`, `FanoutComplete`, `FanoutFailure` and `FanoutStep` |
| `Router.Step` | psychopy_bbtk/tpad.py:273-298 | one line of the batch: skipped when it does not match, a ValueError when converting fails, else stored under its host time and fanned out; `Router.DispatchLine` states it case by case |
| `Router.DispatchAll` | psychopy_bbtk/tpad.py:267-298 | the line loop of dispatchMessages: the lines in batch order, stopping at the first exception; `Device.TPad.DispatchMessages` is proved equal to it, and `DispatchNext`, `DispatchStopsAtFailure`, `DispatchIgnoresNonMatching` and `LaterLineOverwrites` state its properties |
| `Router.RoutingByChannel` | psychopy_bbtk/tpad.py:286-298 | A deliveries go only to button groups, C only to photodiode groups, M to nobody without a voice key; T reaches every node in order |
| `Router.DispatchNext` | psychopy_bbtk/tpad.py:273-298 | after lines that did not raise, one more line does exactly what its own step does |
| `Router.MatchingLines` | psychopy_bbtk/tpad.py:274 | the kept lines all match and come from the batch, and every matching line of the batch is kept |
| `Router.MatchingLinesAppend` | psychopy_bbtk/tpad.py:273-274 | one line is kept exactly when it matches, and the matching lines of a concatenation are those of its halves in order, so batch order is kept |
| `Router.DispatchIgnoresNonMatching` | psychopy_bbtk/tpad.py:273-274 | dispatching a batch is dispatching only its matching lines |
| `Router.DispatchStopsAtFailure` | psychopy_bbtk/tpad.py:273-298 | once a line raises, the rest of the batch is not processed |
| `Router.DispatchLine` | psychopy_bbtk/tpad.py:273-298 | one more line: ignored if it does not match; ValueError with nothing stored for a `[`/`]` code or empty digits; otherwise stored under ms/1000 + reset before the nodes are visited |
| `Router.LaterLineOverwrites` | psychopy_bbtk/tpad.py:284 | the message table gets both keys; a later line with the same timestamp replaces the earlier, with distinct timestamps both are kept |
| `Commands.Wires` | psychopy_bbtk/tpad.py:315-318 | the text sent for a command log, command by command |
| `Commands.Wire` | psychopy_bbtk/tpad.py:315-338 | the text sent for each command: `X`, `MOD<n>`, `REST`, `HELP`, `AAO<n> <t>`, with numbers as str() writes them; `Commands.WireRoundTrip` and `WireInjective` show that it can be read back and is one-to-one |
| `Commands.SetModeCommands` | psychopy_bbtk/tpad.py:312-321 | setMode(m) sends X, then MOD<m>; `Commands.LastModeAfterSetMode` shows it leaves mode m |
| `Commands.ResetTimerCommands` | psychopy_bbtk/tpad.py:334-344 | resetTimer sends setMode(0), REST, setMode(3); `Commands.SequencesEndInStreamingMode` shows it ends in mode 3 |
| `Commands.IsAwakeCommands` | psychopy_bbtk/tpad.py:323-332 | isAwake sends setMode(0), HELP, setMode(3); `Commands.SequencesEndInStreamingMode` shows it ends in mode 3 |
| `Commands.SetThresholdCommands` | psychopy_bbtk/tpad.py:86-92 | setThreshold sends setMode(0), one AAO command per channel, setMode(3); `Commands.SequencesEndInStreamingMode` shows it ends in mode 3 |
| `Commands.LastMode` | psychopy_bbtk/tpad.py:312-321 | the device mode left by a command log, the mode of the last MOD<n> sent; `Commands.LastModeCharacterised` states what it means |
| `Commands.LastModeCharacterised` | psychopy_bbtk/tpad.py:312-321 | there is no mode exactly when no mode was selected; otherwise the mode comes from a mode selection that no later selection follows |
| `Commands.ThresholdCommands` | psychopy_bbtk/tpad.py:89-91 | one AAO command per channel, in the order of the channels, all with the same threshold |
| `Commands.ModeCommandRoundTrip` | psychopy_bbtk/tpad.py:318 | `MOD<mode>` reads back as the mode, negative modes included |
| `Commands.IntToStringHasNoSpace` | psychopy_bbtk/tpad.py:90 | the decimal text of an integer has no space, so the space in `AAO<n> <t>` separates the channel from the threshold |
| `Commands.SplitAtFirstSpace` | psychopy_bbtk/tpad.py:90 | in `AAO` + a + space + b with no space in a, the first space after the prefix ends a |
| `Commands.ThresholdCommandRoundTrip` | psychopy_bbtk/tpad.py:90 | `AAO<n> <threshold>` reads back as the channel and the threshold |
| `Commands.ModeOnTheWire` | psychopy_bbtk/tpad.py:312-321 | only a mode selection's text reads as a mode selection; X, REST, HELP and AAO texts do not |
| `Commands.WireRoundTrip` | psychopy_bbtk/tpad.py:312-344 | every command can be parsed back from its wire text |
| `Commands.WireInjective` | psychopy_bbtk/tpad.py:312-344 | distinct commands are sent as distinct texts |
| `Commands.WireModeAgrees` | psychopy_bbtk/tpad.py:312-321 | the mode read off the wire text equals the mode of the command log |
| `Commands.LastModeAfterSetMode` | psychopy_bbtk/tpad.py:312-321 | whatever was sent before, setMode(m) leaves the device in mode m |
| `Commands.SequencesEndInStreamingMode` | psychopy_bbtk/tpad.py:323-344 | settings mode 0 is entered first; resetTimer, isAwake and setThreshold all leave the device in mode 3 |
| `Device.TPad.constructor` | psychopy_bbtk/tpad.py:197-224 | a new pad has no nodes and no messages; its timer has been reset once against the clock, and it ends in mode 3 |
| `Device.TPad.SendMessage` | psychopy_bbtk/tpad.py:315 | the command is appended to the outbound log and nothing else changes |
| `Device.TPad.SetMode` | psychopy_bbtk/tpad.py:312-321 | sends X then MOD<mode>, and the device is in that mode afterwards |
| `Device.TPad.IsAwake` | psychopy_bbtk/tpad.py:323-332 | sends the settings-mode, HELP, streaming-mode sequence; awake exactly when the reply is non-empty; ends in mode 3 |
| `Device.TPad.ResetTimer` | psychopy_bbtk/tpad.py:334-344 | sends the settings-mode, REST, streaming-mode sequence, records the clock reading, and ends in mode 3 |
| `Device.TPad.AddListener` | psychopy_bbtk/tpad.py:254-265 | every attached node gets the listener appended, and every node's threshold stays as it was |
| `Device.TPad.NotifyNodes` | psychopy_bbtk/tpad.py:286-298 | the node loop for one message makes exactly the receiveMessage calls and raises exactly as the routing specification says |
| `Device.TPad.DispatchMessages` | psychopy_bbtk/tpad.py:267-298 | the new message table, the receiveMessage calls and the exception raised, if any, are those of the dispatch specification over the batch |
| `Device.Group.Photodiode` | psychopy_bbtk/tpad.py:51-71 | a new photodiode group is appended to its pad's nodes, with no threshold and no listeners |
| `Device.Group.Button` | psychopy_bbtk/tpad.py:136-156 | a new button group, one channel by default, is appended to its pad's nodes |
| `Device.Group.AddListener` | psychopy_bbtk/tpad.py:264-265 | the listener is appended to the node's listeners |
| `Device.Group.SetThreshold` | psychopy_bbtk/tpad.py:86-92 | stores the threshold; sends settings mode, one AAO command per channel in order (1 and 2 by default), then streaming mode; ends in mode 3 |
| `Discovery.PortStart` | psychopy_bbtk/tpad.py:239 | `desc.find("COM") + 3` is never below 2, so never -1 |
| `Discovery.PortStartCharacterised` | psychopy_bbtk/tpad.py:239 | the start is 2 exactly when no COM occurs, and otherwise points just past the first COM |
| `Discovery.ComPortSkip` | psychopy_bbtk/tpad.py:239-249 | a profile is skipped exactly when no `)` follows the start; otherwise the port is COM followed by the description's text from the start up to the first `)` at or after it, a text without `)` |
| `Discovery.ComPort` | psychopy_bbtk/tpad.py:238-245 | the port written in a profile's description: COM followed by the text from just after the first COM up to the next `)`, or nothing when no `)` follows; `Discovery.ComPortSkip` characterises it |
| `Discovery.ProfileDevice` | psychopy_bbtk/tpad.py:234-250 | one profile's entry in the TPad listing: none without BBTKTPAD in its Instance ID or without a port, else its Instance ID and the port; `Discovery.ProfileDeviceShape` characterises it |
| `Discovery.TPadDevices` | psychopy_bbtk/tpad.py:226-252 | TPad.getAvailableDevices: the entry of each profile that has one, in profile order; `Discovery.TPadDevicesExactly` and `TPadDevicesAppend` characterise it |
| `Discovery.FilterMapAppend` | psychopy_bbtk/tpad.py:228-252 | the listing loop looks at profiles one by one: the listing of a concatenation is the concatenation of the listings |
| `Discovery.FilterMapExactly` | psychopy_bbtk/tpad.py:228-252 | an entry is in the listing exactly when some element yields it |
| `Discovery.TPadDevicesAppend` | psychopy_bbtk/tpad.py:228-252 | the TPad listing keeps the order of the profiles and splits over concatenation |
| `Discovery.ProfileDeviceShape` | psychopy_bbtk/tpad.py:234-250 | a profile is listed exactly when its Instance ID contains BBTKTPAD and its description names a port; it is listed under its Instance ID with that port |
| `Discovery.TPadDevicesExactly` | psychopy_bbtk/tpad.py:226-252 | a pad is listed exactly when some profile yields it |
| `Discovery.TPadAvailableDevices` | psychopy_bbtk/tpad.py:226-252 | the loop builds exactly the TPad listing of the profiles |
| `Discovery.DetectComPort` | psychopy_bbtk/tpad.py:300-310 | ConnectionError exactly when no pad is listed, otherwise the ports of the listed pads, in order |
| `Discovery.ChoosePort` | psychopy_bbtk/tpad.py:205-207 | the given port, else the first detected port, else ConnectionError |
| `Discovery.GroupDevicesAsWritten` | psychopy_bbtk/tpad.py:77-82 | the group listings' loop as written, looking up 'Instance ID' in each TPad entry; `Discovery.GroupDevicesAsWrittenRaise` shows what it does |
| `Discovery.PhotodiodeDevicesAsWritten` | psychopy_bbtk/tpad.py:73-84 | TPadPhotodiodeGroup.getAvailableDevices as written; `Discovery.GroupListingCounterexample` shows it raises KeyError('Instance ID') for a single pad |
| `Discovery.ButtonDevicesAsWritten` | psychopy_bbtk/tpad.py:177-188 | TPadButtonGroup.getAvailableDevices as written; `Discovery.GroupListingCounterexample` shows it raises KeyError('Instance ID') for a single pad |
| `Discovery.GroupDevicesAsWrittenRaise` | psychopy_bbtk/tpad.py:77-82 | as written, a group listing is empty without pads and raises KeyError('Instance ID') as soon as there is one |
| `Discovery.GroupListingCounterexample` | psychopy_bbtk/tpad.py:177-188 | one pad on COM6 makes both group listings, as written, raise KeyError('Instance ID') |
| `Discovery.GroupDevices` | psychopy_bbtk/tpad.py:73-84 | one descriptor per pad, named after its deviceName plus the group suffix, on its port, with the group's channel count |
| `Discovery.GroupAvailableDevices` | psychopy_bbtk/tpad.py:74-84 | the shared loop builds exactly the group listing of the TPad listing |
| `Discovery.PhotodiodeAvailableDevices` | psychopy_bbtk/tpad.py:73-84 | one `<name>_photodiodes` descriptor with 2 channels per listed pad, in order, on the pad's port |
| `Discovery.ButtonAvailableDevices` | psychopy_bbtk/tpad.py:177-188 | one `<name>_buttons` descriptor with 10 channels per listed pad, in order, on the pad's port |

## Left out

- Serial transport: the model does not open the port, and `getResponse`, `pause` and
  the baud rate and framing settings are not modelled. Reading from the port becomes
  the `data` batch and the `reply` parameter. The replies that `setMode` reads and
  throws away are not modelled, because they do not affect any state the model has.
- `Device.TPad.constructor` does not model what the serial base class does while the
  port opens, including its optional wake-up check, because that class is not part
  of this model. It takes the port already chosen. `Discovery.ChoosePort` models the
  default port choice from `_detectComPort`.
- The Windows system profiler is not modelled: its profiles are a parameter. Only the
  'Instance ID' and 'Device Description' entries are kept, because no other entry is
  read.
- The device manager that group constructors use to find or create a pad by name or
  port is not modelled, because it is not part of this model. The constructors take
  the pad object.
- `findPhotodiode` and `findThreshold` are not modelled. They only set mode 3 and then
  run base-class screen-calibration code that is not part of this model.
- The base classes' `receiveMessage`, `addListener` and `getThreshold` are not
  modelled in their own right. A call is recorded as a `Delivery`, a listener as an
  appended id, and `getThreshold` as the last threshold set.
- `Device.TPad.SendMessage` takes a `Command`, not an arbitrary string. Its text on
  the wire is `Commands.Wire`. Every command the file sends is one of these five
  kinds.
- Times are exact reals, not binary floating point. `\d` is taken to match ASCII
  digits only, while Python's also matches other Unicode digits.
- `Groups.ParseButtonParts`: requires the state to be `P` or `R`. `parseMessage`
  (tpad.py:102-105 and 166-169) leaves any other state string unconverted, but every
  caller in the file passes a state that has already matched `[PR]`.
- `Groups.ParsePhotodiodeParts`: the same requirement on the state, for the same
  reason.
- `TPadVoicekey` is modelled only as a node kind that has no `parseMessage`. The file
  never creates or attaches one.
- `psychopy_bbtk/components/` (the Builder components) is not part of this model. Nor
  are the tests.

## Findings

| source | as written | input that shows it | evidently intended | confidence | as-written member | corrected member |
|---|---|---|---|---|---|---|
| psychopy_bbtk/tpad.py:77-82 | the photodiode group listing reads `profile['Instance ID']` from entries of `TPad.getAvailableDevices()`, whose only keys are 'deviceName' and 'port' | one serial profile with Instance ID `FTDIBUS\BBTKTPAD` and description `TPad (COM6)`: KeyError('Instance ID') | name each group after the pad's `deviceName` (which is its Instance ID) | not executed | `Discovery.GroupListingCounterexample`, `Discovery.PhotodiodeDevicesAsWritten` | `Discovery.PhotodiodeAvailableDevices` |
| psychopy_bbtk/tpad.py:181-186 | the button group listing makes the same `profile['Instance ID']` lookup | the same single profile: KeyError('Instance ID') | name each group after the pad's `deviceName` | not executed | `Discovery.GroupListingCounterexample`, `Discovery.ButtonDevicesAsWritten` | `Discovery.ButtonAvailableDevices` |
