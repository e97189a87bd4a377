# Verified model of the device firmware

This project models the parts of an IoT device firmware (Arduino and ESP32) that are
hand-written state machines, ring buffers, byte codecs and loops, and proves what
they keep over every input, every run and every interleaving. The command
`dafny verify dfyconfig.toml` verifies all of it.

- **Serial transport.** `Cobs` is the byte stuffing, `Crc` the CRC-16/CCITT-FALSE
  register, `Frame` the binary frame built from both, `SerialLines` the newline
  receiver and publisher. The firmware sends frames but contains no reader for
  them; `Frame.Parse` is the reader its header layout calls for.
- **Settings.** `Seqlock` is the hand-off from the fetch task to the transport
  task, one shared access at a time; `SettingsGate` the readiness latch with its
  subscriptions; `SettingsManager` the manager on top of the gate.
- **MQTT.** `MqttQueue` is the offline ring against a bounded queue,
  `MqttService` the connection machine that owns it.
- **Sensors and capabilities.** `CurrentSensor` is the ACS712 calibration and
  measurement machine, `Energy` the trapezoid integration over a wrapping clock,
  `Frustum` the slice sum of the water level sensor, `Persistence` the binary
  capabilities with the LED's blink timer, the valve interpreter, the output pin and
  the stored state, `Builder` the arena and slots all capabilities live in.
- **Registration and text.** `Registration` is the device registration task
  protocol, `Json` the path extractor against the firmware's own JSON printer,
  `CommentStripper` the build tool that removes comments, `Backoff` the three
  retry-delay loops.

Loops and objects are methods and classes, each proved to do what a function on
values says; the laws are lemmas about those functions and about lists of calls or
actions. Clocks, the network, the ADC, storage and client answers are inputs.
Integers wrap where the firmware's do. Concurrent tasks are interleaved under
sequential consistency.

## What the code does, where that may surprise

- A seqlock snapshot can be torn only if 2^31 updates complete inside one attempt
  (`Seqlock.SeqlockSafety`, `Seqlock.TornRun`); an update whose flag is raised
  between an acceptance and the reader's clear is lost (`Seqlock.UpdateLost`).
- The comment at `src/Core/Settings/SettingsManager.cpp:399` intends failed fetches to be retried.
  The code never retries: starting a fetch raises the gate to Syncing, which
  outranks the level the guard asks for (`SettingsManager.ScheduledRetryNeverStarts`).
- The first MQTT connection attempt runs `begin` again and drops the messages
  queued so far (`MqttService.FirstAttemptDropsQueue`, `MqttService.DiscardsExactlyWhen`);
  a clock reading of 0 taken for the beginning of an offline time breaks the offline
  account until the next fresh start (`MqttService.CountedExactlyWhen`, `MqttService.OfflineAccounting`).
- `setup` of the current sensor forgets the last ADC read, so reads on its two sides
  may be too close (`CurrentSensor.SpacedExactlyWhen`, `CurrentSensor.SetupAgainSpaced`).
- One change of two adjacent bytes passes the CRC of a serial frame, because the CRC
  is stored low byte first (`Frame.CorruptFrameRefused`).
- An overlong serial line is not refused; its last bytes are taken for a line
  (`SerialLines.LineDeliveredWhole`).
- The water volume sums slices from the rim's radius downwards while the height is
  counted from the bottom (`Frustum.MeasuredFromTheRim`).
- Retry and connect deadlines wrap and are compared directly with the wrapped clock.
  They are right exactly while clock and deadline have both wrapped or neither has
  (`Backoff.DeadlineHonest`, `Registration.RetryHonoured`, `MqttService.TimeoutHonest`);
  a connect deadline of exactly 2^32 is stored as 0 and never met
  (`MqttService.NeverTimesOut`, `MqttService.ConnectingForGood`). The blink timer is
  never late, and early exactly across a wrap (`Persistence.DueExactlyWhen`).
- The JSON extractor ends a value that is no string or object at its first comma, so an
  array of two numbers hides every member behind it (`Json.LaterFoundExactlyWhen`).
- A failed plain actuator leaves its adapter registered (`Builder.LightLeavesAdapter`).
- The comment stripper knows no line continuation: a line comment ends at its
  newline even after a backslash (`CommentStripper.LineCommentEnds`).

## Model

| member | source | states |
|---|---|---|
| `Cobs.CobsEncode` | src/Platform/Arduino/Transports/ArduinoSerialTransportChannel.cpp:257-305 | The in-place encoder writes the code of the input and returns its length; it returns 0 exactly for missing buffers, fewer than two bytes of room, or a code that would not leave one spare byte. |
| `Cobs.CobsDecode` | src/Platform/Arduino/Transports/ArduinoSerialTransportChannel.cpp:307-346 | The in-place decoder returns the decoded bytes, and 0 exactly for an empty or malformed frame, one that does not fit, or an empty payload. |
| `Cobs.DecodeEncode` | src/Platform/Arduino/Transports/ArduinoSerialTransportChannel.cpp:257-346 | Decoding an encoding gives back the payload, for every payload. |
| `Cobs.EncodeZeroFree` | src/Platform/Arduino/Transports/ArduinoSerialTransportChannel.cpp:257-305 | No byte of an encoding is the delimiter 0x00. |
| `Cobs.EncodeLength` | src/Platform/Arduino/Transports/ArduinoSerialTransportChannel.cpp:257-305 | An encoding of n bytes has n + 1 to n + 1 + n/254 bytes, and exactly the upper bound when the payload has no zero. |
| `Cobs.EncodeInjective` | src/Platform/Arduino/Transports/ArduinoSerialTransportChannel.cpp:257-305 | Different payloads have different encodings. |
| `Cobs.CloseAtZero` | src/Platform/Arduino/Transports/ArduinoSerialTransportChannel.cpp:269-288 | A zero-free run of fewer than 254 bytes before a zero is encoded as its length plus one and the run; the zero is left out. |
| `Cobs.CloseFull` | src/Platform/Arduino/Transports/ArduinoSerialTransportChannel.cpp:289-300 | A run of 254 bytes is encoded as 255 and the run, whatever follows. |
| `Cobs.MalformedRefused` | src/Platform/Arduino/Transports/ArduinoSerialTransportChannel.cpp:307-346 | A block that opens with a zero or is cut off makes the frame malformed, at its start or after a block that is right. |
| `Cobs.WireSplits` | src/Platform/Arduino/Transports/ArduinoSerialTransportChannel.cpp:397-404 | Cutting a line of 0x00-terminated frames at the zeros yields one piece per message, and each decodes to it. |
| `Crc.Crc16CcittFalse` | src/Platform/Arduino/Transports/ArduinoSerialTransportChannel.cpp:240-255 | The bit loop computes the CRC-16/CCITT-FALSE register over the bytes. |
| `Crc.BytesAreBits` | src/Platform/Arduino/Transports/ArduinoSerialTransportChannel.cpp:240-255 | Feeding bytes, eight shifts at a time, equals feeding the message bit by bit. |
| `Crc.Affine` | src/Platform/Arduino/Transports/ArduinoSerialTransportChannel.cpp:240-255 | The exclusive-or of two registers is the register of the exclusive-or, for equal-length messages. |
| `Crc.BitStepBijective` | src/Platform/Arduino/Transports/ArduinoSerialTransportChannel.cpp:247-251 | For a given message bit, the step maps registers one to one and onto, with a stated inverse. |
| `Crc.TailKeepsDifference` | src/Platform/Arduino/Transports/ArduinoSerialTransportChannel.cpp:240-255 | Registers that differ still differ after any common tail. |
| `Crc.BurstDetected` | src/Platform/Arduino/Transports/ArduinoSerialTransportChannel.cpp:240-255 | Any change inside sixteen consecutive message bits changes the register. |
| `Crc.CrcDetectsBurst` | src/Platform/Arduino/Transports/ArduinoSerialTransportChannel.cpp:240-255 | Equal-length messages that differ only inside sixteen consecutive bits have different CRCs. |
| `Crc.CrcDetectsTwoBytes` | src/Platform/Arduino/Transports/ArduinoSerialTransportChannel.cpp:240-255 | In particular when the difference lies in two adjacent bytes. |
| `Crc.ByteDifference` | src/Platform/Arduino/Transports/ArduinoSerialTransportChannel.cpp:240-255 | Changing the last byte of a message leaves the high half of the register as it was if and only if the byte changes by 0x89; the low half then changes by 0xA1. |
| `Crc.RegisterIsWord` | src/Platform/Arduino/Transports/ArduinoSerialTransportChannel.cpp:240-255 | The sixteen bits of the register are those of the 16-bit word that starts anywhere, takes each byte at its top and adds 0x1021 on overflow, for every message. |
| `Crc.BitsOfByte` | src/Platform/Arduino/Transports/ArduinoSerialTransportChannel.cpp:245-245 | The bits of a byte are its binary digits, the most significant first. |
| `Crc.CheckValue` | src/Platform/Arduino/Transports/ArduinoSerialTransportChannel.cpp:240-255 | The catalogue check value: the ASCII digits 1 to 9 have the CRC 0x29B1, and no bytes at all 0xFFFF. |
| `Frame.U16RoundTrip` | src/Platform/Arduino/Transports/ArduinoSerialTransportChannel.cpp:216-226 | A 16-bit value written little-endian reads back. |
| `Frame.U32RoundTrip` | src/Platform/Arduino/Transports/ArduinoSerialTransportChannel.cpp:228-238 | A 32-bit value written little-endian reads back. |
| `Frame.SerialSender.FillBody` | src/Platform/Arduino/Transports/ArduinoSerialTransportChannel.cpp:360-388 | Header, topic and payload are laid out in the raw buffer as the frame layout says. |
| `Frame.SerialSender.SendFrame` | src/Platform/Arduino/Transports/ArduinoSerialTransportChannel.cpp:350-407 | Sending succeeds exactly for a started port, a topic and a frame of at most 768 bytes, and then puts the encoding of body and CRC and one 0x00 on the wire; the encoder is never short of room. |
| `Frame.EncodingFits` | src/Platform/Arduino/Transports/ArduinoSerialTransportChannel.cpp:397-401 | A raw frame of at most 768 bytes always encodes into fewer than 779. |
| `Frame.LayoutOf` | src/Platform/Arduino/Transports/ArduinoSerialTransportChannel.cpp:350-395 | A frame byte by byte: version 1, kind, flag, origin, hops, id, topic and payload lengths low byte first, topic, payload, and the CRC of all that, low byte first. |
| `Frame.ParseRaw` | src/Platform/Arduino/Transports/ArduinoSerialTransportChannel.cpp:350-395 | A frame read by its layout gives back the message it was built from. |
| `Frame.CorruptBodyRefused` | src/Platform/Arduino/Transports/ArduinoSerialTransportChannel.cpp:350-395 | A frame whose body was changed inside two adjacent bytes is refused by the CRC check. |
| `Frame.CorruptFrameRefused` | src/Platform/Arduino/Transports/ArduinoSerialTransportChannel.cpp:350-395 | A frame changed inside any two adjacent bytes, those of the stored CRC included, is refused, if and only if they are not the last of the body and the first of the CRC changed by 0x89 and 0xA1. |
| `Frame.FramesReceived` | src/Platform/Arduino/Transports/ArduinoSerialTransportChannel.cpp:350-407 | A reader that cuts the wire at zeros, decodes and parses gets every message sent, in order. |
| `SerialLines.LineChannel.Pump` | src/Platform/Arduino/Transports/ArduinoSerialTransportChannel.cpp:164-212 | After any reads, in any chunks, the messages dispatched are those of the byte stream received since the start. |
| `SerialLines.LineChannel.DecodeAndDispatch` | src/Platform/Arduino/Transports/ArduinoSerialTransportChannel.cpp:409-445 | A line is dispatched unchanged if it has 1 to 767 bytes and dropped otherwise. |
| `SerialLines.LineChannel.Publish` | src/Platform/Arduino/Transports/ArduinoSerialTransportChannel.cpp:96-112 | A payload goes out followed by one newline, exactly when the port is started. |
| `SerialLines.TakeByte` | src/Platform/Arduino/Transports/ArduinoSerialTransportChannel.cpp:174-211 | How one more byte changes the finished lines and the line in progress. |
| `SerialLines.LinesPartition` | src/Platform/Arduino/Transports/ArduinoSerialTransportChannel.cpp:174-211 | The stream is its lines, each closed by a newline, and a newline-free tail. |
| `SerialLines.CrDropped` | src/Platform/Arduino/Transports/ArduinoSerialTransportChannel.cpp:174-183 | A line is cleaned of carriage returns piece by piece. |
| `SerialLines.LineDeliveredWhole` | src/Platform/Arduino/Transports/ArduinoSerialTransportChannel.cpp:174-211 | A line is delivered whole exactly when it has 1 to 767 bytes besides carriage returns; a line that overflows the 779-byte buffer is not refused: its last n mod 780 bytes are taken for it. |
| `SerialLines.ShortLinesDelivered` | src/Platform/Arduino/Transports/ArduinoSerialTransportChannel.cpp:164-212 | While no line has more than 779 bytes besides carriage returns, the messages are exactly the lines of 1 to 767 such bytes, in order. |
| `SerialLines.PublishedIsDelivered` | src/Platform/Arduino/Transports/ArduinoSerialTransportChannel.cpp:96-212 | Payloads of 1 to 767 bytes without CR or LF come back from the line unchanged and in order. |
| `SerialLines.TwoReads` | src/Platform/Arduino/Transports/ArduinoSerialTransportChannel.cpp:164-212 | A stream read in two chunks is dispatched like the same stream read at once. |
| `Seqlock.SeqlockSafety` | src/Core/Settings/SettingsManager.cpp:322-329 | In all interleavings with at most b updates inside one accepted attempt, every snapshot applied is one complete update: this holds if and only if b < 2^31, because the counter has 32 bits. |
| `Seqlock.TornRun` | src/Core/Settings/SettingsManager.cpp:525-541 | The failing interleaving: the reader held up while 2^31 updates complete applies a mixture. |
| `Seqlock.LastUpdateApplied` | src/Core/Settings/SettingsManager.cpp:523-544 | At rest the last update is the one applied, exactly unless its flag went up between the acceptance of an older update and the reader's clear. |
| `Seqlock.UpdateLost` | src/Core/Settings/SettingsManager.cpp:523-544 | The interleaving in which an update is lost: its flag is cleared with the older one and nothing polls it again. |
| `Seqlock.RunInv` | src/Core/Settings/SettingsManager.cpp:322-329 | The invariant of counter, words, flag and both tasks is kept by every interleaving. |
| `Backoff.ComputeBackoffBase` | src/Core/Services/MqttService.cpp:672-695 | The early-exit loop yields min(initial * 2^k, max) with k = min(attempt, maxFastRetries), before jitter, without leaving 32 bits. |
| `Backoff.RetryDelay` | src/Core/Settings/SettingsManager.cpp:681-704 | The loop of the settings retry yields min(5000 * 2^(failures-1), 60000). |
| `Backoff.RetryDelayMonotone` | src/App/Managers/DeviceRegistrationManager.cpp:510-534 | One more failure never shortens the wait, also where the failure counter stops at 15. |
| `Backoff.DelayTable` | src/App/Managers/DeviceRegistrationManager.cpp:510-534 | After 0, 1, 2 and 3 earlier failures in a row the wait is 5, 10, 20 and 40 seconds, and a minute from then on. |
| `Backoff.MqttBackoffMonotone` | src/Core/Services/MqttService.cpp:672-695 | The MQTT delay before jitter never falls with the attempt number. |
| `Backoff.DeadlineHonest` | src/Core/Services/MqttService.cpp:262-265 | A wrapped deadline compared directly with the wrapped clock tells whether the delay is over, within one turn of the clock, if and only if both have wrapped since it began, or neither has. |
| `SettingsGate.SettingsGateImpl.Collect` | src/Core/Settings/SettingsGateImpl.cpp:41-63 | Raising the level takes out exactly the subscriptions that have become ready, in slot order, and leaves the others. |
| `SettingsGate.SettingsGateImpl.RunWhenReady` | src/Core/Settings/SettingsGateImpl.cpp:75-101 | A callback is called on the spot, entered in the first free slot, or refused as out of memory or invalid, in exactly these cases. |
| `SettingsGate.CollectSplits` | src/Core/Settings/SettingsGateImpl.cpp:41-63 | What is taken out and what stays are together what was registered. |
| `SettingsGate.StepConserves` | src/Core/Settings/SettingsGateImpl.cpp:41-101 | Every step, re-entrant calls included, keeps each accepted callback in exactly one place: a slot, an unfinished call list, or the calls made. |
| `SettingsGate.StepTimely` | src/Core/Settings/SettingsGateImpl.cpp:41-101 | Every step keeps: subscriptions want more than the level, and nothing is or has been called early. |
| `SettingsGate.GateRuns` | src/Core/Settings/SettingsGateImpl.cpp:41-101 | Over every run with re-entrant callbacks the level never falls, no callback runs early or twice, and once control has left the gate a callback has run exactly if its level was reached. |
| `SettingsGate.RefusedOnlyWhenFull` | src/Core/Settings/SettingsGateImpl.cpp:88-101 | A valid request is refused only when all eight slots are taken. |
| `SettingsManager.SettingsManager.Handle` | src/Core/Settings/SettingsManager.cpp:523-563 | What one call does to current settings, phase, retry time, fetch count and gate level. |
| `SettingsManager.SettingsManager.ApplyPendingUpdate` | src/Core/Settings/SettingsManager.cpp:365-521 | A usable fetch replaces or keeps the settings and opens the gate to Synced; any other falls back and schedules a retry. |
| `SettingsManager.SettingsManager.SyncFromApi` | src/Core/Settings/SettingsManager.cpp:597-673 | When a fetch is started, when the retry is scheduled instead, and the gate level left behind. |
| `SettingsManager.SettingsManager.ScheduleApiRetryBackoff` | src/Core/Settings/SettingsManager.cpp:681-705 | The failure count and the time of the next attempt. |
| `SettingsManager.StartsExactlyWhen` | src/Core/Settings/SettingsManager.cpp:546-552 | A call starts a fetch if and only if the gate is at Available, the network is ready twice, the retry time is reached, no fetch runs and there are current settings. |
| `SettingsManager.AtMostOneFetch` | src/Core/Settings/SettingsManager.cpp:546-552 | However the events come, `handle` starts at most one fetch in the life of the manager. |
| `SettingsManager.ScheduledRetryNeverStarts` | src/Core/Settings/SettingsManager.cpp:597-673 | After that start no later event leads to another: starting raises the gate to Syncing for good, and the guard wants Available. |
| `SettingsManager.FailedFetchIsNotRetried` | src/Core/Settings/SettingsManager.cpp:395-404 | Instance: the server answers 500, a retry is scheduled for 5 s later, and it is never made. |
| `SettingsManager.FailureKeepsCurrent` | src/Core/Settings/SettingsManager.cpp:365-420 | A cancelled, failed or unusable fetch keeps the settings and never lowers the gate; the retry lies 5 to 60 s ahead. |
| `SettingsManager.UsableTakesEffect` | src/Core/Settings/SettingsManager.cpp:425-521 | A fetch not cancelled, with a status from 200 to 299 and a body that parses puts the merged settings in force unless they change nothing, opens the gate to Synced, and clears failures and waiting time. |
| `SettingsManager.OtherIsFailure` | src/Core/Settings/SettingsManager.cpp:365-420 | Any other update counts one failure up to fifteen, moves the next attempt 5 to 60 seconds ahead, and leaves the phase that fits. |
| `SettingsManager.CurrentIsLatest` | src/Core/Settings/SettingsManager.cpp:425-521 | Over every run the manager holds exactly the settings loaded, saved or cleared last, or those of the last usable update that changed them. |
| `SettingsManager.FetchPhase` | src/Core/Settings/SettingsManager.cpp:546-673 | What a call without an update leaves: nothing changed, a fetch under way at level Syncing, or a failure counted and the next attempt 5 to 60 seconds ahead. |
| `MqttQueue.OfflineQueue.Enqueue` | src/Core/Services/MqttService.cpp:727-769 | The ring does what the bounded queue does: a message with a topic of 1 to 127 characters, at most 256 bytes and a free slot of 16 is appended unchanged, any other is refused. |
| `MqttQueue.OfflineQueue.Drain` | src/Core/Services/MqttService.cpp:709-724 | The ring offers the oldest message intact and removes it only if the client takes it. |
| `MqttQueue.OfflineQueue.Clear` | src/Core/Services/MqttService.cpp:472-479 | The ring is emptied; what was queued counts as discarded. |
| `MqttQueue.RingPush` | src/Core/Services/MqttService.cpp:727-769 | Writing the slot at head + count modulo the length appends to the queue. |
| `MqttQueue.RingPop` | src/Core/Services/MqttService.cpp:709-724 | Advancing the head modulo the length drops the oldest message. |
| `MqttQueue.Conservation` | src/Core/Services/MqttService.cpp:709-769 | Over every run the drained messages are a prefix of the accepted ones, and enqueued = drained + discarded + queued. |
| `MqttQueue.CountedOnce` | src/Core/Services/MqttService.cpp:727-769 | A refused message is counted under the first reason that holds (no topic, 128 characters of topic, more than 256 bytes, 16 messages queued), an accepted one as enqueued. |
| `MqttService.Service.Begin` | src/Core/Services/MqttService.cpp:41-106 | State, statistics, topics and queue after `begin`. |
| `MqttService.Service.Stop` | src/Core/Services/MqttService.cpp:109-126 | State, statistics and offline clock after `stop`. |
| `MqttService.Service.Handle` | src/Core/Services/MqttService.cpp:129-286 | One call of the four-state machine, branch by branch. |
| `MqttService.Service.StartConnect` | src/Core/Services/MqttService.cpp:482-645 | One connection attempt: lazy initialisation, choice of broker, client start, deadline. |
| `MqttService.Service.ScheduleRetry` | src/Core/Services/MqttService.cpp:648-669 | The next attempt time and the state left. |
| `MqttService.Service.MarkConnected` | src/Core/Services/MqttService.cpp:450-469 | Offline time, reconnect count and queue policy on going online. |
| `MqttService.Service.MarkDisconnected` | src/Core/Services/MqttService.cpp:439-447 | Offline time, reason and disconnect count on going offline. |
| `MqttService.Service.Subscribe` | src/Core/Services/MqttService.cpp:315-355 | A topic is stored once, in order, and subscribed at once when connected; the result is true exactly for a topic already stored, or one newly stored that a connected client accepts. |
| `MqttService.Service.Publish` | src/Core/Services/MqttService.cpp:289-299 | Online messages go to the client, others or refused ones to the queue. |
| `MqttService.Service.OnSettingsReady` | src/Core/Services/MqttService.cpp:812-829 | The readiness callback. |
| `MqttService.BitMeansOnline` | src/Core/Services/MqttService.cpp:129-286 | In every run the MQTT_CONNECTED bit is set exactly in state Online. |
| `MqttService.OnlineEntry` | src/Core/Services/MqttService.cpp:129-286 | Online is entered only from Connecting, by a `handle` that finds both gates open and the client connected. |
| `MqttService.EveryTopicResubscribed` | src/Core/Services/MqttService.cpp:698-706 | Each step into Online subscribes every stored topic once, in order, and there are no duplicates. |
| `MqttService.TopicsNeverLost` | src/Core/Services/MqttService.cpp:315-355 | Stored topics stay, in order and distinct, over every run. |
| `MqttService.OfflineAccounting` | src/Core/Services/MqttService.cpp:439-469 | Over every run, Online holds exactly when the offline time is 0 and reconnects minus disconnects is 1 online and 0 otherwise, if and only if no event since the last fresh start took a clock reading of 0 for the beginning of an offline time. |
| `MqttService.CountedExactlyWhen` | src/Core/Services/MqttService.cpp:41-286 | One event keeps that account if and only if it is none of these: `begin`, or the `handle` that begins again, reading 0; `stop` from Online or a `handle` that leaves Online, at a reading of 0. Otherwise the account is broken. |
| `MqttService.StaysBroken` | src/Core/Services/MqttService.cpp:439-469 | A broken account is put right by no event but a fresh start. |
| `MqttService.PositiveClock` | src/Core/Services/MqttService.cpp:439-469 | On a clock that never reads 0 no run meets that condition, so the account always holds. |
| `MqttService.ZeroReadingCountsTwice` | src/Core/Services/MqttService.cpp:109-126 | The failing run: connect, go online, stop at a reading of 0 and stop again counts two disconnections for one connection. |
| `MqttService.SecondStopCounts` | src/Core/Services/MqttService.cpp:439-447 | The same from any Online state whose account is in order. |
| `MqttService.QueueAccount` | src/Core/Services/MqttService.cpp:41-126 | The conservation law of the queue holds over every run of the whole service. |
| `MqttService.NextGrows` | src/Core/Services/MqttService.cpp:41-355 | Every event keeps the stored topics, in order and distinct, and the queue balanced. |
| `MqttService.DiscardsExactlyWhen` | src/Core/Services/MqttService.cpp:41-286 | An event discards the whole queue if and only if it is `begin`, the `handle` that makes the first attempt, or a `handle` that goes online under the policy of clearing the queue; any other discards nothing. |
| `MqttService.FirstAttemptDropsQueue` | src/Core/Services/MqttService.cpp:600-611 | The first connection attempt runs `begin` again and thereby discards what was queued before it. |
| `MqttService.TimeoutHonest` | src/Core/Services/MqttService.cpp:236-259 | An attempt is timed out when its 15 seconds are over and not before, at any reading within one turn of the clock, if and only if the clock has not wrapped since the start and the deadline is at most 2^32, or the clock has wrapped and the deadline lies beyond. |
| `MqttService.NeverTimesOut` | src/Core/Services/MqttService.cpp:251-259 | No reading ever times the attempt out if and only if it started exactly 15 seconds before the clock wraps: the stored deadline is then 0, which means none. |
| `MqttService.ConnectingForGood` | src/Core/Services/MqttService.cpp:236-259 | With that deadline the service stays Connecting through any number of calls, as long as the gates are open and the client stays silent. |
| `MqttService.FallbackTarget` | src/Core/Services/MqttService.cpp:500-537 | Below three failures the selected broker is used, the one asked for if it is valid; from then on the first other valid one, exactly if there is one. |
| `MqttService.LinkedMoves` | src/Core/Services/MqttService.cpp:139-281 | Every way out of Connecting and Online: a lost client, a closed gate, success, a silent client at its deadline; and what stays. |
| `MqttService.UnlinkedMoves` | src/Core/Services/MqttService.cpp:171-265 | Every way out of Idle and BackoffWaiting: when an attempt starts, and what becomes of it, with its 15 s deadline or its 1 s pause. |
| `MqttService.AttemptTiming` | src/Core/Services/MqttService.cpp:636-645 | Over runs: an attempt that starts at true time t is still Connecting at every call before t + 15000 that finds the client silent, and the first call from then on counts one timeout and leaves for BackoffWaiting, on a clock that has wrapped exactly if the deadline lies beyond 2^32. |
| `MqttService.AttemptHonestExactly` | src/Core/Services/MqttService.cpp:636-645 | For one such call at any reading within a turn of the clock, that wrap condition is exact. |
| `MqttService.RetryTiming` | src/Core/Services/MqttService.cpp:648-695 | Over runs: after a failure the service waits for min(initial * 2^min(attempt, maxFastRetries), maximum) + jitter, and the first call from then on makes the next attempt, on an honest clock. |
| `CurrentSensor.Sensor.SetUp` | src/Platform/Arduino/Sensors/ACS712C30ACurrentSensor.cpp:34-75 | The state after `setup`. |
| `CurrentSensor.Sensor.Handle` | src/Platform/Arduino/Sensors/ACS712C30ACurrentSensor.cpp:77-180 | One call of the five-phase machine. |
| `CurrentSensor.Sensor.RequestZeroCalibration` | src/Platform/Arduino/Sensors/ACS712C30ACurrentSensor.cpp:197-208 | When a recalibration is accepted and what it changes. |
| `CurrentSensor.Sensor.TrySampleSupply` | src/Platform/Arduino/Sensors/ACS712C30ACurrentSensor.cpp:222-264 | The supply sample, its classification and its effect on the reading. |
| `CurrentSensor.Sensor.StartCalibration` | src/Platform/Arduino/Sensors/ACS712C30ACurrentSensor.cpp:272-284 | The state at the start of a calibration. |
| `CurrentSensor.Sensor.AbortCalibrationForSupply` | src/Platform/Arduino/Sensors/ACS712C30ACurrentSensor.cpp:286-312 | The state after a calibration cut short. |
| `CurrentSensor.Sensor.CollectCalibrationSample` | src/Platform/Arduino/Sensors/ACS712C30ACurrentSensor.cpp:322-339 | One calibration sample. |
| `CurrentSensor.Sensor.FinishCalibration` | src/Platform/Arduino/Sensors/ACS712C30ACurrentSensor.cpp:341-384 | The zero kept, or the failure, from the whole batch. |
| `CurrentSensor.Sensor.CollectMeasurementSample` | src/Platform/Arduino/Sensors/ACS712C30ACurrentSensor.cpp:386-412 | One measurement sample. |
| `CurrentSensor.Sensor.FinishMeasurement` | src/Platform/Arduino/Sensors/ACS712C30ACurrentSensor.cpp:414-440 | The filtered voltage from the whole batch. |
| `CurrentSensor.Sensor.QualifyCurrent` | src/Platform/Arduino/Sensors/ACS712C30ACurrentSensor.cpp:442-499 | The current, its status and the range and dead-band rules. |
| `CurrentSensor.SensorRuns` | src/Platform/Arduino/Sensors/ACS712C30ACurrentSensor.cpp:77-180 | On a validated configuration, over every run: measuring implies a stored zero within the permitted deviation; a reported current implies a good or unmonitored supply, status estimated or valid, and magnitude within the calibrated maximum; ZERO_FAILED is exactly the failed status; warm-up has no pending recalibration. |
| `CurrentSensor.ReadsSpaced` | src/Platform/Arduino/Sensors/ACS712C30ACurrentSensor.cpp:210-220 | Any two ADC reads with no setup between them, on either pin, are at least a sample interval apart in true time, across clock wraps. |
| `CurrentSensor.SpacedExactlyWhen` | src/Platform/Arduino/Sensors/ACS712C30ACurrentSensor.cpp:77-180 | Over a whole run, setups included, all reads are a sample interval apart if and only if the first read after each setup comes that long after the read before it. |
| `CurrentSensor.SetupDropsRateLimit` | src/Platform/Arduino/Sensors/ACS712C30ACurrentSensor.cpp:34-75 | `setup` forgets the last read: with a supply monitor the next call reads at once, whatever was read before. |
| `CurrentSensor.SetupAgainSpaced` | src/Platform/Arduino/Sensors/ACS712C30ACurrentSensor.cpp:34-75 | A monitored sensor set up again and then handled keeps all its reads spaced if and only if there was no earlier read or the interval since it is over. |
| `CurrentSensor.SetupBreaksSpacing` | src/Platform/Arduino/Sensors/ACS712C30ACurrentSensor.cpp:34-75 | The failing run: two reads one microsecond apart with a setup between them. |
| `CurrentSensor.UnmonitoredReadsAfterWarmup` | src/Platform/Arduino/Sensors/ACS712C30ACurrentSensor.cpp:77-110 | Without a supply monitor no call reads after `setup` until the warm-up is over, nor does the first call after it. |
| `CurrentSensor.CalibrationOutcome` | src/Platform/Arduino/Sensors/ACS712C30ACurrentSensor.cpp:322-384 | A calibration, the first or a later one, ends with a usable supply exactly with its last sample, and succeeds exactly if no sample saturates and the mean lies within the permitted deviation; the zero is that mean. Until then it goes on, or the supply stops it, and the stored zero stays. |
| `CurrentSensor.AbortResumes` | src/Platform/Arduino/Sensors/ACS712C30ACurrentSensor.cpp:286-312 | A recalibration cut short by the supply resumes the interrupted phase with the old zero and no reading. |
| `CurrentSensor.CurrentNeedsSupply` | src/Platform/Arduino/Sensors/ACS712C30ACurrentSensor.cpp:222-264 | Over every run of a monitored sensor a current is present only if the last reading of the supply pin, divided by the ratio, lies in the valid interval; the supply status says exactly that. |
| `CurrentSensor.SampleActs` | src/Platform/Arduino/Sensors/ACS712C30ACurrentSensor.cpp:222-264 | A reading of the supply pin outside the interval takes the current away at once, one inside takes nothing away and stops nothing. |
| `CurrentSensor.SupplyReadExactlyWhen` | src/Platform/Arduino/Sensors/ACS712C30ACurrentSensor.cpp:215-235 | The supply pin is read if and only if there is no reading since the setup or the last one is a reading interval old, the ADC has rested for a sample interval, and no request is waiting that could already be decided. |
| `CurrentSensor.MeasurementOutcome` | src/Platform/Arduino/Sensors/ACS712C30ACurrentSensor.cpp:386-499 | Over every run the call that takes the last sample of a batch reports the current of the smoothed means, counted from the calibrated zero, with its status; any other call reports nothing new but the supply. |
| `CurrentSensor.VoltageReadsBack` | src/Platform/Arduino/Sensors/ACS712C30ACurrentSensor.cpp:442-499 | The voltage of a current, zero + polarity * sensitivity * amperes, is read back as that current. |
| `CurrentSensor.SteadySmoothed` | src/Platform/Arduino/Sensors/ACS712C30ACurrentSensor.cpp:414-440 | A steady voltage is smoothed to itself. |
| `CurrentSensor.WarmupEnds` | src/Platform/Arduino/Sensors/ACS712C30ACurrentSensor.cpp:112-123 | After setup the warm-up lasts exactly its time, given the supply, and the first calibration starts. |
| `CurrentSensor.SettleEnds` | src/Platform/Arduino/Sensors/ACS712C30ACurrentSensor.cpp:125-147 | A requested recalibration settles for exactly its time, given the supply, and then samples. |
| `CurrentSensor.RequestTakenUp` | src/Platform/Arduino/Sensors/ACS712C30ACurrentSensor.cpp:86-110 | Over every run a request is heard only while measuring or after a failure; the next call takes it up, drops it, or waits for a supply reading, as the supply is. |
| `Json.Extractor.SkipWhitespace` | src/Platform/Common/Json/JsonPathExtractor.cpp:12-18 | The cursor passes blanks, newlines, carriage returns and tabs, and stops at the first other character. |
| `Json.Extractor.ParseJsonString` | src/Platform/Common/Json/JsonPathExtractor.cpp:20-56 | Reads one quoted string with its escapes, or fails on an unclosed one. |
| `Json.Extractor.MatchBraces` | src/Platform/Common/Json/JsonPathExtractor.cpp:98-127 | Finds the end of an object, skipping braces inside strings. |
| `Json.Extractor.FindKeyInObject` | src/Platform/Common/Json/JsonPathExtractor.cpp:65-162 | Finds the first member with the key and the extent of its value. |
| `Json.Extractor.FollowPath` | src/Platform/Common/Json/JsonPathExtractor.cpp:185-228 | Walks the dotted path object by object. |
| `Json.Extractor.GetString` | src/Platform/Common/Json/JsonPathExtractor.cpp:185-228 | The string at the end of a dotted path, or nothing. |
| `Json.Extractor.GetObjectRange` | src/Platform/Common/Json/JsonPathExtractor.cpp:340-377 | The extent of the object at the end of a dotted path, or nothing. |
| `Json.EscapeJson` | src/App/Managers/DeviceRegistrationManager.cpp:470-501 | The escaper writes the escaped text. |
| `Json.EscapeTable` | src/App/Managers/DeviceRegistrationManager.cpp:470-501 | Escaping works character by character: backslash, quote, newline, carriage return and tab become their escapes, any other character stays. |
| `Json.BrokenLiteralRefused` | src/Platform/Common/Json/JsonPathExtractor.cpp:20-56 | A string literal that the text cuts off, or that holds any other escape, is refused. |
| `Json.FirstMemberWins` | src/Platform/Common/Json/JsonPathExtractor.cpp:65-162 | Lookup, the reference, yields the first member with the key, and nothing exactly if there is none. |
| `Json.GetStringLaidOut` | src/Platform/Common/Json/JsonPathExtractor.cpp:185-228 | `getString` on any document, laid out with any blanks, newlines, carriage returns and tabs before and after each key, colon, value, comma and brace, is first-match lookup in the tree, for every path. |
| `Json.GetObjectLaidOut` | src/Platform/Common/Json/JsonPathExtractor.cpp:340-377 | `getObjectRange` on any such document delimits exactly the text of the object found in the tree. |
| `Json.ParseQuoted` | src/Platform/Common/Json/JsonPathExtractor.cpp:20-56 | Parsing an escaped and quoted string gives back the string, for every string. |
| `Json.FindKeyAt` | src/Platform/Common/Json/JsonPathExtractor.cpp:65-162 | In the text of an object, after white space, the search finds exactly the first member with the key, or nothing if there is none. |
| `Json.NavigateAt` | src/Platform/Common/Json/JsonPathExtractor.cpp:185-228 | Following a path in the text reaches exactly the text of the value the tree lookup gives. |
| `Json.SegmentsOfJoin` | src/Platform/Common/Json/JsonPathExtractor.cpp:185-228 | A dotted path of dot-free keys splits into those keys. |
| `Json.GetStringIsLookup` | src/Platform/Common/Json/JsonPathExtractor.cpp:185-228 | The same without white space around the document. |
| `Json.GetObjectIsLookup` | src/Platform/Common/Json/JsonPathExtractor.cpp:340-377 | The same without white space around the document. |
| `Json.LaterFoundExactlyWhen` | src/Platform/Common/Json/JsonPathExtractor.cpp:129-160 | Behind a member whose value is a number, a word or an array of those, a later member is found if and only if that value has no comma in it. |
| `Json.ArrayHidesMember` | src/Platform/Common/Json/JsonPathExtractor.cpp:129-160 | Instance: the second member of `{"a":[1,2],"b":"x"}` is not found. |
| `Json.BuildPayload` | src/App/Managers/DeviceRegistrationManager.cpp:444-468 | The payload built by string concatenation is the printed tree of its eleven members. |
| `Json.PayloadReadsBack` | src/App/Managers/DeviceRegistrationManager.cpp:444-501 | Every string field of the registration payload is read back unchanged, for all arguments. |
| `Registration.DeviceRegistrationManager.Handle` | src/App/Managers/DeviceRegistrationManager.cpp:118-183 | One undisturbed call is the stated sequence of shared accesses; the interleavings below put workers between them. |
| `Registration.DeviceRegistrationManager.CompleteRegistrationIfReady` | src/App/Managers/DeviceRegistrationManager.cpp:185-207 | Taking a verdict: what becomes of the flags, the failure count and the saved settings. |
| `Registration.DeviceRegistrationManager.StartRegistrationTask` | src/App/Managers/DeviceRegistrationManager.cpp:209-251 | Snapshot, flags and worker, or a retry when the task cannot be created. |
| `Registration.DeviceRegistrationManager.ScheduleRetry` | src/App/Managers/DeviceRegistrationManager.cpp:510-534 | The failure count and the next attempt time, in 32 bits. |
| `Registration.OneWorkerOneVerdict` | src/App/Managers/DeviceRegistrationManager.cpp:118-269 | In every interleaving at most one worker is unfinished, and the verdicts taken are those of the workers in order of creation, each for the settings in the snapshot. |
| `Registration.RegisteredExactlyWhen` | src/App/Managers/DeviceRegistrationManager.cpp:185-207 | The device is registered exactly if the cache said so or one worker that succeeded had its settings saved; no other settings are saved with the flag. |
| `Registration.RegisteredStays` | src/App/Managers/DeviceRegistrationManager.cpp:118-183 | Registration never reverts, and after it no worker is created and nothing is saved. |
| `Registration.RetryHonoured` | src/App/Managers/DeviceRegistrationManager.cpp:132-136 | Within one turn of the clock, calls are refused exactly while the delay lasts if and only if clock and next attempt time have both wrapped since the failure, or neither has. |
| `Registration.RefusedAfterWrap` | src/App/Managers/DeviceRegistrationManager.cpp:132-136 | Instance: after a failure six seconds before the clock wraps, a call a quarter of an hour after the wrap is still refused. |
| `Registration.StartsExactlyWhen` | src/App/Managers/DeviceRegistrationManager.cpp:118-183 | An undisturbed call starts a worker if and only if the device is not registered, the network is up, none is running, the wait is over, the settings name an API and no cached registration, the device has an id and the task can be created; the worker gets the settings just read. |
| `Registration.SchedulesRetryWhen` | src/App/Managers/DeviceRegistrationManager.cpp:138-183 | What a call that is due makes of the settings: registered from the cache, a retry, or a worker; only a retry moves the schedule. |
| `Registration.VerdictIsAttempt` | src/App/Managers/DeviceRegistrationManager.cpp:209-269 | What a worker reports is what its attempt returned. |
| `CommentStripper.StripComments` | tools/remove_comments.py:6-64 | The character loop writes exactly the tokens that are not comments. |
| `CommentStripper.LexLossless` | tools/remove_comments.py:6-64 | The tokens are the text, for every text. |
| `CommentStripper.StripKeepsTokens` | tools/remove_comments.py:6-64 | Reading the stripped text again finds exactly the tokens that are not comments: literals are kept byte for byte and no new comment opens. |
| `CommentStripper.StripIdempotent` | tools/remove_comments.py:6-64 | Stripping twice is stripping once. |
| `CommentStripper.ChangedExactlyWhen` | tools/remove_comments.py:67-73 | The text changes if and only if it holds a comment. |
| `CommentStripper.LineCommentEnds` | tools/remove_comments.py:36-39 | A line comment ends at its newline whatever stands before it, a backslash included. |
| `CommentStripper.BlockCommentEnds` | tools/remove_comments.py:40-44 | A block comment ends at its first star and slash. |
| `CommentStripper.LiteralKept` | tools/remove_comments.py:46-61 | A string or character literal is kept whole, with its escapes and whatever looks like a comment inside. |
| `CommentStripper.PlainKept` | tools/remove_comments.py:18-34 | Any other character is kept, and so is a slash that opens no comment. |
| `CommentStripper.OpenAtEnd` | tools/remove_comments.py:36-64 | A comment the text leaves open reaches to its end. |
| `Energy.PowerEnergyCapability.Setup` | src/Core/Capabilities/PowerEnergyCapability.cpp:19-35 | The state after set-up. |
| `Energy.PowerEnergyCapability.Handle` | src/Core/Capabilities/PowerEnergyCapability.cpp:37-52 | One call: throttled, or one evaluation at this time. |
| `Energy.PowerEnergyCapability.Evaluate` | src/Core/Capabilities/PowerEnergyCapability.cpp:113-152 | Power, energy, status and integration baseline after one reading. |
| `Energy.PowerEnergyCapability.Invalidate` | src/Core/Capabilities/PowerEnergyCapability.cpp:154-161 | An unusable reading clears power and baseline and keeps the energy. |
| `Energy.PowerEnergyCapability.ResetEnergy` | src/Core/Capabilities/PowerEnergyCapability.cpp:59-65 | The energy and the baseline are cleared, nothing else. |
| `Energy.UsableExactlyWhen` | src/Core/Capabilities/PowerEnergyCapability.cpp:67-87 | A reading is integrated if and only if its status is valid or estimated and its power is present and not negative. |
| `Energy.EnergyIsIntegral` | src/Core/Capabilities/PowerEnergyCapability.cpp:37-152 | As long as each call comes within 2^32 ms of the latest sample, the device energy is the trapezoid sum over true time since the last reset, for every run and clock phase. |
| `Energy.GapCountedExactlyWhen` | src/Core/Capabilities/PowerEnergyCapability.cpp:130-145 | One evaluation adds the trapezoid of the true gap if and only if the gap is below 2^32 ms or no power flows. |
| `Energy.NothingAcrossInvalid` | src/Core/Capabilities/PowerEnergyCapability.cpp:113-161 | An unusable reading splits the sum into those of its two sides. |
| `Energy.EnergyNeverFalls` | src/Core/Capabilities/PowerEnergyCapability.cpp:130-145 | One more reading never lowers the energy. |
| `Energy.EnergyBounds` | src/Core/Capabilities/PowerEnergyCapability.cpp:130-145 | The energy lies between least and greatest power times the valid time. |
| `Energy.SteadyPower` | src/Core/Capabilities/PowerEnergyCapability.cpp:130-145 | p watts for t milliseconds are p * t / 3600000 watt-hours, however often they are read. |
| `Energy.LinearPower` | src/Core/Capabilities/PowerEnergyCapability.cpp:130-145 | Reading a linearly changing power once more on the way does not change the energy. |
| `Persistence.OutputHardwareAdapter.ApplyHardwareCommand` | src/Platform/Arduino/Adapters/OutputHardwareAdapter.h:28-49 | Pin level and the adapter's record after an interpreted command. |
| `Persistence.OutputHardwareAdapter.ApplyText` | src/Platform/Arduino/Adapters/OutputHardwareAdapter.h:52-74 | Pin level and the adapter's record after a text command. |
| `Persistence.BinaryCapability.Setup` | src/Core/Capabilities/CapabilityHelpers.h:127-131 | Restore, confirm by read-back or fall back, and seed the baseline, in a fresh capability or one in use. |
| `Persistence.BinaryCapability.SyncFromHardware` | src/Core/Capabilities/CapabilityHelpers.h:178-190 | A confirmed change is adopted and passed to the save request. |
| `Persistence.BinaryCapability.RequestPersistIfStable` | src/Core/Capabilities/CapabilityHelpers.h:278-304 | When a save is requested and what is remembered. |
| `Persistence.BinaryCapability.Handle` | src/Core/Capabilities/LEDCapability.cpp:11-40 | The blink timer and the read-back of one cycle. |
| `Persistence.BinaryCapability.ApplyCommand` | src/Core/Capabilities/LEDCapability.cpp:42-65 | An explicit command ends blinking and confirms at once. |
| `Persistence.BinaryCapability.SetBlink` | src/Core/Capabilities/LEDCapability.cpp:69-88 | Entering and leaving blink mode. |
| `Persistence.SavesAlternate` | src/Core/Capabilities/CapabilityHelpers.h:178-304 | After a set-up, the first or a later one, whatever is commanded, blinked or forced on the pin, the save requests made since strictly alternate, starting opposite to the seeded state; outside blinking the value is the last stable one. |
| `Persistence.RequestsAdd` | src/Core/Capabilities/CapabilityHelpers.h:278-304 | Requests made before have no influence on those of a run. |
| `Persistence.BlinkSilent` | src/Core/Capabilities/LEDCapability.cpp:11-40 | However long it blinks, the timer's toggles are applied and confirmed but never requested. |
| `Persistence.LeavingBlinkSavesOnce` | src/Core/Capabilities/LEDCapability.cpp:69-88 | Leaving blink requests the state it stopped in once, and only if it differs from the last stable one. |
| `Persistence.RestoreRoundTrip` | src/Platform/Arduino/Interpreters/ValveHardwareCommandInterpreter.cpp:5-36 | At any set-up a stored state goes through interpreter and adapter and comes back as the value, without a new request; with nothing stored the adapter's own record does. |
| `Persistence.RebootRestores` | src/Core/Capabilities/CapabilityHelpers.h:214-260 | A reboot restores the last stable state if and only if something was saved since the boot or the pin followed at that boot. |
| `Persistence.DueExactlyWhen` | src/Core/Capabilities/LEDCapability.cpp:19-25 | Within one turn of the clock the timer is due if and only if its interval is over or the 32-bit clock has wrapped since the last toggle: never late, and early only across a wrap. |
| `Persistence.CommandTakesEffect` | src/Core/Capabilities/LEDCapability.cpp:42-65 | On a pin nobody holds, blinking or not, an understood command and one cycle leave pin and value at the state commanded, for a toggle at the opposite of the level read before; any other text leaves the pin alone. |
| `Persistence.DueInverts` | src/Core/Capabilities/LEDCapability.cpp:11-40 | While it blinks each cycle at which the timer is due inverts the level read and the value, and no other touches the pin; behind an interpreter the timer never moves the pin. |
| `Persistence.BlinkStartsAndEnds` | src/Core/Capabilities/LEDCapability.cpp:69-88 | Setting an interval starts a blink from that moment, setting none ends it; pin and value stay. |
| `Builder.AlignUpIsLeast` | src/App/Builders/Builders/CapabilitiesBuilder.cpp:12-15 | The bit mask rounds up to the least multiple of a power of two. |
| `Builder.AllocateSound` | src/App/Builders/Builders/CapabilitiesBuilder.cpp:100-111 | An allocation is aligned, beyond everything allocated and inside the arena; it fails only where no such place is left. |
| `Builder.AddressAligned` | src/App/Builders/Builders/CapabilitiesBuilder.cpp:100-111 | The address is aligned exactly if the arena itself is. |
| `Builder.BuilderRuns` | src/App/Builders/Builders/CapabilitiesBuilder.cpp:100-204 | After any operations live objects are aligned, inside the arena and disjoint; each object constructed is in a slot or destroyed, once; sensor pins are distinct and each current sensor id names exactly one capability. |
| `Builder.RegistrationAllOrNothing` | src/App/Builders/Builders/CapabilitiesBuilder.cpp:311-403 | Current sensor, voltage sensor, power meter and fan enter both objects, or leave arena, slots and books as they were with every constructed object destroyed once. |
| `Builder.SucceedsExactlyWhen` | src/App/Builders/Builders/CapabilitiesBuilder.cpp:311-403 | Each of these registrations succeeds if and only if its checks pass, its factory offers an adapter, the adapter can be constructed and the arena has room for both objects; a failure behind the adapter destroys that adapter only, and the roll-backs behind the slots are never reached. |
| `Builder.AcceptedIsValidated` | src/App/Builders/Builders/CapabilitiesBuilder.cpp:230-309 | A configuration the builder accepts is validated in the sense the current sensor's laws ask for. |
| `Builder.PinsExclusive` | src/App/Builders/Builders/CapabilitiesBuilder.cpp:397-403 | After any operations no ADC or monitor pin is occupied twice by the sensors accepted since the last reset, and a configuration that names a pin of one of them, or a current sensor's id, is refused and changes nothing. |
| `Builder.ChecksExactlyWhen` | src/App/Builders/Builders/CapabilitiesBuilder.cpp:230-309 | A sensor configuration passes the checks if and only if its pins are analog, not reserved and free of the sensors accepted since the last reset, its name has 1 to 63 characters and is free, and the books have room. |
| `Builder.ProfileExactlyWhen` | src/App/Builders/Builders/CapabilitiesBuilder.cpp:252-285 | The numeric checks let a current sensor profile through if and only if it is validated in the sense of the sensor and meets the few demands of the builder alone. |
| `Builder.ExternalSucceedsExactlyWhen` | src/App/Builders/Builders/CapabilitiesBuilder.cpp:406-440 | A sensor over the caller's object is registered if and only if the builder is open with a free slot, name, type and interval are right, the name is free and the arena has room; a closed or full builder constructs nothing. |
| `Builder.CapabilitiesBuilder.CheckCurrentProfile` | src/App/Builders/Builders/CapabilitiesBuilder.cpp:252-285 | The numeric checks of a current sensor configuration, one by one. |
| `Builder.LightLeavesAdapter` | src/App/Builders/Builders/CapabilitiesBuilder.cpp:805-818 | A failed light leaves its adapter registered exactly when the adapter was made and the capability found no room. |
| `Builder.CreatedInv` | src/App/Builders/Builders/CapabilitiesBuilder.h:121-147 | A capability over the caller's object is entered, or nothing is left of it. |
| `Builder.ResetDestroysAll` | src/App/Builders/Builders/CapabilitiesBuilder.cpp:47-76 | Reset destroys each remaining object once, every capability before any adapter, each in reverse order, and leaves an empty builder. |
| `Builder.DestroyedOnce` | src/App/Builders/Builders/CapabilitiesBuilder.cpp:47-76 | After any operations and a reset, every object ever constructed was destroyed exactly once. |
| `Builder.CapabilitiesBuilder.Reset` | src/App/Builders/Builders/CapabilitiesBuilder.cpp:47-76 | The two destruction loops and the cleared books. |
| `Builder.CapabilitiesBuilder.AllocateAligned` | src/App/Builders/Builders/CapabilitiesBuilder.cpp:100-111 | The bump allocation. |
| `Builder.CapabilitiesBuilder.ResolveIdentity` | src/App/Builders/Builders/CapabilitiesBuilder.cpp:113-168 | The definitive name, or a rejection. |
| `Builder.CapabilitiesBuilder.AddCurrentSensor` | src/App/Builders/Builders/CapabilitiesBuilder.cpp:311-403 | The checked registration of a current sensor. |
| `Builder.CapabilitiesBuilder.AddVoltageSensor` | src/App/Builders/Builders/CapabilitiesBuilder.cpp:493-580 | The checked registration of a voltage sensor. |
| `Builder.CapabilitiesBuilder.AddPowerEnergyCapability` | src/App/Builders/Builders/CapabilitiesBuilder.cpp:616-698 | The registration of a composite power meter. |
| `Builder.CapabilitiesBuilder.AddFan` | src/App/Builders/Builders/CapabilitiesBuilder.cpp:837-912 | The registration of a fan. |
| `Builder.CapabilitiesBuilder.ValidateCurrentSensorConfig` | src/App/Builders/Builders/CapabilitiesBuilder.cpp:230-309 | The configuration checks of a current sensor. |
| `Frustum.WaterVolume` | src/Platform/Arduino/Sensors/ArduinoUltrassonicWaterLevelSensor.cpp:144-171 | The slice loop computes the closed frustum formula for the number of slices begun below the water height, and 0 for a dry or degenerate vessel. |
| `Frustum.SumIsClosed` | src/Platform/Arduino/Sensors/ArduinoUltrassonicWaterLevelSensor.cpp:158-168 | n slices add up to (pi/3000) * n * (r0^2 + r0*rn + rn^2). |
| `Frustum.VolumeMonotone` | src/Platform/Arduino/Sensors/ArduinoUltrassonicWaterLevelSensor.cpp:144-171 | More water never reads as less. |
| `Frustum.VolumeEnds` | src/Platform/Arduino/Sensors/ArduinoUltrassonicWaterLevelSensor.cpp:144-150 | At and above the rim the reading is that of the full vessel, and dry it is 0. |
| `Frustum.FullVessel` | src/Platform/Arduino/Sensors/ArduinoUltrassonicWaterLevelSensor.cpp:144-171 | A full vessel with radii R and r and height h reads pi * h * (R^2 + R*r + r^2) / 3000 litres. |
| `Frustum.VolumeInRange` | src/Platform/Arduino/Sensors/ArduinoUltrassonicWaterLevelSensor.cpp:144-171 | Every reading lies between 0 and that of the full vessel. |
| `Frustum.WithinOneSlice` | src/Platform/Arduino/Sensors/ArduinoUltrassonicWaterLevelSensor.cpp:158-168 | The reading exceeds the closed formula at the very height by less than its last slice, exactly unless the vessel has no width. |
| `Frustum.MeasuredFromTheRim` | src/Platform/Arduino/Sensors/ArduinoUltrassonicWaterLevelSensor.cpp:163-164 | The slices start with the rim radius at height 0: their formula agrees with that of water standing in the vessel if and only if the walls are straight or the vessel is empty or full. |

## Left out

- HTTP, OTA download, TLS, Wi-Fi, BLE and the web portal: network I/O over libraries outside the repository; their answers are inputs.
- FreeRTOS, GPIO, ADC and NVS: task creation, pin levels, ADC values and the stored record are inputs or plain values.
- Weak memory: atomics are taken as sequentially consistent, in `Seqlock` and `Registration`.
- Floating point: `float` and `double` are reals, so NaN, infinity, rounding and the guards against them are not modelled.
- Logging, statistics text, display and example applications: user interface.
- Simple capabilities (PIR, clap, door, humidity and the like), averages, IR codes and ID getters: they would only add easy members.
- Topic naming and `TransportHub` forwarding: string glue.
- `Frame`: message ids (`nextId_`) are taken from the message; received frames are not read anywhere in the firmware.
- `SettingsManager`: parsing and merging a fetched update is an input; `save`, `clear` and `init` beyond their effect on the level are not modelled.
- `MqttService`: one call of `handle` sees one later clock reading; client callbacks are a flag raised by the end of a call; re-entry from a message callback, broker addresses and credentials are not modelled.
- `CurrentSensor`, `MqttService`: the fields of the source's objects are grouped into records; in `CurrentSensor` the ADC value is the millivolt reading the driver returns.
- `Json`: `getInt` and `getBool` are not modelled, and arrays that hold strings or objects are outside the laws; a read at the end of the text yields NUL.
- `Registration`: the log-once flags, the HTTP exchange inside `tryRegister`, a failed allocation of the worker's context and builds without an HTTP client are not modelled.
- `Energy`: number formatting and the change filter of `publishIfChanged` are not modelled.
- `Persistence`: the store is one record, and its identity, asynchronous writer and refusals are not modelled; a refused request is not repeated by the capability either.
- `Builder`: slots are the occupied prefix of the arrays, so the cleared pointers beyond it are not captured; the valve's interpreter, which is placed in the arena without a slot and never destroyed, the other plain actuators, and the power meter over a caller's power sensor, which resolves its name before the common path, are not modelled; a factory that offers a plain adapter without a destructor, and parts so large that the 32-bit address arithmetic wraps, are excluded.
- `Frustum`: rounding and the outlier filters of `handleSensor` are not modelled.
- SettingsManager.SettingsManager.ApplyPendingUpdate: says nothing about the outcome of saving the settings, the statistics and the updated callback, which decide neither the settings in force nor the next fetch.
- MqttService.Service.Begin: does not model the subscription at the readiness gate or its refusal; whether the gate is ready at once is an input, and a later call is `OnSettingsReady`.
- MqttService.Service.StartConnect: does not model broker address, credentials and client configuration, only whether the chosen profile names a host.
- Energy.EnergyIsIntegral: asks that each call come within 2^32 ms of the latest sample, because a longer gap cannot be told from a short one; Energy.GapCountedExactlyWhen says exactly when one gap is counted.
- Frame.ParseRaw: is about a reader written from the layout, because the firmware has none.
