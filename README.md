# PCAN bus adapter of gocan, modelled in Dafny

gocan is a Go library that gives a single `Bus` interface (send, receive,
drain, status, channel condition) to CAN bus hardware. This project models
its adapter for PEAK-System PCAN devices and proves properties of the model.
The adapter covers:

- building a bus from a `Config` (`NewPCANBus`, `Initialize`);
- converting between gocan `Message` values and the driver's classic and FD
  frames (`Send`, `recvSingleMessage`);
- the DLC tables (`getLengthFromDLC`, `getDLCFromLength`);
- the receive loop with its timeout, event wait and polling (`Recv`), and
  draining the receive queue (`ReadBuffer`);
- reading the channel condition (`ChannelCondition`, `ChannelCondition2`)
  and probing the attached USB channels (`AttachedChannels`,
  `AttachedChannelsNames`, `AttachedChannelsCount`);
- reading the channel status and shutting down (`Status`, `StatusIsOkay`,
  `Shutdown`, `ShutdownAllHandles`);
- starting a trace (`TraceStart`);
- turning driver status codes into errors (`getFormattedError`, `evalRetval`);
- the lookup tables between configuration names and driver codes.

Every call into the PCAN driver library (`Initialize`, `Read`, `ReadFD`,
`Write`, `WriteFD`, `GetParameter`, `SetParameter`, `GetValue`, `SetValue`,
`GetStatus`, `Uninitialize`, `GetErrorText`) is a function-typed parameter, called an oracle: a driver
that answers each call deterministically. Methods return the sequence of
configuration calls they made, so contracts can state both the result and
the driver traffic. Go's fixed-width integers are newtypes (`GoInts`).
Wrap-around and truncation are written out where the code relies on them:
the `int64` end time of `Recv`, `uint32(timeout)`, and `uint8(len(data))`.

Files, one module each:

- `wrappers.dfy`: `Option`.
- `go_ints.dfy`: Go integer widths and conversions.
- `gocan.dfy`: `Message`, `Config` and the enumerations.
- `pcan_types.dfy`: driver constants, frames and timestamps.
- `dlc.dfy`: DLC tables.
- `codec.dfy`: frame decoding and encoding.
- `driver_errors.dfy`: error values, `getFormattedError` and `evalRetval`.
- `receive.dfy`: `recvSingleMessage`, `Recv` and `ReadBuffer`.
- `lookup.dfy`: the baud-rate and channel tables.
- `trace.dfy`: the path buffer of `TraceStart`.
- `bus.dfy`: the `PcanBus` class, `NewPCANBus`, the attached-channel queries, `ShutdownAllHandles` and `TraceStart`.

Where the code and the system's written description differ, the model
follows the code:

- **Frame kinds.** The description treats the native message type as a set
  of flag bits. The code compares the whole type byte against single values.
  - A frame typed `FD|BRS|EXTENDED` decodes as a data frame that is neither
    extended nor FD (`Codec.DecodeFlags`).
  - No value ever decodes as `OverloadFrame` (`Codec.ClassifyByExactValue`).
- **Channel condition.** The last test of the condition reading masks with
  `PCAN_CHANNEL_UNAVAILABLE`, which is 0, so it always holds. Neither
  condition method can return `Invalid` (`Bus.ConditionOfBits`).
- **Error text.** A driver error text without a terminating NUL becomes the
  empty text, because the scan keeps its length 0 (`DriverErrors.TextShape`).

## Model

| member | source | states |
|---|---|---|
| GoInts.WrapInt64 | interfaces/pcan/pcanBus.go:321 | the result is the 64-bit two's-complement value congruent to the exact sum, and equals it when it fits |
| GoInts.TruncU32 | interfaces/pcan/pcanBus.go:319 | `uint32(x)` is congruent to x modulo 2^32 and equals x when x fits |
| GoInts.TruncU8 | interfaces/pcan/pcanBus.go:430 | `uint8(x)` is congruent to x modulo 256 and equals x when x fits |
| GoCan.Outgoing | gocan.go:33-42 | a sender's message carries its ID, data and extended flag; every receive-only field has its zero value |
| GoCan.EnumerationValues | gocan.go:9-30 | the iota values of MessageType, BusState and ChannelCondition, so the zero MessageType is DataFrame |
| PcanTypes.TotalMicros | interfaces/pcan/pcanTypes.go:349-355 | the documented total-microseconds formula stays below 2^64; with micros below 1000, the total in whole milliseconds is millis plus 2^32 times the overflow count |
| PcanTypes.MessageTypeBits | interfaces/pcan/pcanTypes.go:264-278 | STANDARD is 0 and the other eight message types are the distinct single bits 0x01..0x80; the two mode constants equal their message types |
| PcanTypes.ChannelConditionValues | interfaces/pcan/pcanTypes.go:227-230 | UNAVAILABLE is 0, PCANVIEW is 3, and AVAILABLE and OCCUPIED share no bit |
| PcanTypes.HandleErrorMask | interfaces/pcan/pcanTypes.go:136-139 | the handle-error mask equals ILLCLIENT, which contains ILLHW and ILLNET |
| PcanTypes.BusErrorMask | interfaces/pcan/pcanTypes.go:123-129 | the bus-error mask is 0x4001C, BUSWARNING is BUSHEAVY, and the mask excludes QRCVEMPTY |
| Dlc.LengthFromDLC | interfaces/pcan/pcanBus.go:757-781 | codes up to 14 map to their table entry and every code from 15 up maps to 64; the length is at most 64 |
| Dlc.TableIncreasing | interfaces/pcan/pcanBus.go:194 | the table has 16 strictly increasing entries and entry i is i for i up to 8 |
| Dlc.FirstCodeAtLeast | interfaces/pcan/pcanBus.go:792-796 | the loop's answer is the first table index at or after `from` whose entry reaches the target, else 15 |
| Dlc.DLCFromLength | interfaces/pcan/pcanBus.go:786-798 | the code is never above 15 |
| Dlc.GetDLCFromLength | interfaces/pcan/pcanBus.go:786-798 | the loop over the table returns the code DLCFromLength defines |
| Dlc.DLCRoundTrip | interfaces/pcan/pcanBus.go:757-798 | every code 0..15 is the code of its own length |
| Dlc.DLCCovers | interfaces/pcan/pcanBus.go:786-798 | up to 64 bytes, the chosen code holds at least the payload |
| Dlc.DLCMinimal | interfaces/pcan/pcanBus.go:792-796 | above 8 bytes, no smaller code holds the payload |
| Dlc.DLCSaturates | interfaces/pcan/pcanBus.go:797 | lengths 65..255 get code 15 |
| Dlc.DLCWrapsModulo256 | interfaces/pcan/pcanBus.go:793 | the comparison with `uint8(length)` makes the code depend only on the length modulo 256; a length whose low byte is at most 8 gets that byte as its code |
| Dlc.DLCMonotonic | interfaces/pcan/pcanBus.go:786-798 | up to 255 bytes, longer payloads never get smaller codes |
| Dlc.LengthMonotonic | interfaces/pcan/pcanBus.go:757-781 | larger codes never stand for fewer bytes |
| Codec.RxTimeStamp | interfaces/pcan/pcanBus.go:376-388 | a classic frame's timestamp is its total microseconds divided by 10^6; an FD frame's timestamp is the FD microsecond count divided by 10^6 |
| Codec.Decode | interfaces/pcan/pcanBus.go:374-414 | the data is the frame's first LengthFromDLC(dlc) bytes; the DLC is kept and the channel is the bus's channel |
| Codec.ClassifyByExactValue | interfaces/pcan/pcanBus.go:391-402 | each frame kind, in both directions, by exact type value: RTR gives Remote; ERRFRAME or STATUS give Error; BRS and ESI give their FD kinds; anything else gives Data; never Overload |
| Codec.DecodeFlags | interfaces/pcan/pcanBus.go:412-413 | extended exactly for the type value EXTENDED; FD exactly for FD, BRS or ESI alone; a combined FD/BRS/EXTENDED type is neither |
| Codec.DecodeClassic | interfaces/pcan/pcanBus.go:379-414 | a classic frame keeps its ID and DLC and its first DLC bytes, with the timestamp in seconds |
| Codec.TimeStampMonotonic | interfaces/pcan/pcanBus.go:387 | later driver timestamps never decode to earlier message timestamps |
| Codec.Padded | interfaces/pcan/pcanBus.go:447 | Go's copy into a zeroed array: n bytes, the data first, zeros after |
| Codec.EncodeClassic | interfaces/pcan/pcanBus.go:438-447 | the frame has the message ID, is EXTENDED exactly when the message is extended and STANDARD otherwise, has the DLC of the data length, and holds the data zero-padded to 8 bytes |
| Codec.EncodeClassicUsesSenderFields | interfaces/pcan/pcanBus.go:438-447 | only ID, data and extended flag affect the classic frame |
| Codec.ClassicEchoRoundTrip | interfaces/pcan/pcanBus.go:379-447 | a message of up to 8 bytes, encoded and read back as a classic frame, has its ID, data and extended flag |
| Codec.OversizedClassicPayload | interfaces/pcan/pcanBus.go:445-447 | a 9..64-byte payload on a classic bus gets a DLC above 8 and only its first 8 bytes are copied |
| Codec.EncodeFD | interfaces/pcan/pcanBus.go:427-432 | the FD frame has the message ID and type, DLC `uint8(len(data))`, and the zero-padded data |
| Codec.FDDecodeDropsId | interfaces/pcan/pcanBus.go:406 | a decoded FD frame always has ID 0, so an FD frame with ID 0x123 loses its ID |
| Codec.FDEncodeRawLength | interfaces/pcan/pcanBus.go:430 | a 12-byte FD payload is sent with DLC 12, a code that stands for 24 bytes |
| Codec.DecodeFDIntended | interfaces/pcan/pcanBus.go:370-414 | FD decoding with the FD frame's own ID: its ID, its DLC and its first LengthFromDLC(dlc) bytes |
| Codec.EncodeFDIntended | interfaces/pcan/pcanBus.go:427-432 | FD encoding with the DLC code of the payload length and the zero-padded data |
| Codec.FDRoundTripIntended | interfaces/pcan/pcanBus.go:370-432 | with the corrected FD codec, a message of up to 64 bytes reads back with its ID and its data, zero-padded to the DLC length |
| DriverErrors.FirstNul | interfaces/pcan/pcanBus.go:731-737 | the index of the first NUL at or after `from`, or the buffer length |
| DriverErrors.TextStopsAtNul | interfaces/pcan/pcanBus.go:731-738 | the error text is the buffer before its first NUL |
| DriverErrors.TextShape | interfaces/pcan/pcanBus.go:731-738 | a buffer without NUL gives the empty text; the text is always a NUL-free prefix of the buffer |
| DriverErrors.GetFormattedError | interfaces/pcan/pcanBus.go:716-739 | no error for OK; else the text call's own error; else a fixed error when the text call fails; else the text before the NUL |
| DriverErrors.EvalRetval | interfaces/pcan/pcanBus.go:744-752 | the call's error, else the formatted error of its status |
| DriverErrors.EvalNilIff | interfaces/pcan/pcanBus.go:744-752 | no error exactly when the call reported none and the status is OK; the call's own error always wins |
| Receive.RecvSetup | interfaces/pcan/pcanBus.go:315-321 | a negative timeout becomes INFINITE; the wait is `uint32(timeout)` and the end time is the int64 start plus timeout |
| Receive.RecvIteration | interfaces/pcan/pcanBus.go:325-346 | one loop iteration delivers, returns, or waits/sleeps and continues, as StepOf defines |
| Receive.Recv | interfaces/pcan/pcanBus.go:309-350 | the loop's return value and blocking actions are those of RecvFrom over the driver's successive answers |
| Receive.KeepsWaitingIff | interfaces/pcan/pcanBus.go:324-346 | an iteration keeps looping exactly when the queue is empty and the event is signalled (events) or the deadline has not passed (polling), or the read failed with another status |
| Receive.RecvReturnsFirstMessage | interfaces/pcan/pcanBus.go:324-349 | Recv returns the first delivered message, decoded, with no error |
| Receive.RecvPollTimeout | interfaces/pcan/pcanBus.go:339-343 | when polling, an empty queue after the deadline returns no message with the read's error |
| Receive.RecvWaitFails | interfaces/pcan/pcanBus.go:327-338 | when the event wait returns anything but WAIT_OBJECT_0, Recv returns no message with the wait's error |
| Receive.RecvWaitsWithFullTimeout | interfaces/pcan/pcanBus.go:328 | every event wait uses the whole timeout and every pause is 250 µs |
| Receive.RecvPollsUntilDeadline | interfaces/pcan/pcanBus.go:339-345 | polling an empty queue sleeps once per iteration before the deadline and returns after it |
| Receive.ReadBuffer | interfaces/pcan/pcanBus.go:474-494 | the drain loop's result is DrainFrom over the successive reads |
| Receive.FirstEmpty | interfaces/pcan/pcanBus.go:482-486 | the index of the first read that reports an empty queue |
| Receive.MessagesOf | interfaces/pcan/pcanBus.go:487-488 | a read adds one message exactly when it delivers |
| Receive.DrainResult | interfaces/pcan/pcanBus.go:474-494 | the drain loop stops at the first empty-queue report with the delivered messages and that read's error, or at the limit |
| Receive.ReadBufferBounded | interfaces/pcan/pcanBus.go:489-491 | a non-zero limit is never exceeded; the messages are a prefix of those delivered, in read order |
| Receive.ReadBufferUnlimited | interfaces/pcan/pcanBus.go:482-488 | limit 0 returns every message delivered before the first empty-queue report, with that report's error |
| Lookup.RatesRoundTrip | interfaces/pcan/pcanBus.go:27-58 | every configured bit rate has a code that maps back to it |
| Lookup.CodesRoundTrip | interfaces/pcan/pcanBus.go:27-58 | every baud code has a rate that maps back to it |
| Lookup.HandleRoundTrip | interfaces/pcan/pcanBus.go:62-191 | every handle of the channel table has a name that maps back to it |
| Lookup.NameRoundTrip | interfaces/pcan/pcanBus.go:62-191 | every channel name has a handle whose name it is |
| TracePath.RuneWidth | interfaces/pcan/pcanBus.go:625 | the width of the UTF-8 sequence starting at a byte: 1 for ASCII, at most 4, continuation bytes after the first |
| TracePath.CopyRuneStarts | interfaces/pcan/pcanBus.go:624-627 | the copy loop keeps the buffer's length |
| TracePath.PathBufferAsWritten | interfaces/pcan/pcanBus.go:624-627 | the buffer handed to the driver is 256 bytes |
| TracePath.CopyKeepsTail | interfaces/pcan/pcanBus.go:624-627 | the copy loop never writes past the path |
| TracePath.CopyAscii | interfaces/pcan/pcanBus.go:624-627 | on an ASCII path the loop copies every byte |
| TracePath.PathBufferTail | interfaces/pcan/pcanBus.go:624-627 | the buffer is zero past the path |
| TracePath.AsciiPathCopied | interfaces/pcan/pcanBus.go:624-627 | for an ASCII path the buffer as written equals the intended buffer |
| TracePath.MultiByteCharacterTruncated | interfaces/pcan/pcanBus.go:624-627 | the path "é" (bytes C3 A9) is handed over as C3 00, so the driver reads the path C3 |
| TracePath.PathBuffer | interfaces/pcan/pcanBus.go:624-627 | the intended buffer: the whole path, then zeros, 256 bytes |
| TracePath.PathBufferRoundTrip | interfaces/pcan/pcanBus.go:624-628 | the intended buffer gives the driver back any NUL-free path shorter than 256 bytes |
| TracePath.FullPathUnterminated | interfaces/pcan/pcanBus.go:619-627 | the length check admits a 256-byte path, which fills the whole buffer with no NUL, so it does not read back as the path |
| Bus.ValidationOrder | interfaces/pcan/pcanBus.go:225-234 | FD is refused first, then an unknown channel, then an unknown baud rate; a configuration is accepted exactly when it is classic with a known channel and rate |
| Bus.AcceptedChannelMatches | interfaces/pcan/pcanBus.go:229-231 | an accepted handle is the channel name's handle and maps back to the name |
| Bus.AcceptedRateMatches | interfaces/pcan/pcanBus.go:232-234 | an accepted baud code stands for the configured bit rate |
| Bus.ConfigWritesFollowConfig | interfaces/pcan/pcanBus.go:250-259 | five parameter writes, in order; listen-only is on exactly for PASSIVE and each frame kind is allowed exactly when configured |
| Bus.EventSetupInvariant | interfaces/pcan/pcanBus.go:281-302 | events are only switched off, never on; they stay on exactly when a usable event was created and registered; an event is kept exactly when events stay on |
| Bus.ConditionOfBits | interfaces/pcan/pcanBus.go:578-586 | Available exactly when bit 0 is set; Occupied exactly when only bit 1 of the two is set; Unavailable exactly when neither is; never Invalid |
| Bus.CopyIntoZeroed | interfaces/pcan/pcanBus.go:447 | the copy gives the padded data |
| Bus.BuildClassicFrame | interfaces/pcan/pcanBus.go:438-447 | builds the frame EncodeClassic describes |
| Bus.BuildFDFrame | interfaces/pcan/pcanBus.go:427-432 | builds the frame EncodeFD describes |
| Bus.PcanBus.constructor | interfaces/pcan/pcanBus.go:236-244 | the bus has the configuration, handle and baud code, ISA type, I/O port 0x2A0, interrupt 11 and no event |
| Bus.PcanBus.Initialize | interfaces/pcan/pcanBus.go:266-305 | FD is refused without a call; a failed init returns its error unchanged; otherwise the event set-up SetUpEvent describes, and the other fields are kept |
| Bus.PcanBus.Send | interfaces/pcan/pcanBus.go:420-453 | writes EncodeClassic (classic bus) or EncodeFD (FD bus) and returns the evaluated error of the write |
| Bus.PcanBus.ChannelCondition | interfaces/pcan/pcanBus.go:573-589 | the condition read with GetValue, mapped by ConditionOf, with the call's evaluated error |
| Bus.PcanBus.ChannelCondition2 | interfaces/pcan/pcanBus.go:554-570 | the condition read with GetParameter, mapped by ConditionOf, with the call's evaluated error |
| Bus.PcanBus.Status | interfaces/pcan/pcanBus.go:461-465 | the channel status as a 32-bit code, with the evaluated error of the status call |
| Bus.PcanBus.StatusIsOkay | interfaces/pcan/pcanBus.go:455-459 | true exactly when the status is OK; the call's own error is returned unevaluated |
| Bus.PcanBus.Shutdown | interfaces/pcan/pcanBus.go:533-541 | the evaluated error of uninitializing the channel; the receive event is closed exactly when there is one |
| Bus.PcanBus.TraceStart | interfaces/pcan/pcanBus.go:594-636 | the error and calls are those TraceStartResult gives: the size check, the configuration calls, the path check, then the location and status calls, stopping at the first failure |
| Bus.PcanBus.ConfigureTrace | interfaces/pcan/pcanBus.go:600-616 | the configuration word, then the size when one is given, stopping at the first failure |
| Bus.PcanBus.StartTraceAt | interfaces/pcan/pcanBus.go:623-635 | the path buffer, then switching the trace on, stopping at the first failure |
| Bus.CopyPath | interfaces/pcan/pcanBus.go:624-627 | the loop builds PathBufferAsWritten |
| Bus.NewPCANBus | interfaces/pcan/pcanBus.go:209-263 | a failed library load, a rejected configuration or a failed init return no bus and make no call; otherwise a fresh bus with the validated handle and baud code; the event set-up is followed by the five parameter writes, whose results are ignored |
| Bus.AttachedChannels | interfaces/pcan/pcanBus.go:651-672 | the probe loop's result is ProbeFrom over USB channels 1 to 16 |
| Bus.FirstFailedProbe | interfaces/pcan/pcanBus.go:659-663 | the first probe that did not succeed |
| Bus.AttachedOf | interfaces/pcan/pcanBus.go:664-668 | exactly the handles whose condition is AVAILABLE, OCCUPIED or PCANVIEW, in probe order |
| Bus.ProbeResult | interfaces/pcan/pcanBus.go:659-671 | when all probes succeed, the attached handles follow those already found; otherwise no list, with the first failed probe's error |
| Bus.AttachedChannelsResult | interfaces/pcan/pcanBus.go:651-672 | a list is returned exactly when every USB probe succeeds, and it is the attached channels with no error |
| Bus.AttachedIsStricterThanCondition | interfaces/pcan/pcanBus.go:664-666 | a listed channel never reads as Unavailable, but condition 5 reads as Available and is not listed |
| Bus.AttachedChannelsNames | interfaces/pcan/pcanBus.go:689-702 | a probe error is passed on with no list; otherwise the list has one name per channel AttachedChannels finds, the channel table's name at the same position |
| Bus.ChannelNames | interfaces/pcan/pcanBus.go:696-699 | the loop gives, at each position, the table's name of the handle there |
| Bus.UsbChannelNamed | interfaces/pcan/pcanBus.go:652-655 | every probed USB channel has a name in the channel table, and that name maps back to the channel |
| Bus.AttachedNamesSelectChannels | interfaces/pcan/pcanBus.go:689-702 | when every probe succeeds, each listed name is a configuration name selecting the attached channel at its position |
| Bus.AttachedChannelsCount | interfaces/pcan/pcanBus.go:704-712 | the driver's attached-channel count, with the call's own error or else the formatted error of its status |
| Bus.ShutdownAllHandles | interfaces/pcan/pcanBus.go:644-648 | the evaluated error of uninitializing the undefined-bus handle |
| Bus.StatusChecksCompared | interfaces/pcan/pcanBus.go:455-465 | StatusIsOkay's clean case (OK, no call error) is exactly Status's no-error case; a non-OK status with no call error is an error only for Status |
| Bus.TraceConfigWordValue | interfaces/pcan/pcanBus.go:601-606 | the configuration word is 0x86 for one file and 0x87 for segmented files |
| Bus.TraceStartRefusesLargeFiles | interfaces/pcan/pcanBus.go:596-598 | more than 100 MB is refused before any driver call |
| Bus.TraceStartSucceedsIff | interfaces/pcan/pcanBus.go:594-636 | success exactly when the size is at most 100 MB, the path fits 256 bytes and every planned call succeeds; the calls made are a prefix of the plan; on success, configuration comes first and switching on comes last |

## Left out

- The PCAN driver library (`pcanBasic.go` and the Windows DLL it loads) is not part of this model. Its calls are oracle parameters.
- `LoadAPI` is not part of this model. `NewPCANBus` takes whether the library is loaded and the load's error as inputs.
- The wall clock and `time.Sleep` are left out. Each `Recv` iteration receives the current time as input, and sleeps appear as `Sleep` effects.
- `WaitForSingleObject` is left out. Its result is an input of each iteration, and the wait appears as a `Wait` effect.
- The kernel32 event creation in `Initialize` is left out. Its outcome is the `created` input.
- `CloseHandle` on a rejected event is left out. It has no effect on the adapter's state.
- The process-wide `hasEvents` flag is passed in and returned, rather than being a global.
- Receive.Recv: models a run over a finite sequence of driver answers. `Pending` stands for a call still waiting when the answers run out, so the unbounded wait is not modelled.
- Receive.ReadBuffer: `Pending` has the same meaning as in `Recv`.
- Receive.Recv: requires every frame to fit its data array (`Decodable`). A classic frame with a DLC above 8 makes the Go slice expression panic, and that panic is not modelled.
- Receive.ReadBuffer: has the same `Decodable` requirement and leaves out the same panic.
- Codec.Decode: has the same `InBounds` requirement and leaves out the same panic.
- The FD initialisation path (`InitializeFD`) is left out, because the code refuses FD buses before reaching it.
- The thin wrappers `GetParameter`, `SetParameter`, `GetValue`, `SetValue` (which calls the driver's `SetParameter`), `SetFilter`, `Reset`, `SetLEDState` and `TraceStop` are left out. Each forwards one driver call and evaluates its status with `EvalRetval`, which is modelled, as are the same calls inside `Initialize`, `ChannelCondition` and `TraceStart`.
- `State` is left out. It makes no driver call and returns the configured bus state, which is the `config` field of `PcanBus`.
- Bus.PcanBus.Shutdown: `CloseHandle` on the receive event appears only as the returned `closedEvent` flag, and its result, which the code ignores, is not modelled.
- `AttachedChannels_Extended` is left out. It reads the driver's array of channel-information records through an unsafe pointer, and the code itself marks it as not working.
- Lookup: the channel tables are written as one table per device family, joined by map union. The entries are unchanged.
- The other adapters (`bus.go`, `pcan.go`), the factory and the examples are not part of this model.
- Strings are byte sequences. Only `TraceStart`'s path needs UTF-8 structure, and `TracePath.RuneWidth` models how Go's `range` steps through it.

## Findings

| source | as written | input that shows it | evidently intended | confidence | as-written member | corrected member |
|---|---|---|---|---|---|---|
| interfaces/pcan/pcanBus.go:406 | a received frame's ID is read from the classic frame variable, which the FD path never fills | an FD bus reading a frame with ID 0x123 returns a message with ID 0 | the FD path uses the FD frame's ID | not executed | Codec.FDDecodeDropsId | Codec.FDRoundTripIntended |
| interfaces/pcan/pcanBus.go:430 | the FD frame's DLC is the payload length itself | a 12-byte payload is sent with DLC 12, which stands for 24 bytes | the DLC is the code of the length (9 for 12 bytes) | not executed | Codec.FDEncodeRawLength | Codec.EncodeFDIntended |
| interfaces/pcan/pcanBus.go:624-627 | `for i := range filePath` steps over UTF-8 characters, so only the first byte of each character is copied | the path "é" (C3 A9) reaches the driver as C3 00, which reads as the one-byte path C3 | every byte of the path is copied | not executed | TracePath.MultiByteCharacterTruncated | TracePath.PathBufferRoundTrip |

The bus methods (`Send`, the receive path and `TraceStart`) follow the code as written. The corrected definitions stand beside them with their own proofs.

The length check at interfaces/pcan/pcanBus.go:619 admits a path of exactly 256 bytes, which then fills the buffer with no terminating NUL (`TracePath.FullPathUnterminated`). Whether the driver accepts such a buffer depends on the driver, which is not part of this model, so it is not listed as a finding.
