# A verified model of the device-talking core

The repository binds USB, HID and serial devices on macOS without C, and speaks the
VITURE glasses' protocols over them. This project models the seven parts whose
behaviour spans many calls, and proves what they promise over every input, every run
or every reachable state:

* **VITURE framing** (`Bytes`, `Gf2`, `Crc`, `Order`, `Viture`, `Scanner`): the shift-register
  checksum is the remainder of the division by x^16+x^12+x^5+1 (section 2 of ITU-T
  V.41), from which follow affinity, the detection of bursts and of odd damage, exactly
  which damage goes unseen, and the order of x, which says how far apart two flipped
  bits must be to hide; packets carry their arguments and are found in any
  surroundings by the probe's scanner.
* **USB descriptors** (`Descriptor`, `DescriptorLaws`): the length-prefixed splitter
  and the parser that attaches endpoints to the latest interface, with their inverse
  (sections 9.5, 9.6.3, 9.6.5 and 9.6.6 of the USB 2.0 specification, section 9.6.4 of
  the USB 3.0 specification).
* **Termios and Configure** (`FlagWords`, `TermiosModel`, `SerialPort`, `SerialDrivers`,
  `SerialText`): the bit transformations, how they are read back, the fallback
  conversation with an arbitrary driver, which drivers leave the port as asked, and the
  rendering of a configuration.
* **Drain** (`Drain`): the bounded read loop against any reader and any clock.
* **HID streaming** (`HidStream`, `HidSafety`, `HidResults`, `HidDiscipline`, `HidRouting`,
  `HidCallbacks`, `HidOverlap`, `HidEnding`, `HidSharing`, `HidPump`, `HidDevice`): many calls
  of Stream interleaving, one foreign call at a time, over a shared registry, a shared callback and
  C memory. A callback looks its sender up under a lock, lets go of it, and only then
  calls the handler; other threads may act in between.
* **Native handles and pipe reads** (`IOReturn`, `UsbRegistry`, `UsbHandles`, `UsbRuns`,
  `UsbAnswers`, `UsbSeizing`, `InterruptRead`, `PipeRead`): token lifetimes and reference
  balance, what each call answers, and the caller, goroutine and kernel of an interrupt
  read, one step at a time in any order.
* **Beast reports** (`Beast`): events, their text, and commands.

`Wrappers` and `Octets` hold the types the parts share.

Code that updates state is modelled by methods over arrays, classes and fields, each
proved against a function or predicate on values; the properties are lemmas about those. Protocols
with interleaving are state machines: `Next` or `Step` is one step, `Execute` a whole
run, and a lemma about `Reached(run, st)` speaks of every run. Whatever lies behind a
seam (IOKit, malloc, the kernel, a driver, a clock) answers as an arbitrary script, an
arbitrary function, or an arbitrary choice of steps.

`dafny verify dfyconfig.toml` checks everything.

## What the proofs show about the code

* `Configure` is documented to compare what it reads back with what it asked for,
  because a driver may apply only some of it (serial/serial.go:214-219). The code does
  not compare: it stores the read-back and succeeds. `SerialDrivers.AsAskedIff` says what
  success is worth against a driver that accepts, refuses and rounds rates as it likes,
  differently in the two calls that carry one, and leaves alone any bits and control
  characters it likes. It takes for granted that such a driver decides by the rate in
  force and the one asked for, stores nothing of a termios it refuses, and ignores the
  same bits each time. Then success is exactly that the rate gets through; all but the
  ignored bits and the rate is as asked; and the configuration read back is the one
  requested exactly when the rate reached is and no ignored bit differs from what was
  asked where that is read. So the last speed call does what its comment hopes
  (serial/serial.go:246-249): a driver that rounds in the termios call and takes the rate
  literally in the other ends at the rate requested (`SerialDrivers.LiteralDriverReached`).
  `SerialDrivers.SilentRefusalSucceeds` and `SerialDrivers.DeafDriverAsAskedIff` are the
  drivers that never refuse. The model follows the code.
* The scanner reports the shortest valid slice at an offset, so it may report a genuine
  packet short. `Scanner.ReportedLength` says exactly when, and
  `Scanner.SomePacketIsReportedShort` gives the payload 00 4E BE.
* Two flipped bits that follow each other across offset 4 of a packet, the last of the
  checksum field and the first of the body, go unseen at the lengths of
  `Viture.AcrossUnseenIff`, 4098 bytes being one (`Viture.AcrossGoesUnseen`).
* The length field wraps: it equals the bytes from offset 8 on exactly up to 65524
  bytes of payload (`Viture.PacketLength`).
* `attach` reports success without an interface exactly when every version is turned
  down and the last one answers success with a null pointer
  (`UsbRegistry.SuccessWithoutInterfaceIff`). An open, of a device or an interface, and
  the reading of a device's configuration descriptor then call through null;
  `UsbRuns.EndsIff` says exactly when any operation does.
* Streams may share a device. What IOKit writes into stays allocated
  (`HidResults.AttachedBufferIsLive`), but handlers are promised more: to be called on the
  thread of their own call, with bytes that are valid while they run (hid/hid.go:372-377).
  That holds for a call exactly when, at its start, none of its devices is in a call that
  has not begun its teardown, provided no later start that is accepted lists one of them
  before the call has entered its references; otherwise its handler may be called after it has returned, with
  bytes of a freed block (`HidOverlap.StartStaysSoundIff`, with the proviso exact by
  `HidOverlap.LaterStartStaysSoundIff`). `HidSharing.ReturnedCallIsCalledBack` is such a
  run. What a callback finds at its look-up is always a call still listening
  (`HidResults.LookUpFindsListener`).
* Nor do reports of shared devices always arrive. Step by step they stay routed exactly
  when entering and erasing references touch no attached device and each attach finds its
  own slot entered (`HidRouting.NextKeepsRoutedIff`). For one call of Stream, in any
  reachable state and whatever the other calls share among themselves: if no later start
  that is accepted lists a device the call awaits reports from, its callbacks stay routed
  and its reports arrive exactly when its own devices are distinct and none is in a
  stream still active (`HidRouting.StartStaysRoutedIff`), which the caller can check
  beforehand. That proviso is exact too (`HidRouting.LaterStartStaysRoutedIff`).
  `HidSharing.SharedDeviceIsTaken` is a run in which a second stream takes the reports of
  one still pumping.
* An interrupt read answers with a timeout when nothing arrived (usb/iface_darwin.go:399-401),
  but also when ReadPipe succeeded and the timer's branch was taken all the same: its
  bytes are then thrown away. `InterruptRead.ReturnedCode` says which code comes back in
  any run, and `InterruptRead.SuccessIsThrownAway` is such a run for every buffer.
* The decimal formatter prints a bare sign for the smallest 64-bit integer, and for it
  alone (`SerialText.PrintedReadsBackIff`).
* `Drain` need not return: a reader that gives nothing, without error, on a clock that
  stands still never gives it a reason (`Drain.StalledNeverEnds`).

## Model

| member | source | states |
|---|---|---|
| Gf2.RemainderExistsOnce | viture/viture.go:86-99 | Every bit string has one and only one remainder by the generator, defined by quotient and remainder: the reference the checksum is held against |
| Crc.CRC16 | viture/viture.go:86-99 | The nested loops compute the specification function of the register |
| Crc.ChecksumIsRemainder | viture/viture.go:86-99 | A word is the checksum of b if and only if its bits are the remainder of 0xFFFF·x^(8·len(b)) + b·x^16 by x^16+x^12+x^5+1 |
| Crc.CheckValue | viture/viture.go:79-84 | The nine digits 1 to 9 have the check value 0x29B1 that names this variant |
| Crc.RunIsRem | viture/viture.go:86-99 | The same from any register value, which is what composing messages needs |
| Crc.RunAppend | viture/viture.go:86-99 | Running over a concatenation is running over its parts in turn |
| Crc.RunLinear | viture/viture.go:86-99 | The register is linear in its start and its message together |
| Crc.ChecksumAffine | viture/viture.go:86-99 | CRC(a⊕b⊕c) is CRC(a)⊕CRC(b)⊕CRC(c) for messages of one length |
| Crc.ChecksumOfDamaged | viture/viture.go:86-99 | Damage changes the checksum by the run of the damage alone from zero |
| Crc.BurstChangesChecksum | viture/viture.go:86-99 | Damage confined to 16 consecutive bits, anywhere in a message of any length, changes the checksum |
| Order.MulSteps | viture/viture.go:89-96 | Shifting a register n times multiplies it, modulo the generator, by what n shifts make of one |
| Order.ReturnsIff | viture/viture.go:89-96 | Exactly the multiples of 32767 shifts bring the register back: the order of x modulo the generator |
| Order.TwoFlipsMultipleIff | viture/viture.go:86-99 | A polynomial of two coefficients is a multiple of the generator exactly when they are a multiple of 32767 places apart |
| Order.TwoFlipsUnseenIff | viture/viture.go:86-99 | Two flips leave a checksum alone exactly when they are a multiple of 32767 places apart, in messages of any length |
| Crc.RunParity | viture/viture.go:89-96 | The register keeps the parity of start and message |
| Viture.Packet | viture/viture.go:118-128 | The byte array built in place is the packet its fields describe |
| Viture.EnableIMU | viture/viture.go:133-139 | The IMU switch is the IMU command with a payload of one or zero |
| Viture.PacketInBytes | viture/viture.go:101-128 | Every byte of a packet, offset by offset, in numbers |
| Viture.SwitchInBytes | viture/viture.go:55-60 | The IMU switch is 20 bytes with length 12, command 0x15 and a payload of one or zero |
| Viture.PacketRecovers | viture/viture.go:118-128 | Command, counter and payload are read back from fixed places of the bytes; the end marker and the reserved zeros are in theirs |
| Viture.PacketInjective | viture/viture.go:118-128 | Different arguments give different packets |
| Viture.PacketLength | viture/viture.go:118-128 | The length field is the bytes from offset 8 on modulo 65536, and equals them exactly for payloads of at most 65524 bytes |
| Viture.PacketValid | viture/viture.go:143-153 | Every packet built is valid |
| Viture.HeaderIff | viture/viture.go:46-54 | The headers known are 0xFFFE, 0xFFFD and 0xFFFC |
| Viture.ValidIff | viture/viture.go:143-153 | Valid bytes are exactly those that start with 0xFF, one of 0xFC, 0xFD and 0xFE, and the checksum of what follows, high byte first |
| Viture.FrameValidIff | viture/viture.go:143-153 | Any body behind its own checksum is valid with exactly these three second bytes |
| Viture.DamageUnseenIff | viture/viture.go:143-153 | Which damage to a valid packet leaves it valid: exactly that which keeps the header known and whose body runs to the damage of the checksum field |
| Viture.UnseenIsMultiple | viture/viture.go:143-153 | That is, exactly when the header stays known and the flips of body and checksum field, in this order, form a multiple of the generator |
| Viture.BurstIsCaught | viture/viture.go:143-153 | A burst of at most 16 bits in the body, in the checksum field, or in the last of the one and the first of the other, makes any valid packet invalid, whatever happens to its header |
| Viture.TwoFlipsCaughtIff | viture/viture.go:143-153 | Any two flipped bits from offset 2 on go unseen exactly when they are a multiple of 32767 places apart, the checksum field counted after the body: two in the field never are |
| Viture.AcrossUnseenIff | viture/viture.go:143-153 | Neighbouring bits on either side of offset 4 go unseen exactly when 8·len(body) + 15 is a multiple of 32767 |
| Viture.AcrossGoesUnseen | viture/viture.go:143-153 | So they do in every packet of 4098 bytes |
| Viture.ValidIsEven | viture/viture.go:143-153 | From offset 2 on, every valid packet has an even number of set bits |
| Viture.OddDamageIsCaught | viture/viture.go:143-153 | Any odd number of flipped bits from offset 2 on, at any length, makes a valid packet invalid |
| Viture.IMURoundTrip | viture/viture.go:177-188 | Three angles laid out big-endian from offset 18 of an IMU packet are read back, as raw words, whatever surrounds them |
| Viture.ParseIMUIff | viture/viture.go:160-188 | Which bytes are an orientation report, and the big-endian words its angles are |
| Scanner.FrameAt | cmd/serialprobe/main.go:310-323 | The inner loop finds the shortest valid slice at its offset, or there is none |
| Scanner.Decode | cmd/serialprobe/main.go:304-325 | The reports are the shortest valid slices of at least 19 bytes, one at each offset that has any, in order; none are found only if there are none |
| Scanner.DecodedOnce | cmd/serialprobe/main.go:304-325 | No bytes have two answers: the reports are settled, in number, order and content |
| Scanner.PrefilterLosesNothing | cmd/serialprobe/main.go:306-309 | No valid slice starts with anything but 0xFF |
| Scanner.FrameInBytes | cmd/serialprobe/main.go:306-323 | What counts as a frame, in bytes: at least 19, one of three headers, the right checksum |
| Scanner.PacketIsFound | cmd/serialprobe/main.go:304-325 | A packet between any two byte strings is reported at its offset |
| Scanner.FrameIsFound | cmd/serialprobe/main.go:304-325 | So is a frame of any of the three kinds, an orientation report among them |
| Scanner.ReportShowsAngles | cmd/serialprobe/main.go:310-323 | A report shows angles exactly for orientation reports of at least 30 bytes, and those at offset 18 |
| Scanner.ReportedLength | cmd/serialprobe/main.go:304-325 | It is reported at its full length exactly when no proper prefix of it checks out by accident |
| Scanner.SomePacketIsReportedShort | cmd/serialprobe/main.go:304-325 | A packet of 22 bytes that is reported as one of 19 wherever it stands |
| Descriptor.Split | usb/descriptor.go:76-90 | The loop's result and error are those of taking blocks off the front while they fit |
| Descriptor.WalkTakesApart | usb/descriptor.go:76-90 | What is split off is well-formed and, with the rest, is the input: nothing lost or invented on failure either |
| Descriptor.WalkOfFlatten | usb/descriptor.go:76-90 | Splitting well-formed blocks followed by anything gives those blocks first |
| Descriptor.SplitSucceedsIff | usb/descriptor.go:76-90 | A split succeeds exactly on concatenations of well-formed blocks and returns the only such decomposition |
| Descriptor.WalkIsLongest | usb/descriptor.go:76-90 | On failure the partial result is the longest well-formed beginning |
| Descriptor.SplitConcat | usb/descriptor.go:76-90 | Splitting a concatenation is splitting its parts, when the first one splits |
| Descriptor.Interpret | usb/descriptor.go:249-286 | One turn of the parser's loop, including the update through the last interface |
| Descriptor.ParseConfig | usb/descriptor.go:235-288 | The loop computes the configuration described by the meanings of the split, or the partial one with the error |
| Descriptor.ParsedFailsIff | usb/descriptor.go:76-90 | Which blocks are refused, and the numbers each refusal carries |
| DescriptorLaws.MeaningInNumbers | usb/descriptor.go:249-286 | Which descriptors are interpreted: type 2; type 4 of at least 9 bytes; type 5 of at least 7; type 11 of at least 8 |
| DescriptorLaws.SmallBlockParses | usb/descriptor.go:235-288 | A block of 25 bytes and the interface with one endpoint it parses to |
| DescriptorLaws.ParseLosesNothing | usb/descriptor.go:249-286 | Descriptors are headers, interfaces, attached endpoints, associations or unknown, counted without loss |
| DescriptorLaws.GroupKeepsEndpoints | usb/descriptor.go:258-273 | Endpoints interface by interface are the endpoints in order, unclaimed ones first |
| DescriptorLaws.EndpointsUnderLatest | usb/descriptor.go:258-273 | The endpoints after an interface and before the next are that interface's |
| DescriptorLaws.InsertUninterpreted | usb/descriptor.go:283-284 | A well-formed descriptor with no meaning, inserted at any boundary, adds one to Unknown and changes nothing else |
| DescriptorLaws.PublishedMeans | usb/descriptor.go:249-286 | Each published descriptor is well-formed and means what was published, whatever its ignored bytes and tail |
| DescriptorLaws.ParseInvertsPublish | usb/descriptor.go:235-288 | Parsing any published block gives what its pieces say |
| DescriptorLaws.RoundTrip | usb/descriptor.go:235-288 | Parsing any spelling of a configuration returns the configuration |
| DescriptorLaws.EveryConfigIsSpelled | usb/descriptor.go:187-199 | Every configuration that fits the formats has a spelling |
| TermiosModel.EditControl | serial/termios.go:258-296 | The step-by-step edits of the control word amount to replacing the owned bits |
| TermiosModel.ToTermios | serial/termios.go:250-305 | The edited copy is the configuration applied |
| TermiosModel.ApplyOverwrites | serial/termios.go:250-305 | A configuration applied over another is as if the other had never been |
| TermiosModel.ApplyPreserves | serial/termios.go:250-305 | Every bit outside the documented masks and every other control character is kept; those inside are cleared for raw input or say what the configuration does, with its limits and speeds |
| TermiosModel.ReadBack | serial/termios.go:311-343 | What is read back is the configuration with its defaults settled, for any prior state |
| TermiosModel.ValidSettles | serial/termios.go:222-242 | A configuration is valid exactly when its rate is positive and settling only reads 0 data bits as 8 and 0 stop bits as 1 |
| TermiosModel.RefusalNames | serial/termios.go:222-242 | A refusal names the first wrong field with its value |
| TermiosModel.AppliedInNumbers | serial/termios.go:26-78 | What is cleared, and each field of the control word and control characters, in the header's numbers |
| TermiosModel.ReadInNumbers | serial/termios.go:311-343 | What is read from any termios, in the same numbers |
| TermiosModel.ReadBackIff | serial/termios.go:311-343 | A configuration is read back unchanged exactly when its defaults are spelled out |
| TermiosModel.FixedIff | serial/termios.go:250-343 | Reading a state and applying what was read leaves it alone exactly when it is in canonical form |
| TermiosModel.CanonicalIff | serial/termios.go:250-343 | The canonical states are exactly those some configuration produces from some state |
| TermiosModel.ProducedIsFixed | serial/termios.go:250-343 | What any configuration produces is left alone by reading it and applying what was read |
| SerialPort.Port.Configure | serial/serial.go:220-261 | Invalid, closed and unreachable ports are left alone; otherwise the calls made and the state reached are the negotiation's, success stores the final read-back and failure keeps the old configuration |
| SerialPort.Conversation | serial/serial.go:226-256 | The calls made and the answer given on every path; a failure carries the first refusal's code or that of the last read |
| SerialPort.SuccessIsReadBack | serial/serial.go:220-261 | A success is the driver's answer to the last call, which is a read |
| SerialPort.WritesAreAsAsked | serial/serial.go:232-244 | Each write is what was asked; the retry differs in the two speeds alone |
| SerialPort.SpeedsAreAsAsked | serial/serial.go:244-252 | Every separately requested speed is the one asked for |
| SerialDrivers.PlainDriverExists | serial/serial.go:214-219 | For any way of accepting and rounding rates and anything ignored there is such a driver |
| SerialDrivers.AsAskedIff | serial/serial.go:220-261 | Against any driver that accepts, refuses and rounds rates as it likes, in either call, and leaves alone what bits and control characters it likes: success is exactly that the rate gets through, all but those bits and the rate is then as asked, and the configuration read back is the one requested exactly when the rate reached is and no bit left alone differs where it is read |
| SerialDrivers.LiteralDriverReached | serial/serial.go:246-252 | The last speed call repairs whatever the termios call did to the rate: against a driver that takes it literally there, success means the rate requested |
| SerialDrivers.TableDriverReached | serial/serial.go:220-261 | Against a driver with a table of rates that honours the speed call, the configuration is reached exactly when its rate is in the table or the rate in force is positive, and then as asked |
| SerialDrivers.SilentRefusalSucceeds | serial/serial.go:214-261 | A driver that never refuses is always reported as success, and the port is as requested exactly when the rate its two ways of rounding settle on is and nothing that matters was ignored |
| SerialDrivers.DeafDriverAsAskedIff | serial/serial.go:214-261 | Against a driver that keeps its rate and any other bits, exactly when the rate asked for was in force already and those bits were as asked where they are read |
| SerialText.Itoa | serial/termios.go:199-219 | The digits filled in from the end are the decimal number, negation wrapping as in the code |
| SerialText.PrintedReadsBackIff | serial/termios.go:199-219 | The text reads back as the number for every 64-bit integer but the smallest |
| SerialText.PrintedInjective | serial/termios.go:199-219 | No two integers print alike |
| SerialText.Render | serial/termios.go:347-367 | The accumulated text is rate, shorthand, flags and limits in order |
| SerialText.TextInjectiveIff | serial/termios.go:347-367 | Two configurations render alike exactly when they differ at most in how an invalid parity is spelled; valid ones never |
| SerialText.SampleNumbers | serial/termios.go:199-219 | Some numbers, digit by digit |
| SerialText.ParityLetters | serial/termios.go:349-356 | 1 is O, 2 is E, anything else N |
| SerialText.SampleText | serial/termios.go:347-367 | One configuration with every flag, letter by letter |
| Drain.Drain | serial/serial.go:361-380 | The buffer starts with the delivered chunks in order and is otherwise untouched, no read follows one that failed or came too late, timeout and end of file are no errors, and the call returns whenever some read gives a reason to |
| Drain.ReturnsAtFirstReason | serial/serial.go:361-380 | It returns at the first reason, making no read beyond it |
| Drain.ReturnsForAReason | serial/serial.go:361-380 | It never returns without one, so that returning and having a reason are the same |
| Drain.DoneSays | serial/serial.go:361-380 | Which error comes with which end: none for a full buffer, the time, a timed-out read or the end of file, and otherwise that of the deadline or the read |
| Drain.ProgressStops | serial/serial.go:361-380 | When every error-free read delivers a byte or takes time, a reason comes within the room and the ticks left, plus one |
| Drain.DeliveredIsPrefix | serial/serial.go:361-380 | The result does not depend on how the bytes were cut into chunks |
| Drain.DrainedPacketIsFound | serial/serial.go:361-380 | A packet arriving in any pieces is found by the scanner in what was drained |
| Drain.StalledNeverEnds | serial/serial.go:361-380 | A reader that gives no bytes, no error and no time never gives a reason |
| HidSafety.ClaimedCounts | hid/hid.go:398-401 | The claim loop adds to each counter the number of times the device is listed |
| HidSafety.NextKeeps | hid/hid_darwin.go:429-500 | Each of the eighteen steps keeps the invariant over handles, ledger, memory, callbacks, schedules, registry and callbacks in flight |
| HidSafety.EveryRunIsSafe | hid/hid_darwin.go:452-500 | So does every interleaving of any number of streams |
| HidResults.AttachedBufferIsLive | hid/hid_darwin.go:470-486 | What IOKit may write into is null or allocated, and belongs to a call of Stream that has not returned, for the device it asked for, even when devices are shared |
| HidResults.FreeIsOfOwnBlock | hid/hid_darwin.go:478-486 | Free is called only on null or on a live block of the same call |
| HidResults.ReturnLeavesNothing | hid/hid_darwin.go:478-492 | A call past its teardown has freed exactly its buffers and left no callback, schedule, block or entry |
| HidResults.StreamingIsMultiplicity | hid/hid.go:250-267 | The counter of a device is its total multiplicity in the calls that have not returned |
| HidResults.CloseActsIff | hid/hid.go:305-321 | Close releases exactly when the handle is unreleased and no call claims it; otherwise nothing changes |
| HidResults.StartActsIff | hid/hid.go:380-401 | Stream goes ahead exactly with at least one device and all of them open; each is then claimed as often as it is listed and its reference read, and a refused call changes nothing |
| HidResults.RetainsBalance | hid/hid.go:346-360 | Retains are releases plus handles still to be closed; once all are closed they balance |
| HidResults.StreamedRefIsRetained | hid/hid.go:396-401 | No reference of a running call has had its last release |
| HidResults.LookUpFindsListener | hid/hid_darwin.go:429-439 | In any run, what a callback finds at its look-up is a call that has entered its references and not erased them, with a device that refers to the sender |
| HidResults.HandedAsLookedUp | hid/hid_darwin.go:434-441 | Whatever other threads do once the lock is let go, the report goes to the handler found, with the device found |
| HidResults.RoutedReportArrives | hid/hid_darwin.go:429-442 | While entries name the slots that attached, each callback with bytes finds the slot that attached its sender |
| HidResults.RegisterKeepsRoutedIff | hid/hid_darwin.go:464-468 | Entering references keeps all reports routed exactly when none of them is attached already |
| HidResults.UnregisterKeepsRoutedIff | hid/hid_darwin.go:487-491 | Erasing them, exactly when no other stream is attached to one |
| HidDiscipline.NextUndisturbed | hid/hid_darwin.go:429-500 | Each of the eighteen steps leaves a call's entries, callbacks and schedules its own, unless it starts a call that lists a device it awaits reports from |
| HidDiscipline.ReportReachesItsStream | hid/hid_darwin.go:429-442 | If a call shares no device when it starts, and no later start lists one it awaits reports from, a callback for a device it attached runs on its own thread and finds it, as that device, and no other slot lists the sender; the other calls may share as they like |
| HidDiscipline.PumpingStreamIsConnected | hid/hid_darwin.go:470-477 | While such a call pumps it has every device attached with its own buffer and scheduled on its own run loop, and callbacks may run |
| HidDiscipline.PumpingStreamHears | hid/hid.go:401-403 | So each report with bytes from its i-th device reaches its handler as that device, and whatever other threads do after the look-up, the call still pumps then and the bytes are in its own live block |
| HidDiscipline.PendingEntriesStay | hid/hid_darwin.go:487-491 | The end of no other call erases an entry such a call still needs |
| HidRouting.AttachKeepsRoutedIff | hid/hid_darwin.go:470-477 | Attaching keeps reports routed exactly when the entry of the device names the slot that attaches it |
| HidRouting.NextKeepsRoutedIff | hid/hid_darwin.go:429-500 | Over any run, exactly which of the eighteen steps keep every callback routed |
| HidDiscipline.UnsharedIff | hid/hid.go:380-404 | What a caller can check, that the devices are distinct and none is in a stream still active, is exactly what it takes for the call to start undisturbed |
| HidRouting.StartStaysRoutedIff | hid/hid.go:380-404 | In any reachable state, a call of Stream keeps its callbacks routed, and so its reports arriving, over all continuations in which no later start lists a device it awaits reports from, exactly when its own devices are unshared: otherwise some continuation loses reports or hands them to another stream |
| HidRouting.LaterStartStaysRoutedIff | hid/hid.go:380-404 | And after any run that has kept to this for a call, a further start leaves it so exactly when it lists no device the call awaits reports from: any it has still to detach for its callbacks, those malloc did not leave without a buffer for its reports |
| HidRouting.HeardIff | hid/hid_darwin.go:429-442 | Every report with bytes from a device a call attached is found to go to it exactly when every callback of it with a buffer has its own slot entered |
| HidCallbacks.NextFenced | hid/hid_darwin.go:429-500 | Each of the eighteen steps keeps the callbacks that found a call on its own thread, with its own live bytes, unless it starts a call that lists a device this one has yet to enter |
| HidCallbacks.CallbacksAreSound | hid/hid.go:372-377 | Over any run whose starts keep to this for a call, its handler is called, and runs, only on the thread of that call while it pumps, with bytes in a live block of it |
| HidCallbacks.EveryCallbackIsSound | hid/hid.go:372-377 | If no start lists a device of a call that has not begun its teardown, that is so for all calls |
| HidOverlap.StartStaysSoundIff | hid/hid.go:372-404 | In any reachable state, that is so for a call of Stream, over all continuations in which no start lists a device it has yet to enter, exactly when none of its devices is in a call that has not begun its teardown; otherwise, and only then, some continuation leaves a callback that found it and is yet to call its handler after it has returned and freed the bytes |
| HidOverlap.LaterStartStaysSoundIff | hid/hid.go:372-404 | And after any run that has kept to this for a call, a further start leaves it so exactly when it lists none of its devices or the call has entered them |
| HidEnding.EverythingCanEnd | hid/hid_darwin.go:452-500 | No reachable state is a dead end, however devices are shared: with no further start every call can return and every handle be closed, and then every retain is released and no block, callback, schedule or entry is left |
| HidSharing.SharedDeviceIsTaken | hid/hid_darwin.go:464-468 | A reachable state in which a second stream on the same device takes the reports of one still pumping |
| HidSharing.ReturnedCallIsCalledBack | hid/hid_darwin.go:434-441 | A run in which a call's handler is called on another's thread after it has returned, with bytes of its freed buffer |
| HidPump.Process.Find | hid/hid_darwin.go:429-439 | The tests and the look-up under the lock are the machine's look-up |
| HidPump.Process.Deliver | hid/hid_darwin.go:440-441 | The handler found is called with a device of its call, never past them |
| HidPump.Process.InputCallback | hid/hid_darwin.go:429-442 | The whole callback runs the machine's look-up, whatever steps of other threads fall in the gap, and its hand-over to the target found |
| HidPump.SetUp | hid/hid_darwin.go:470-477 | One device's allocation, registration and scheduling, in that order |
| HidPump.TearDown | hid/hid_darwin.go:479-486 | One device's detaching, unscheduling and freeing, in that order |
| HidPump.DarwinStream | hid/hid_darwin.go:452-500 | A whole call runs exactly the machine's steps in the code's order, frees every buffer, leaves no trace and touches no other stream |
| HidDevice.Match | hid/hid.go:219-238 | A device matches exactly when every constraint set holds |
| HidDevice.MatchesIff | hid/hid.go:219-238 | A zero number or an empty list asks for nothing, any other for itself or one of its own |
| HidDevice.BufSize | hid/hid.go:413-418 | The size is positive: the advertised one when that is, 64 otherwise |
| HidDevice.Device.Open | hid/hid.go:279-288 | An open device makes no call; otherwise it becomes open exactly when the native open succeeds |
| HidDevice.Device.Close | hid/hid.go:305-321 | The handle and the native calls after each of the outcomes; the release happens whatever the native close answers |
| HidDevice.Devices | hid/hid.go:346-360 | The matching devices are kept, in order, each new; every other reference is released once, in order |
| HidDevice.KeptMatch | hid/hid.go:346-360 | The handles kept are those of the devices that match, not yet open |
| HidDevice.ReleasesOthers | hid/hid.go:346-360 | The references released are those of the others |
| HidDevice.ReleasesAreRejected | hid/hid.go:346-360 | What is released is what the state machine takes as rejected |
| HidDevice.Claim | hid/hid.go:398-400 | Each counter grows by the multiplicity of its device |
| HidDevice.Unclaim | hid/hid.go:398-400 | The deferred decrements take exactly that back, last claim first |
| HidDevice.CountsAreClaims | hid/hid.go:398-401 | While the platform runs, each counter is up by the number of times its device is listed, so never where it was |
| HidDevice.Stream | hid/hid.go:380-404 | Refusals touch nothing; otherwise the platform gets every reference and size in order, under full claims, and no claim outlives the call |
| IOReturn.CodesInHex | ioreturn/ioreturn.go:23-74 | The codes named are IOKit's |
| UsbRegistry.Attach | usb/usb_darwin.go:375-417 | On every path all that is still held afterwards is the interface gained; the code and the entry are those of the first version accepted |
| UsbRegistry.AttachedCases | usb/usb_darwin.go:375-417 | Which code and interface each kind of answers leads to, over three versions for devices and four for interfaces, and whether it has the timeout variants |
| UsbRegistry.QueryVersions | usb/iface_darwin.go:154-168 | The candidate loop takes the first version accepted and reports the last refusal otherwise |
| UsbRegistry.SuccessWithoutInterfaceIff | usb/usb_darwin.go:375-417 | Exactly when attaching reports success with no interface |
| UsbRegistry.SuccessWithoutInterface | usb/usb_darwin.go:404-416 | Answers for which it does |
| UsbRegistry.Registry.Add | usb/usb_darwin.go:204-211 | The next token is given out and entered |
| UsbRegistry.Registry.Drop | usb/usb_darwin.go:219-225 | The entry is taken out and returned |
| UsbRegistry.Registry.Enroll | usb/usb_darwin.go:274-287 | A service handed over is held by one new entry |
| UsbRegistry.Registry.Open | usb/usb_darwin.go:420-442 | Unknown tokens, failed attaches and seizing without the newer interface are refused; the world changes by the attach alone |
| UsbAnswers.OpenedUnknown | usb/usb_darwin.go:424-427 | A token not entered is refused and nothing changes |
| UsbAnswers.GainsOrStays | usb/usb_darwin.go:375-417 | Attaching keeps an interface that is there, and leaves the entry as it was when it gains none |
| UsbAnswers.OpenedWhenAttached | usb/usb_darwin.go:420-442 | Through an interface that is there, the answer is the native call's own, but for seizing without the call |
| UsbAnswers.OpenedWhenNot | usb/usb_darwin.go:420-442 | Otherwise a refused attach is passed on, and an interface gained is opened as if it had been there |
| UsbRegistry.Registry.Close | usb/usb_darwin.go:446-452 | Nothing changes, and an entry without interface is not open |
| UsbRegistry.Registry.Release | usb/usb_darwin.go:455-468 | The entry goes and exactly its interface and service are given back |
| UsbHandles.Device.OpenWith | usb/usb.go:353-367 | Handle and world after opening, seizing or doing nothing |
| UsbAnswers.HandleOpensIff | usb/usb.go:353-367 | A handle not open is opened exactly when there is an interface, with the seizing call if needed, and the native call answers success; then, and only then, it is marked open, and seized as asked |
| UsbAnswers.HandleOpensThrough | usb/usb.go:353-367 | When the interface is there the outcome is success or the code of the native call |
| UsbAnswers.HandleOpenRefused | usb/usb.go:353-367 | What is refused before any native call, with which code |
| UsbHandles.Device.Close | usb/usb.go:371-384 | The token is released whatever the native close answers; twice is a no-op |
| UsbAnswers.HandleClosedCases | usb/usb.go:371-384 | What a close leaves and answers in each case |
| UsbHandles.Device.Control | usb/usb.go:407-427 | A transfer reports at most what was asked, a partial count beside its error |
| UsbHandles.InterfaceHandle.OpenWith | usb/iface.go:212-225 | A released interface refuses before any native call |
| UsbHandles.InterfaceHandle.Close | usb/iface.go:228-240 | As for a device |
| UsbHandles.DrainIterator | usb/usb_darwin.go:274-287 | Tokens are consecutive, one for each service found |
| UsbHandles.Devices | usb/usb.go:465-479 | Kept services become new handles in order, the others are released |
| UsbHandles.Interfaces | usb/iface.go:174-188 | Likewise for interfaces |
| UsbAnswers.ReleasedGivesBack | usb/usb_darwin.go:455-468 | A release gives back the interface and the service of its entry, once each |
| UsbAnswers.DrainedEntries | usb/usb_darwin.go:274-287 | The k-th service is entered under the k-th new token |
| UsbAnswers.FirstToken | usb/usb_darwin.go:198-211 | The first service ever enumerated is entered under token one |
| UsbAnswers.FilteredKeeps | usb/usb.go:465-479 | The handles are those of the services kept, in order, and exactly the others are no longer entered |
| UsbRuns.StepKeeps | usb/usb_darwin.go:198-225 | Each operation keeps the invariant, never takes a token back and brings in only new ones |
| UsbRuns.HeldIsLive | usb/usb_darwin.go:375-468 | Over any run the services held are those of the live entries and the interfaces held those of the attached ones, with multiplicity |
| UsbRuns.EntriesAreHandles | usb/usb.go:353-384 | The live entries are those of the handles not closed, one each |
| UsbRuns.AllClosedHoldsNothing | usb/usb.go:371-384 | Once every handle is closed nothing is held |
| UsbRuns.TokenNamesOneObject | usb/usb_darwin.go:204-225 | Over any run, resolving a token twice gives the same service, and the same interface once there is one |
| UsbRuns.DroppedTokenStaysDropped | usb/usb_darwin.go:198-225 | A token once dropped never resolves again, whatever follows, and no open with it does anything, whatever it asks and IOKit would answer |
| UsbRuns.ClosedHandleReachesNothing | usb/usb.go:353-384 | Opening a closed handle fails and changes nothing |
| UsbRuns.EndsIff | usb/usb_darwin.go:420-580 | Over any run, which operations call through a null interface: an open or a description that attaches an entry without one and is told of success, and no other |
| UsbSeizing.SeizedIsOpenAndNew | usb/usb_darwin.go:431-440 | Over any run a device marked as seized is open, through an interface that has the seizing call |
| InterruptRead.NextKeeps | usb/iface_darwin.go:402-446 | Each step of caller, goroutine and kernel keeps the invariant |
| InterruptRead.PendingReadHasItsBlocks | usb/iface_darwin.go:402-446 | While ReadPipe may be writing, both its blocks are live and the call's own, and the caller waits |
| InterruptRead.FreesComeLast | usb/iface_darwin.go:434-439 | Freeing starts only once the goroutine has ended or was never started |
| InterruptRead.SendNeverBlocks | usb/iface_darwin.go:420-423 | The goroutine's one send always finds room |
| InterruptRead.ResultIsHonest | usb/iface_darwin.go:427-445 | Success hands over exactly the bytes reported, cut to the buffer; any other code has count zero, the buffer untouched; the heap is as it was |
| InterruptRead.ReplyIsWhatWasWritten | usb/iface_darwin.go:407-421 | Each byte ReadPipe answers with is the one the kernel wrote there last, or zero if it wrote none, and the count the last one written, or the length of the buffer |
| InterruptRead.WhatIsWrittenArrives | usb/iface_darwin.go:402-446 | Whatever bytes and count the kernel writes, there is a run in which they reach the caller, in front of what its buffer held from there on |
| InterruptRead.ReturnedCode | usb/iface_darwin.go:402-446 | The code is that of no memory when ReadPipe was never called, the timeout when the timer's branch was taken, and ReadPipe's own otherwise: so a read that succeeded is thrown away exactly when that branch was taken |
| InterruptRead.SuccessIsThrownAway | usb/iface_darwin.go:427-440 | A run in which it is, for every buffer |
| InterruptRead.NobodyIsStuck | usb/iface_darwin.go:402-446 | Until the return, some step is always possible |
| InterruptRead.RunsAreShort | usb/iface_darwin.go:402-446 | Besides the kernel's writes, no run has more than thirteen steps |
| PipeRead.PipeTypeOf | usb/iface_darwin.go:357-387 | The block the kind is asked for in is given back on every path, and the kind is the byte at offset 4 when there was memory to ask in and the answer was success |
| PipeRead.DarwinReadPipe | usb/iface_darwin.go:267-318 | The count and code on each path, which pipes are handed to the other read, the bytes of a successful read and an untouched buffer otherwise; every block is freed on every path, that for the kind before the other read is handed the pipe |
| Beast.TextOf | viture/beast.go:493-518 | The text is the clamped field without its trailing padding |
| Beast.TrimmedEnd | viture/beast.go:493-518 | 0 and 0xFF are trimmed off the end, and no other byte |
| Beast.ParseEvent | viture/beast.go:284-295 | Exactly the frames with both constant bytes are events, with their fields |
| Beast.EventIff | viture/beast.go:284-295 | Which frames are events: at least 8 bytes, 0x10 first and 0 at offset 5; and the bytes its fields are read from |
| Beast.TextRoundTrip | viture/beast.go:284-295 | Every field of a text answer is read back whatever follows it, the text unchanged exactly when it does not end in padding |
| Beast.CutFrame | viture/beast.go:508-511 | A frame cut short gives the part of its text that is there |
| Beast.Command | viture/beast.go:469-481 | The 64 bytes built in place, value packed twice |
| Beast.SetDisplayMode | viture/beast.go:437-439 | The command that sets a mode |
| Beast.ReadDisplayMode | viture/beast.go:458-458 | The command that asks for it |
| Beast.CommandInBytes | viture/beast.go:469-481 | A command is ten bytes written out as numbers, the value twice with its low byte first, and 54 zeros; the direction is 0x31 for a read and 0x01 otherwise |
| Beast.CommandRoundTrip | viture/beast.go:469-481 | Message, length and value are read back, and only a read goes out in the read direction |
| Beast.CommandsDiffer | viture/beast.go:469-481 | Commands are equal exactly when they ask the same |

## Left out

- HidSafety.EveryRunIsSafe: Open, Close and the validate-and-claim prologue of Stream are single steps, because the code does not synchronise them. A callback runs only on a thread that pumps, for a device scheduled there and attached, one at a time on each thread, as run loops do; its handler makes no calls of its own here.
- HidResults.StreamingIsMultiplicity: the counter is unbounded here and a 32-bit atomic in the code.
- HidResults.AttachedBufferIsLive: a failed malloc is registered as null, as in the code, which does not check it.
- HidPump.DarwinStream: one call without others in between; interleavings are the subject of the state machine, whose steps it runs.
- UsbRuns.DroppedTokenStaysDropped: tokens are unbounded here and machine words in the code.
- UsbHandles.Devices: which services match is a parameter; the fields a USB filter compares are not modelled.
- UsbSeizing.SeizedIsOpenAndNew: for devices only; an interface keeps its mark after it is closed, and nothing is claimed of it.
- UsbRegistry.Registry.Open: that the framework loaded is taken for granted, since loading is remembered and no entry exists without it.
- InterruptRead.RunsAreShort: that ReadPipe returns after AbortPipe is not claimed; the kernel's return is a step that is possible, not one that is bound to happen.
- PipeRead.DarwinReadPipe: an interrupt pipe is handed to the other read, which is modelled by itself.
- SerialDrivers.AsAskedIff: a driver whose refusals depend on more than the two rates, or that stores part of what it refuses, is outside it; such drivers are covered by SerialPort.SuccessIsReadBack and its neighbours.
- Viture.BurstIsCaught: bursts are in the order the checksum divides, body before field; one across offset 4 of the packet is two pieces at opposite ends of that order, and Viture.AcrossGoesUnseen is one of two bits that fails.
- Drain.Drain: for readers that never give a reason to return there is nothing to state after the call.
- SerialText.Render: counts are taken to be 64-bit integers, as all of Go's are on these platforms.
- Viture.IMURoundTrip: angles are raw 32-bit words; their floating-point reading is not modelled.
- Symbol loading, vtable dispatch, CoreFoundation property reads, ioctls and run-loop timing are represented by their answers.
- HID and USB output (SetReport, WritePipe, the buffer of a control transfer), setup packets, CDC, pipe tables, and the error strings and lookup tables are not modelled: their members would be easy.
- Unsynchronised Open and Close on one device are not modelled: the code promises nothing about them.
