# Verified models of mblue

mblue is a small C middleware for embedded systems: tasks exchange reference-counted messages over a
system bus, remote calls carry Protocol Buffers payloads, and a handful of kernels (ring buffer, CRC,
calendar, state machine, event queue) serve them. This project models the parts whose correctness cannot
be read off one function, and proves what they promise. `dafny verify dfyconfig.toml` checks it.

The parts, each building on the ones before it:

- **Protocol Buffers codec** (`Bits`, `Varint`, `Schema`, `Encoding`, `Decoding`, `Presence`, `Locality`, `Canon`,
  `RoundTrip`, `Identity`, `Transparency`). A descriptor is a sequence of fields, recursively; a message is a
  sequence of slots, one for each struct member, with the members of a union sharing one. `Encoding.Encode`
  and `Decoding.Decode` say which bytes mean which message. The round trip, the transparency of unknown fields
  and the last-one-wins rule are theorems about these two functions, for every descriptor and every message.
- **The codec against the published format** (`Wire`, `WireProofs`, `WireDecoding`, `Bounds`, `Encodable`). `Wire` is a
  reader of the Protocol Buffers wire format and says what a message means in it, with numerals and without
  reference to encoder or decoder; the encoder writes that format, and the decoder reads it on all bytes. What is
  decoded fits its struct, and what the encoder accepts is said exactly.
- **The codec as it runs** (`Iterator`, `Encoder`, `RequiredFields`, `Decoder`). Streams, the circular field
  iterator, the two-pass submessage encoder and the required-field bitmap as objects that change in place,
  proved against the functions above.
- **Remote-call framing** (`Framing`, `FramingWire`): header and arguments in one computed buffer, and the service's parsers.
- **Message pool and system bus** (`MessagePool`, `Bus`, `BusOwnership`, `BusCalls`, `BusSteps`,
  `BusTheorems`, `BusExample`, `BusLook`, `BusLookProofs`, `BusLookPool`, `BusLookBounds`, `BusLookExample`,
  `BusMoves`, `BusDelivery`, `SystemBus`). The bus
  protocol is a transition system whose steps are pieces of the tasks' code. `BusCalls.Inv` is the invariant,
  `BusSteps.StepKeeps` shows that every step keeps it, and `BusTheorems` draws conclusions from it. There a poster knows at once whether to wait; `BusLook` makes the
  look it takes a step of its own. `BusLookPool` has what holds in every run with looks, `BusLookProofs` what holds
  while looks are right. `BusDelivery` says who gets what in every run: contents of messages, subscribers of signals,
  order of queues. `SystemBus` has the handlers as methods.
- **Task queue and semaphore** (`TaskQueue`), **ring buffer** (`RingBuffer`, `RingProtocol`), **CRC32C** (`Crc`, `CrcVectors`),
  **calendar** (`Calendar`), **hierarchical state machine** (`StateMachine`), **event queue** (`EventQueue`).

## What was found

- A task that has posted a message looks at it once more, to see whether it was a synchronous call and on whose
  semaphore to wait (`ipc/ipc.c`, lines 96 to 103), although it no longer holds a reference. If the message has been
  handled, freed and built again by then, the look goes wrong: `BusLookExample.SlowLookBreaksCalls` is a run in
  which a call returns without a reply. `BusLookProofs.LookRightIff` says exactly when a look is right, what is
  promised of synchronous calls holds as long as looks are right, messages stay accounted for in any case
  (`BusLookPool.RunAny`), and `BusLookBounds.PromptRunsAreRight` gives a bound: no more builds between a post and its look than messages were free at the post.
- A pending synchronous entry can outlive its call for a moment: the bus posts the caller's token before it
  unlinks the entry. `BusLookProofs.PendingOnlyInsideCall` excepts exactly that entry,
  `BusTheorems.WokenBeforeDropped` shows that the caller can always be faster, and
  `BusExample.EntryOutlivesCall` is a run in which it is.
- An unknown field with tag 0 is not skipped by a message type without fields, because the search compares
  the terminating entry too (`Transparency.UnknownSkipped`, `Transparency.TerminatorIsMatched`).
- References get lost: a message posted to a full queue keeps its reference, so does a call whose payload does
  not decode, and a call that wants no answer gets a second reference that nobody drops (no caller in the
  repository issues one: `mblue_remote_call_async` always attaches a notifier). Such a message is never free
  again (`BusLookPool.NeverFreeAgain`) and the pool stays smaller for good (`BusLookPool.PoolShrinks`).
- The ring's MIN macro looks at the other side's index twice. The ring itself stays sound, but a put or a get can
  move more bytes than were requested (`RingProtocol.PutAccepts`, `RingProtocol.MoreThanRequested`,
  `RingProtocol.MoreThanAskedFor`).
- The calendar stores the year in 16 bits, so it is right exactly before the year 65536
  (`Calendar.StoredIsExactIff`). Its year search compares in 32 bits: it finds the right year exactly up to some
  eleven million years (`Calendar.SearchIsRightIff`) and does not end from day number 2^32 on
  (`Calendar.SearchNeverStops`).
- The documentation of the state machine says that a self-transition runs neither exit nor entry action; the
  code runs the entry action (`StateMachine.SelfLoopActions`, `StateMachine.SelfLoopEnters`). It also says
  that a state with transition count 0 is final; the code does not look at the count (`StateMachine.CountZeroIsLeft`), and
  `StateMachine.AbsorbsIff` says exactly which states absorb events.
- The documentation lets a group leave its members unset, but the search upwards follows its transition array
  without a check (`StateMachine.SearchUp`, `StateMachine.UnsetGroupIsMet`).
- The spare bytes for length prefixes in the payload buffer suffice for every size: the header's prefix uses
  one of its four, and the arguments' prefix needs at most five.

## Assumptions

- The default build: 8-bit `pb_size_t`, 64-bit integers, no dynamic allocation in the codec, 32-bit `size_t`.
- Critical sections are atomic, and taking a sequence number is too (the code reads the counter once more
  after leaving its critical section).
- No call that can still be matched, because it is listed, in flight or being served, stays so while 32768 more
  sequence numbers are taken; calls lost before they got an entry do not count. A service answers a call at most once,
  from its handler or later; segments and their tasks do not change; calls are not addressed to the bus itself
  and are issued by tasks.
- The bus releases a call's message and unlinks its entry in one step. The code does one after the other, and for an
  instant the message of a listed entry may be free; only the bus reads its lists, so nobody sees that.
- Ring buffer: one writer and one reader, steps in sequentially consistent order.
- Guards of a state machine answer as a function of condition and event; callbacks of the event queue do not
  touch the queue.

## Model

| member | source | states |
|---|---|---|
| `Varint.VarintLength` | middleware/components/protocal_buffer/pb_encode.c:567-587 | An encoding has at most n bytes if and only if the value is below 2^(7n) |
| `Varint.EncodingIsShortest` | middleware/components/protocal_buffer/pb_decode.c:250-271 | Whatever bytes the decoder accepts, padded forms included, the encoder's form of the value they mean is not longer |
| `Varint.VarintAtMostTen` | middleware/components/protocal_buffer/pb_encode.c:570-578 | The ten-byte buffer of the encoder suffices for every 64-bit value |
| `Varint.Varint64Inverts` | middleware/components/protocal_buffer/pb_decode.c:250-271 | The 64-bit decoder returns every encoded uint64_t and consumes exactly its bytes, whatever follows |
| `Varint.Varint32Inverts` | middleware/components/protocal_buffer/pb_decode.c:182-248 | The fast 32-bit decoder does the same for every uint32_t |
| `Varint.DecodersAgree` | middleware/components/protocal_buffer/pb_decode.c:182-271 | On any bytes both decoders accept, they consume the same number of bytes and agree modulo 2^32, ten-byte sign-extended forms included |
| `Varint.Varint64Bound` | middleware/components/protocal_buffer/pb_decode.c:250-271 | Whatever the 64-bit decoder accepts, stray high bits of a tenth byte included, is a uint64_t |
| `Varint.ZigZagInverse` | middleware/components/protocal_buffer/pb_encode.c:589-598 | Zigzag decoding undoes zigzag encoding, and zigzag maps exactly the int64_t range onto the uint64_t range |
| `Varint.UnZigZagInverse` | middleware/components/protocal_buffer/pb_decode.c:1190-1202 | Zigzag encoding undoes zigzag decoding: the two are a bijection |
| `Presence.SaysIsPresent` | middleware/components/protocal_buffer/pb_encode.c:215-383 | The encoder takes a single field for present exactly if its slot says so: always if required, by the has-flag if it has one, by a value other than zero in proto3, by the selector of a union |
| `Presence.EncodedIffSaid` | middleware/components/protocal_buffer/pb_encode.c:342-383 | A required field always leaves bytes; an optional field with a has-flag if and only if the flag is set, a proto3 field if and only if its value is not zero at every depth, a union member if and only if the selector is its tag |
| `WireProofs.KeyReads` | middleware/components/protocal_buffer/pb_encode.c:628-665 | The key of a field is the varint of eight times its number plus 0 for varint types, 1 for fixed64, 5 for fixed32 and 2 for all others |
| `WireProofs.PackedKeyReads` | middleware/components/protocal_buffer/pb_encode.c:140-143 | The key of a packed array is the varint of eight times its number plus 2 |
| `WireProofs.WireIsPublished` | middleware/components/protocal_buffer/pb_encode.c:487-509 | A record reader written from the published format, without a constant of the encoder, splits every encoded message into records, and these are exactly the fields that are there, in descriptor order: number, wire type and value, two's complement, zigzag and little-endian order included, submessages and packed arrays read in turn |
| `WireDecoding.VarintIsPublished` | middleware/components/protocal_buffer/pb_decode.c:250-271 | On all bytes, the 64-bit decoder accepts exactly the varints of at most ten bytes, stops right behind them and keeps 64 bits of their value |
| `WireDecoding.PrefixIsPublished` | middleware/components/protocal_buffer/pb_decode.c:182-248 | The fast decoder reads every varint of at most five bytes whose value fits 32 bits, padded forms included |
| `WireDecoding.IntIsPublished` | middleware/components/protocal_buffer/pb_decode.c:1239-1322 | On all bytes, an integer field takes the varints of at most ten bytes whose published value fits its width, with that value, and nothing else |
| `WireDecoding.FixedIsPublished` | middleware/components/protocal_buffer/pb_decode.c:1204-1237 | On all bytes, a fixed-size field takes exactly four or eight bytes, the least significant first |
| `WireDecoding.ArrayGrows` | middleware/components/protocal_buffer/pb_decode.c:413-451 | An array of numbers grows by the numbers of a record, in order, whether they come packed or one by one |
| `WireDecoding.SkipIsPublished` | middleware/components/protocal_buffer/pb_decode.c:273-326 | Skipping stops where a reader of the published format stops; wire types 3, 4, 6 and 7 are refused |
| `WireDecoding.HookIsPublished` | middleware/components/protocal_buffer/pb_decode.c:331-359 | A bound callback gets exactly the raw bytes of a number, of which a varint may have ten; an unbound one leaves the record to be skipped |
| `Encodable.MessageTaken` | middleware/components/protocal_buffer/pb_encode.c:126-210 | The encoder succeeds if and only if every part that is there fits its field: integers their width, arrays their capacity, bytes and text their buffer, submessages 32-bit lengths |
| `Bounds.DecodedFits` | middleware/components/protocal_buffer/pb_decode.c:1239-1452 | Whatever the bytes and whatever the memory held, a message that decodes fits its struct at every depth: no integer exceeds its width, no array its capacity, no bytes or text their buffer |
| `RoundTrip.ScalarRoundTrip` | middleware/components/protocal_buffer/pb_decode.c:1239-1411 | Every scalar the encoder writes, of every type and width, is read back with nothing left over: varints with width checks, zigzag, fixed words, strings, bytes, fixed-length bytes. It fails exactly when a string has no room for its terminator |
| `RoundTrip.PackedRoundTrip` | middleware/components/protocal_buffer/pb_decode.c:413-436 | A packed array body is read back item by item |
| `RoundTrip.FieldRoundTrip` | middleware/components/protocal_buffer/pb_decode.c:395-468 | One encoded field, of any rule and type, in front of any further bytes, puts its value into its slot and leaves the rest of the message to be decoded as before; it fails exactly when its value is not decodable |
| `RoundTrip.FieldsRoundTrip` | middleware/components/protocal_buffer/pb_decode.c:894-959 | The field loop over the first n encoded fields reaches the message laid over the destination, by induction over nested descriptors |
| `RoundTrip.MessageRoundTrip` | middleware/components/protocal_buffer/pb_decode.c:894-1004 | Decoding an encoded message without initialisation gives the message laid over the destination, required-field check included, if and only if the message is decodable |
| `Identity.DecodeInvertsEncode` | middleware/components/protocal_buffer/pb_decode.c:1006-1018 | The same for the initialising decoder and a destination with arbitrary contents: absent fields end up at their defaults |
| `Identity.OverlayIsIdentity` | middleware/components/protocal_buffer/pb_decode.c:805-892 | A message whose absent parts are at the defaults, unions included, is unchanged by being laid over those defaults |
| `Identity.RoundTripIdentity` | middleware/components/protocal_buffer/pb_encode.c:307-509 | Encoding and then decoding into any destination gives back the very same message |
| `Identity.SingleSurvives` | middleware/components/protocal_buffer/pb_decode.c:395-412 | Through the wire into any memory, whatever else the message holds: an optional field with a has-flag comes back with the same flag, with its value if it was set and else its default; required and proto3 fields with their value or default |
| `Identity.ArraySurvives` | middleware/components/protocal_buffer/pb_decode.c:413-451 | An array comes back with as many items, and numbers, bytes and text as they were |
| `Identity.EncodeInjective` | middleware/components/protocal_buffer/pb_encode.c:487-509 | Different messages have different wire forms |
| `Canon.DefaultsFresh` | middleware/components/protocal_buffer/pb_decode.c:805-892 | Whatever the memory held, initialisation leaves every array empty, here and in every submessage that is merged in place |
| `Canon.DefaultsInitial` | middleware/components/protocal_buffer/pb_decode.c:805-892 | Initialising sets, at every depth, every single field to its declared default, or zero or empty if it has none, with the has-flag off, every array to no items, every union to no member, and leaves callbacks as they were |
| `Locality.DecodeFieldsAppend` | middleware/components/protocal_buffer/pb_decode.c:905-959 | A message can be cut at any field boundary: decoding a concatenation is decoding the second part from the state the first one reached |
| `Transparency.UnknownSkipped` | middleware/components/protocal_buffer/pb_decode.c:273-326 | A well-formed unknown field is skipped without a trace if and only if it is not tag 0 in a message type without fields, where the search matches the terminating entry |
| `Transparency.TerminatorIsMatched` | middleware/components/protocal_buffer/pb_common.c:78-95 | The bytes 02 00 are refused by an empty message type: the exception is real |
| `Transparency.UnknownFieldsTransparent` | middleware/components/protocal_buffer/pb_decode.c:905-949 | Any number of unknown fields, anywhere between fields, can be taken out without changing the state the loop reaches |
| `Transparency.DecodeIgnoresUnknown` | middleware/components/protocal_buffer/pb_decode.c:1006-1018 | With and without its unknown fields a message decodes alike, required-field check included |
| `Transparency.LastValueWins` | middleware/components/protocal_buffer/pb_decode.c:395-412 | In any message, among fields of any kind and in any order, a scalar field ends up with the value of its last occurrence, or as it began |
| `Transparency.OnlyTheLastMatters` | middleware/components/protocal_buffer/pb_decode.c:905-959 | Two messages agree on a scalar field whenever its last occurrences agree, whatever else they hold |
| `Transparency.LastMemberWins` | middleware/components/protocal_buffer/pb_decode.c:453-463 | In any message, a union ends up as the last member that occurs, scalar or submessage, with the value of that occurrence alone; one that no field lands in stays as it began |
| `Transparency.ScalarMessageIsLastValues` | middleware/components/protocal_buffer/pb_decode.c:905-959 | For a type of scalar fields the whole decoded message always exists and is a function of the last occurrences |
| `Transparency.SubmessageMerges` | middleware/components/protocal_buffer/pb_decode.c:1413-1435 | A required or optional submessage that occurs again is decoded over what is there: its fields are merged |
| `Transparency.ItemStartsInitial` | middleware/components/protocal_buffer/pb_decode.c:1413-1435 | An array entry or union member that is a submessage is decoded over initialised memory, and appended or selected |
| `Transparency.ZeroEndsMessage` | middleware/components/protocal_buffer/pb_decode.c:293-313 | A zero byte where a tag is due ends the message, and what follows is left unread |
| `Iterator.FieldIterator.Next` | middleware/components/protocal_buffer/pb_common.c:20-76 | One step forward or the wrap to the start; data address, size address, slot and required index stay functions of the position alone |
| `Iterator.FieldIterator.Find` | middleware/components/protocal_buffer/pb_common.c:78-95 | The circular search finds the entry with the tag if there is one, from any position, terminates, and on failure is back where it started |
| `RequiredFields.MarkSets` | middleware/components/protocal_buffer/pb_decode.c:950-955 | Setting a bit keeps the two bitmap words in step with the fields met so far |
| `RequiredFields.SeenIsRequiredMet` | middleware/components/protocal_buffer/pb_decode.c:961-1000 | All tracked indices were seen if and only if each of the first 64 required fields occurred |
| `RequiredFields.CheckBitmap` | middleware/components/protocal_buffer/pb_decode.c:961-1000 | The comparison of whole words and remaining bits succeeds if and only if each of the first 64 required fields occurred |
| `RequiredFields.FirstSixtyFour` | middleware/components/protocal_buffer/pb_decode.c:950-978 | Of required fields in a row exactly the first 64 are tracked |
| `RequiredFields.EmptyMessage` | middleware/components/protocal_buffer/pb_decode.c:961-1004 | The empty message decodes, to the defaults, if and only if no field is required |
| `Decoder.IStream.DecodeVarint32` | middleware/components/protocal_buffer/pb_decode.c:182-248 | The stream form reads what the fast decoder reads; cursor plus bytes left is unchanged on success |
| `Decoder.IStream.DecodeVarint` | middleware/components/protocal_buffer/pb_decode.c:250-271 | The same for the 64-bit decoder |
| `Decoder.MakeSubstream` | middleware/components/protocal_buffer/pb_decode.c:361-374 | The substream covers exactly the delimited bytes and the parent keeps exactly what follows them |
| `Decoder.CloseSubstream` | middleware/components/protocal_buffer/pb_decode.c:376-389 | The parent ends up right behind the substream, even if that was not read to its end |
| `Decoder.Skip` | middleware/components/protocal_buffer/pb_decode.c:273-326 | Skipping consumes exactly the bytes of a field of its wire type, or fails |
| `Decoder.DecodeScalarFrom` | middleware/components/protocal_buffer/pb_decode.c:1239-1411 | Reading a scalar from the stream gives the value and rest of its specification |
| `Decoder.DecodeHookFrom` | middleware/components/protocal_buffer/pb_decode.c:651-698 | A bound callback gets the field's bytes, an unbound one skips the field |
| `Decoder.SetToDefaults` | middleware/components/protocal_buffer/pb_decode.c:805-892 | The initialisation loop, with its handling of unions and nested messages, computes the defaults |
| `Decoder.DecodeRecord` | middleware/components/protocal_buffer/pb_decode.c:905-959 | One round of the loop: found and read into its slot with its bit set, or unknown and skipped |
| `Decoder.CountTracked` | middleware/components/protocal_buffer/pb_decode.c:961-978 | Seeking to the end of the descriptor counts the required fields, at most 64 |
| `Decoder.DecodeNoInitFrom` | middleware/components/protocal_buffer/pb_decode.c:894-1004 | The loop terminates because bytes left strictly fall; it succeeds if and only if every field parses and each of the first 64 required fields occurred; cursor plus bytes left is unchanged |
| `Decoder.DecodeFrom` | middleware/components/protocal_buffer/pb_decode.c:1006-1018 | Initialise, then decode: the function the round trip is about |
| `Decoder.DecodeDelimitedFrom` | middleware/components/protocal_buffer/pb_decode.c:1035-1048 | On success the cursor stands exactly after prefix and length, even if the inner message stopped early at a zero tag |
| `Encoder.OStream.Write` | middleware/components/protocal_buffer/pb_encode.c:72-119 | Appends the bytes if there is room, on a sizing stream counts them, and touches nothing before the cursor or beyond the end |
| `Encoder.VarintBuffer` | middleware/components/protocal_buffer/pb_encode.c:567-587 | The group loop leaves the varint in its ten-byte buffer |
| `Encoder.StringLength` | middleware/components/protocal_buffer/pb_encode.c:824-848 | The scan stops at the terminator or the end of the buffer |
| `Encoder.EncodeScalarTo` | middleware/components/protocal_buffer/pb_encode.c:727-863 | Writes the bytes of the scalar if it is representable and there is room, on real and sizing streams alike |
| `Encoder.EncodeSubmessage` | middleware/components/protocal_buffer/pb_encode.c:675-723 | The second pass writes exactly what the first pass counted: the size never changes in between |
| `Encoder.EncodeArrayTo` | middleware/components/protocal_buffer/pb_encode.c:126-210 | Packed arrays, sized first, and unpacked ones write exactly their encoding |
| `Encoder.EncodeMessage` | middleware/components/protocal_buffer/pb_encode.c:487-509 | Succeeds if and only if the message is encodable and fits, and then has written exactly its encoding; on a sizing stream it has counted exactly that many bytes |
| `Encoder.GetEncodedSize` | middleware/components/protocal_buffer/pb_encode.c:526-535 | The size is the number of bytes a large enough stream receives |
| `Framing.HeaderRoundTrip` | middleware/components/segment/mblue_segment.c:107-114 | The decoder of the header gives back method name and layout index, and stands at the arguments |
| `Framing.ArgumentsRoundTrip` | middleware/components/data_schema/pb_schema.c:223-345 | The parser of every layout gives back the integers and bytes that were encoded |
| `Framing.FramingRoundTrip` | middleware/components/segment/mblue_segment.c:107-120 | For every method name below 31 bytes, every layout but PB_113 and all arguments, the service gets the same index, integers and bytes, whatever lies behind the payload |
| `FramingWire.PayloadIsPublished` | middleware/components/data_schema/pb_schema.c:53-113 | A reader of the published format finds in every payload a header with the name in field 1 and the index in field 2, then, unless the index is 0, the integers in fields 1, 2, ... and the bytes in the next, and nothing else |
| `FramingWire.OneIntegerPayload` | ipc/mblue_global_ipc_method.c:37-38 | The call a(5) in layout PB_1 is 05 0A 01 61 10 01 02 08 05 |
| `FramingWire.IntegerAndBytesPayload` | middleware/components/data_schema/pb_schema.c:53-113 | The call a(5, xy) in layout PB_12, byte by byte |
| `Framing.SerializeIpc` | middleware/components/data_schema/pb_schema.c:53-113 | The computed buffer always suffices and holds exactly the payload, for all argument sizes a size_t can express |
| `Framing.ParseIpc` | middleware/components/segment/mblue_segment.c:90-120 | Header decoder and layout parser on one stream compute the function of the round trip |
| `MessagePool.AllocSound` | middleware/components/message/mblue_message.c:60-74 | Taking a message off the free list keeps the accounts, and nobody held it |
| `MessagePool.GetSound` | middleware/components/message/mblue_message.c:34-38 | One more holder and one more reference keep the accounts |
| `MessagePool.ReleaseSound` | middleware/components/message/mblue_message.c:130-141 | A released message was not free, and becomes free exactly with its last holder |
| `MessagePool.MessageList.Take` | middleware/components/message/mblue_message.c:60-74 | None if and only if count is zero; else the head of the free list |
| `MessagePool.MessageList.Put` | middleware/components/message/mblue_message.c:130-141 | The release as it updates count, list and reference |
| `MessagePool.MessageList.GetSequence` | middleware/components/message/mblue_message.c:24-32 | The next of 32768 sequence numbers |
| `BusSteps.StepKeeps` | middleware/components/system_bus/system_bus.c:158-370 | Each of the fifteen kinds of step of the protocol, from any state that satisfies the invariant, keeps it: ownership, calls in flight, waiting callers, pending entries, subscribers, history. The look after posting is a step of BusLook; who gets what is the subject of BusDelivery |
| `BusSteps.MatchFinds` | middleware/components/system_bus/system_bus.c:328-342 | The first entry with the reply's 15-bit sequence number is the entry of the very call that was answered, and there is one if and only if the call asked for an answer |
| `BusTheorems.RunInv` | middleware/components/system_bus/system_bus.c:158-370 | Every state of every run of the protocol satisfies the invariant; RightRunsProject says which runs with looks this covers |
| `BusLookProofs.LookRightIff` | ipc/ipc.c:91-103 | In every run, right or wrong, a synchronous caller's look at its posted message decides right if and only if the message has not been built again; any other poster's if and only if it has not been built again as a synchronous call. Then the caller waits on its own semaphore and the other poster does not wait |
| `BusLookProofs.LookKeepsIff` | ipc/ipc.c:96-103 | After right looks, the next look keeps the invariant with looks if and only if it decides right: a wrong one leaves a call open without its caller, a token without a call, or a task waiting on another's semaphore |
| `BusLookProofs.RunClean` | ipc/ipc.c:91-103 | While looks have decided right, every state satisfies the invariant: a task is inside a call exactly from building it to its own wake, with the call in hand, about to look, or waiting on its own semaphore |
| `BusLookProofs.RightRunsProject` | ipc/ipc.c:91-103 | While looks have decided right, every state is, looks and waits aside, one that a run of the protocol reaches: all results about its runs hold there |
| `BusLookPool.RunAny` | middleware/components/system_bus/system_bus.c:158-370 | In every run, whatever looks have decided, every state satisfies the invariant but for waiting callers: a wrong look spoils synchronous calls, and neither ownership nor the pairing of replies |
| `BusLookProofs.PendingOnlyInsideCall` | ipc/ipc.c:91-103 | While looks have decided right, the caller of a pending synchronous entry is inside that call, with no token, if and only if the entry is not the one the bus is just dropping; the entry's message is not free |
| `BusLookProofs.OneToken` | pal/task/mblue_stdtask.c:101-115 | While looks have decided right, a call semaphore holds at most one token, and only when its task's variable already holds the answer to the call it is inside of; nobody waits on another task's semaphore |
| `BusLookProofs.RepliedOnce` | middleware/components/system_bus/system_bus.c:309-370 | While looks have decided right, the answer on record for a call is the payload of exactly one step of the service |
| `BusLookProofs.CallerGetsItsReply` | ipc/ipc.c:91-103 | While looks decide right, whenever a task comes out of a synchronous call it gets the payload of the one reply to that very call |
| `BusLookBounds.SparingRunsAreRight` | ipc/ipc.c:91-103 | In a run that builds no message a task has still to look at, every look decides right |
| `BusLookBounds.PromptRunsAreRight` | middleware/components/message/mblue_message.c:60-82 | The free list is first in, first out: in a run in which never more builds come between a post and its look than messages were free at the post, every look decides right |
| `BusLookExample.TokenLeftBehind` | ipc/ipc.c:96-103 | A run in which a slow caller's message is built again as a signal; the caller takes it for its own, does not wait, and leaves its token behind |
| `BusLookExample.SlowLookBreaksCalls` | ipc/ipc.c:96-103 | The run goes on: the next call of that task returns a value nobody has replied, and its entry is pending while its caller is not inside the call |
| `BusTheorems.WokenBeforeDropped` | middleware/components/system_bus/system_bus.c:341-370 | In every run of the protocol, whenever the bus matches the reply to a synchronous call, the caller, who has looked by then, can wake and leave at once while its entry is still listed |
| `BusExample.EntryOutlivesCall` | middleware/components/system_bus/system_bus.c:341-370 | A run of eleven steps from the start, after which the caller has returned with the payload of its reply and its entry is still listed |
| `BusLookPool.NotifierFiresOnce` | middleware/components/system_bus/system_bus.c:354-359 | In every run a notifier has fired at most once, for an asynchronous call that was answered |
| `BusLookPool.ReplyMeetsItsCall` | middleware/components/system_bus/system_bus.c:328-342 | In every run, matching by sequence number finds the call that was answered |
| `BusLookPool.PoolAccounts` | middleware/components/message/mblue_message.c:34-82 | In every run count is the length of the free list, a free message is held nowhere, and any other is held in max(1, ref) places: queues, posts, handlers, entries, lost references |
| `BusLookPool.NeverPutTwice` | middleware/components/segment/mblue_segment.c:121-130 | In every run, whichever of bus and service releases first, no release hits a free message, and a message becomes free only by a release of its last holder |
| `BusLookPool.NeverFreeAgain` | pal/task/mblue_stdtask.c:160-163 | Once a reference to a message is lost, by a drop, an undecodable payload or a call nobody listens to, the message is free in no later state of the run |
| `BusLookPool.PoolShrinks` | middleware/components/message/mblue_message.c:60-82 | For any set of messages with lost references, the count of free messages stays at most the rest of the 32 |
| `BusLookPool.AtMostTwoReferences` | middleware/components/message/mblue_message.c:34-46 | In every run no message has more than two references, so the sixteen bits of the count suffice |
| `BusLookPool.LostForGood` | pal/task/mblue_stdtask.c:160-163 | In every run a call that lost its message before it got an entry, or that never had one, stays lost: no entry is its, no notifier fires for it, and as long as looks are right its caller never returns |
| `BusLookPool.NothingDangles` | pal/task/mblue_stdtask.c:117-164 | In every run what is built can be posted, what is queued can be taken, and every kind of message the bus has taken it can handle: no step relies on a dangling index |
| `BusMoves.LostExactly` | pal/task/mblue_stdtask.c:151-164 | A step loses a reference exactly if it posts to a full queue, forwards an asynchronous call without a notifier, or gives up a call whose payload does not decode |
| `BusDelivery.Genuine` | ipc/ipc_helper.c:35-89 | In every run, every message in use says what some earlier step built: a call its caller, kind, segment, arguments and number, a signal or subscription its sender, segment and payload, a reply its call and value |
| `BusDelivery.PostedWhole` | pal/task/mblue_stdtask.c:151-164 | In every run, what a task has built stays in its hand unchanged until its next post, which puts it at the end of the queue of the task that hosts its destination, or loses it if that queue is full, and touches no other queue |
| `BusDelivery.QueueInOrder` | pal/task/mblue_stdtask.c:134-146 | In every run, a queued message moves up by one whenever its task takes one, and stays as it was |
| `BusDelivery.SubscribersAre` | middleware/components/system_bus/system_bus.c:134-147 | In every run, the subscribers of a segment are those of the subscriptions to it that the bus has handled, in order; none is ever dropped |
| `BusDelivery.SignalServed` | middleware/components/system_bus/system_bus.c:158-208 | In every run, from taking up a signal about a segment to releasing it, the bus builds exactly one copy for each subscriber of that segment, in order: the c-th has the c-th subscriber as destination and kind, segment, sender and payload of the signal |
| `BusDelivery.CopyQueuedOrLost` | middleware/components/system_bus/system_bus.c:192-202 | In every run, each copy enters the queue of its subscriber's task with the next post of the bus, or is counted as lost if that is full |
| `BusDelivery.SubscriberGetsSignal` | middleware/components/system_bus/system_bus.c:192-202 | In every run, a copy queued behind j messages is what the subscriber's task handles after it has taken those j, with sender and payload of the signal |
| `BusDelivery.CallArrives` | middleware/components/system_bus/system_bus.c:224-297 | In every run, a call that a service's task takes was issued by an earlier step with this number, to a segment of this task and with these arguments |
| `SystemBus.SearchCalls` | middleware/components/system_bus/system_bus.c:328-339 | The walk of the list finds the first entry with the sequence number |
| `SystemBus.SystemBus.CallService` | middleware/components/system_bus/system_bus.c:224-297 | The handler of a call is the steps record and post, and keeps the invariant |
| `SystemBus.SystemBus.CallReturned` | middleware/components/system_bus/system_bus.c:309-375 | The handler of a reply is the steps match, drop and release, and keeps the invariant |
| `TaskQueue.Queue.Add` | middleware/components/queue/mblue_queue.c:80-102 | Appends, or leaves a full queue as it is and says so |
| `TaskQueue.Queue.Remove` | middleware/components/queue/mblue_queue.c:110-125 | Takes the oldest value, across the wrap of the buffer |
| `TaskQueue.Queue.Peek` | middleware/components/queue/mblue_queue.c:134-137 | The oldest value, or none |
| `TaskQueue.QueueMatchesSemaphore` | pal/task/mblue_stdtask.c:117-164 | In every run with any number of posters, queue size is tokens plus posts not yet signalled plus the token of a woken consumer: the consumer never removes from an empty queue |
| `TaskQueue.DeliveredInOrder` | pal/task/mblue_stdtask.c:134-146 | In every run what was accepted is what was delivered followed by what is queued |
| `TaskQueue.AcceptedIsOffered` | pal/task/mblue_stdtask.c:151-164 | In every run what was accepted is exactly what posters added while there was room, in order, and the consumer handles what it removed last |
| `RingBuffer.PowerOf2` | middleware/components/ring_buffer/mblue_fifo.h:25 | The mask test accepts only powers of two |
| `RingBuffer.PowersPass` | middleware/components/ring_buffer/mblue_fifo.h:25 | And it accepts all of them |
| `RingBuffer.MaskedSlot` | middleware/components/ring_buffer/mblue_fifo.c:88-90 | The masked 32-bit index is the remainder of the true byte count, however often the index has wrapped |
| `RingBuffer.Distance` | middleware/components/ring_buffer/mblue_fifo.c:57-60 | Used and free space computed in 32 bits are right across the wrap |
| `RingBuffer.Fifo.Put` | middleware/components/ring_buffer/mblue_fifo.c:75-102 | As much as fits is appended to the contents, in one or two copies |
| `RingBuffer.Fifo.Get` | middleware/components/ring_buffer/mblue_fifo.c:115-141 | The oldest bytes leave the contents and are returned in order |
| `RingProtocol.StepKeeps` | middleware/components/ring_buffer/mblue_fifo.c:75-141 | Each step of writer and reader, the two looks of the MIN macro at the other side's index included, keeps the invariant |
| `RingProtocol.ReadIsPrefix` | middleware/components/ring_buffer/mblue_fifo.c:75-141 | In every interleaving the bytes read are a prefix of the bytes written, at most size apart, and in - out is exactly the distance across the wrap |
| `RingProtocol.DeliveredInOrder` | middleware/components/ring_buffer/mblue_fifo.c:115-141 | What all gets returned, strung together, is a prefix of what all puts accepted |
| `RingProtocol.PutCopiesMemory` | middleware/components/ring_buffer/mblue_fifo.c:75-102 | In every run, what a put copies and publishes is the beginning of its caller's memory |
| `RingProtocol.CopiesStayInside` | middleware/components/ring_buffer/mblue_fifo.c:88-93 | Every byte of every copy has an index inside the buffer; a put is stuck between its looks exactly if the room it sees reaches beyond the caller's memory |
| `RingProtocol.PutAccepts` | middleware/components/ring_buffer/mblue_fifo.c:80 | A put accepts the request if the first look sees more room, and else all the room of the second look: at most what is free, the intended minimum if both looks agree, and more than was requested exactly when the reader has meanwhile made more room |
| `RingProtocol.GetDelivers` | middleware/components/ring_buffer/mblue_fifo.c:120 | A get takes what was asked for if the first look sees more bytes, and else all the bytes of the second look |
| `RingProtocol.MoreThanRequested` | middleware/common/mblue_comm.h:53 | A run in which a put of one byte into a full ring of two accepts two bytes, because the reader empties the ring between the looks |
| `RingProtocol.MoreThanAskedFor` | middleware/common/mblue_comm.h:53 | A run in which a get of at most one byte takes two, because the writer fills the ring between the looks |
| `Crc.TableAgrees` | util/crc/mblue_crc.c:21-86 | Each of the 256 table entries is what eight bit steps of the reflected polynomial 0x82F63B78 make of its index |
| `Crc.Shift8Linear` | util/crc/mblue_crc.c:97-103 | Eight bit steps are linear over xor |
| `Crc.RoundAgrees` | util/crc/mblue_crc.c:100-103 | One round of the table method is eight bit steps, for every state and byte |
| `Crc.CalculateCrc32` | util/crc/mblue_crc.c:89-106 | The table-driven loop computes the bit-at-a-time CRC32C of every buffer |
| `Crc.FeedInjective` | util/crc/mblue_crc.c:100-103 | Different states stay different under any bytes |
| `Crc.FourBytes` | util/crc/mblue_crc.c:100-103 | Runs over at most four bytes that meet started exactly as far apart as the bytes differ |
| `Crc.BurstDetected` | util/crc/mblue_crc.c:97-105 | Buffers that differ, but only inside a window of at most four bytes, have different checksums |
| `CrcVectors.Zeros` | util/crc/mblue_crc.c:89-106 | The checksum of 32 zero bytes is that of section B.4 of RFC 3720 |
| `CrcVectors.Ascending` | util/crc/mblue_crc.c:89-106 | The checksum of the bytes 0 to 31 is that of section B.4 of RFC 3720 |
| `Calendar.DayNumberInjective` | pal/clock/custom_clock.h:39-94 | A Gregorian date is determined by its day number |
| `Calendar.January` | pal/clock/custom_clock.h:24-32 | The closed formula for days of years agrees with adding up year lengths, for every year |
| `Calendar.FourCenturies` | pal/clock/custom_clock.h:24-32 | Any four hundred years have 146097 days |
| `Calendar.KnownDays` | pal/clock/custom_clock.h:24-32 | 2000 and 2024 have a 29 February, 2023 and 2100 have none, and the first of March of each has the day number the Gregorian calendar gives |
| `Calendar.FoundIsRight` | pal/clock/custom_clock.h:61-84 | Year, month and day that satisfy the conditions of the two loops are the date that many days after 1 January 1970 |
| `Calendar.ConvertUtcToCalendar` | pal/clock/custom_clock.h:39-94 | For every day the 32-bit year search can express, both loops terminate and the result is the date reached by walking the calendar day by day, its year in 16 bits, with the time of day that completes the input |
| `Calendar.SearchIsRightIff` | pal/clock/custom_clock.h:61-65 | The year search stops at the right year if and only if the rebased day number is at most 4294966941, the last day before the 32-bit comparison wraps |
| `Calendar.SearchNeverStops` | pal/clock/custom_clock.h:65 | From the rebased day number 2^32 on the search never stops: its test succeeds for every year |
| `Calendar.StoredIsExactIff` | pal/clock/custom_clock.h:86-91 | The stored date is right if and only if the day lies before the year 65536 |
| `Calendar.ConversionIsExact` | pal/clock/custom_clock.h:39-94 | Before the year 65536 the result is a valid Gregorian date that gives back exactly the input |
| `Calendar.ConversionInjective` | pal/clock/custom_clock.h:39-94 | Before the year 65536 different inputs have different results |
| `Calendar.EveryDateIsReached` | pal/clock/custom_clock.h:39-94 | Every valid date and time is the conversion of its number of seconds |
| `StateMachine.GetTransition` | middleware/components/state_machine/state_machine.c:157-182 | The first enabled transition before the terminator, or none if none is enabled |
| `StateMachine.Fsm.HandleEvent` | middleware/components/state_machine/state_machine.c:42-122 | Terminates on every chart without cycles, unless the search meets a null array; takes the first enabled transition of the nearest ancestor that has one, or changes nothing |
| `StateMachine.Fsm.Take` | middleware/components/state_machine/state_machine.c:71-117 | Ends in the leaf below the target, with the calls and the outcome that TakenCalls describes, or in the error state |
| `StateMachine.TakenCalls` | middleware/components/state_machine/state_machine.c:71-117 | For every handled event with a taken transition: it is for that event and its guard holds; of the calls added, exit comes before transition and this before entry; the exit action of the old state is among them if and only if it is left and has one, the transition action, with old and new state, if and only if there is one, the entry action of the new state if and only if it has one, and nothing else; the outcome is self loop, error state, final state or change accordingly. Without a target the error state is entered |
| `StateMachine.OtherCalls` | middleware/components/state_machine/state_machine.c:48-54 | Without a current state the machine enters its error state, calling at most its entry action; an event that nothing takes changes nothing |
| `StateMachine.AncestorsHaveArrays` | middleware/components/state_machine/state_machine.c:56-69 | If parents of states with an array have one, so have all ancestors |
| `StateMachine.SearchUp` | middleware/components/state_machine/state_machine.c:56-69 | The search upwards meets a null array if and only if an ancestor without one comes before any enabled transition; else it finds the transition that is taken, or nothing is enabled on the whole chain |
| `StateMachine.ArraysNeverNull` | middleware/components/state_machine/state_machine.c:157-165 | A chart with arrays above arrays never makes the search meet a null array |
| `StateMachine.UnsetGroupIsMet` | middleware/components/state_machine/state_machine.c:157-165 | A group without an array is met by exactly the events its member does not take |
| `StateMachine.HandlingDetermined` | middleware/components/state_machine/state_machine.c:42-122 | For any machine and event there is one result |
| `StateMachine.AlwaysAtLeaf` | middleware/components/state_machine/state_machine.c:76-81 | Over every sequence of events, from a leaf and with a leaf as error state, the machine is always in a leaf |
| `StateMachine.FinalAbsorbs` | middleware/components/state_machine/state_machine.c:53-54 | Over every sequence of events an absorbing state is never left and no action is called |
| `StateMachine.AbsorbsIff` | middleware/components/state_machine/state_machine.c:53-69 | A state absorbs every event if and only if it has no array or no event has a transition in its own array or an ancestor's |
| `StateMachine.CountZeroIsLeft` | middleware/components/state_machine/state_machine.c:112-115 | A state with transition count 0 that is left through its group's array |
| `StateMachine.RunDetermined` | middleware/components/state_machine/state_machine.c:42-122 | A run is determined by its start and its events |
| `StateMachine.SelfLoopActions` | middleware/components/state_machine/state_machine.c:83-99 | Whenever handling an event leads back to the same state, the calls it made hold no exit action, and the state's entry action if and only if it has one |
| `StateMachine.SelfLoopEnters` | middleware/components/state_machine/state_machine.c:94-99 | A chart and an event that lead back to the same state and call its entry action |
| `EventQueue.TestIsSearch` | middleware/components/event_queue/event_queue.c:71-87 | For a single-bit type, the bit test answers what a search of the list would |
| `EventQueue.DeleteAgrees` | middleware/components/event_queue/event_queue.c:149-172 | After a deletion bitmap and list agree, the type is gone and all others are untouched |
| `EventQueue.RescheduleLeavesOne` | middleware/components/event_queue/event_helper.c:101-109 | Rescheduling leaves exactly one element of the type: the last, with the period asked for, the callback in the wakeup slot and no other, and a timer if and only if the period is neither 0 nor 0xFFFFFFFF; the others are as they were |
| `EventQueue.ScheduleAppends` | middleware/components/event_queue/event_helper.c:79-91 | A pending type is left alone; any other is queued last with the period asked for, the callback in the wakeup slot and no other, and a timer if and only if the period is neither 0 nor 0xFFFFFFFF |
| `EventQueue.WithoutStays` | middleware/components/event_queue/event_queue.c:149-172 | A deletion keeps exactly the elements of other types, in their order |
| `EventQueue.VerdictByCases` | middleware/components/event_queue/event_queue.c:198-228 | Which callback decides whether an element is done: wakeup, or the slot it names; without it finish, without that cancel; without any the element is done |
| `EventQueue.BitmapAgrees` | middleware/components/event_queue/event_queue.c:95-233 | After any sequence of operations the bitmap is the or of the queued types, no type is queued twice, and the bit test is the list search |
| `EventQueue.EventQueueHead.GetElement` | middleware/components/event_queue/event_queue.c:71-87 | Finds an element of the type if and only if there is one |
| `EventQueue.EventQueueHead.AddEvent` | middleware/components/event_queue/event_queue.c:95-142 | Refuses a pending type; else appends the element as it is, with a timer if and only if its period is neither 0 nor 0xFFFFFFFF, sets its bit, and answers what the start callback answers |
| `EventQueue.EventQueueHead.DeleteEvent` | middleware/components/event_queue/event_queue.c:149-172 | Removes the elements of the type and clears its bit, and says whether there was one |
| `EventQueue.EventQueueHead.Wakeup` | middleware/components/event_queue/event_queue.c:185-233 | Removes the element exactly when its callbacks answer that it is done |
| `EventQueue.EventQueueHead.ScheduleDelayed` | middleware/components/event_queue/event_helper.c:79-91 | Queues the element of ScheduleAppends last, or leaves a pending type alone |
| `EventQueue.EventQueueHead.RescheduleDelayed` | middleware/components/event_queue/event_helper.c:101-109 | Delete if pending, then schedule: the last element has the period and the callback asked for, the others of another type are as before |
| `EventQueue.EventQueueHead.CancelDelayed` | middleware/components/event_queue/event_helper.c:111-117 | Deletes a pending type with the result of the deletion, and refuses any other |

## Left out

- Pointer fields, extensions, dynamic allocation and the 32-bit-only build of the codec: not compiled in.
- Callbacks other than the bundle callbacks of `pb_schema.c`, and those for required and optional bytes and strings only.
- Dead bytes: what lies behind a string's terminator, in unused array cells or in the inactive members of a
  union. For a scalar wire type the bundle callback would keep a pointer to a buffer that is gone; the model keeps the bytes.
- Bodies of 2^32 bytes and more are encoding errors in the model; value trees of the wrong shape, which C's types exclude, are too.
- Decoder.DecodeFrom: where the cursor stands after a failed decode is not stated, only that no more bytes are left than before.
- Encoder.EncodeMessage: what a stream holds after a failed encode is not stated beyond the frame.
- Negative integers in tagged words.
- Error clean-up after failed allocation in the serialiser, and the freeing of payloads; broadcasts to several subscribers copy the message record only, as the code does.
- Liveness: messages may be dropped, so nothing is said about calls that must end.
- Framing.ParseIpc: a payload with layout PB_113 is answered with nothing, where the code hands out a byte pointer without a length.
- Calendar.ConvertUtcToCalendar: the 354 day numbers between the last day the year search can express and 2^32, where the search passes the right year and may stop at a wrong one.
- Queue allocation and its limit of 128 items, timers, the list and heap wrappers, the service lookup by name, logging, the network proxy, the persistence manager and the hash map: thin wrappers, I/O or unfinished.
