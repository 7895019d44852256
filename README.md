# vessels protocol runtime and keyboard codes, in Dafny

This project models two parts of the `vessels` engine.

**The `#[protocol]` runtime.** The attribute turns a service trait into:
- a validated interface description, with one `Procedure` per method;
- a `Call` message (one variant per method, plus a relay variant) and a
  `Response` message, both with generated serialization;
- a client stub, `Concrete_Remote`, that queues Calls and routes the
  Responses that come back to the call that is waiting for them;
- a dispatch shim, `Protocol_Shim`, that takes Calls, runs the local
  implementation and merges its outputs into one stream of Responses.

The model is one generic runtime over an interface `seq<Procedure>`:
- a method is named by its index in that sequence;
- argument and result values are a type parameter `V`;
- messages are written as sequences of typed elements (`Num`, `Val`,
  `Nested`); the structured-data codec that turns those into bytes is not
  modelled;
- the `Response` message has one variant per method, each holding an item
  of the method's return value, the fragment index and the call id
  (`generate_return_variants`); its item is a value of `V`;
- how an argument or result value is written and read back is a
  `ValueCodec` parameter (`write`, `read`): a numeric value may be written as
  a number element, as serde writes a `u64`. The round-trip lemmas assume
  only that every value reads back as itself (`Coherent`).

Files:
- `protocol_types.dfy`: the shared shapes.
- `validator.dfy`: the trait check.
  - As functions that return the first error found.
  - As the loop the attribute runs (`Protocol`, with its inner loop
    `ScanParameters`), proved equal to those functions.
  - Against an independent description of which traits are accepted and
    what they become.
- `codec.dfy`: the wire codec.
- `remote.dfy`: the stub, as a class with `queue`, `ids`, `lastId` and
  `channels` fields.
- `shim.dfy`: the shim, as a class whose merged stream is a list of
  per-call streams.
- `scenario.dfy`: one stub and one shim connected back to back, driving the
  example service of `src/main.rs`.

**`parse_code`.** This maps a DOM `KeyboardEvent.code` value (a key code
value from the W3C UI Events KeyboardEvent code specification) to the
engine's `Key`. It is modelled in `keyboard.dfy`. The source's single
`match` of 115 arms and a default is written as six functions chained in
table order:
- `ParseCode`, `ParseLetterCode`, `ParseModifierCode`, `ParseFunctionCode`,
  `ParseKeypadCode`, `ParseNavigationCode`;
- each holds a run of consecutive arms;
- each passes any other code on through its `_` arm;
- the last one returns `Unknown`.

A code is compared with the arms in the same order as in the source, so
the lookup is the same as `keyboard.rs:15-132`. Splitting the match keeps
each proof about it small.

Integers are mathematical. `u64` is the subset `0 <= x < 2^64`. The one
place the source can wrap (`fetch_add` on the id counter) is written out as
`% 2^64`.

## Model

| member | source | states |
|---|---|---|
| ProtocolTypes.CallVariantFields | vessels_derive/src/protocol.rs:23-59 | a method's Call variant holds its argument types in order, then one `u64` (the call id) |
| ProtocolTypes.CallVariants | vessels_derive/src/protocol.rs:23-59 | there is one Call variant per method, in declaration order, each with that method's fields |
| Codec.ResponseFieldPositions | vessels_derive/src/protocol.rs:211-216 | the serializer writes the call id at position 0, idx at 1 and the data at 2, while the visitor (269-283, 576) takes variant and call id from position 0, the data from 1 and idx from 2: idx and data trade places |
| Validator.ScanArg | vessels_derive/src/protocol.rs:761-795 | a parameter is accepted iff it is `&self`, `&mut self` or typed; only a typed one adds its type, at the end |
| Validator.ScanArgs | vessels_derive/src/protocol.rs:758-796 | an accepted parameter list yields at most one type per parameter, the receiver taking one; a mutable receiver is a receiver |
| Validator.CheckMethod | vessels_derive/src/protocol.rs:708-803 | an accepted method keeps its name, which is neither `remote` nor `into_protocol`, and has fewer argument types than parameters |
| Validator.CheckItem | vessels_derive/src/protocol.rs:701-811 | only a method item is accepted, and it keeps its name |
| Validator.CheckItems | vessels_derive/src/protocol.rs:701-811 | accepted items give one Procedure per item, each a method of the same name; an error names an item by an index within the list |
| Validator.Validate | vessels_derive/src/protocol.rs:677-817 | an accepted trait had no attribute arguments and gives one Procedure per item, at least one |
| Validator.ScanParameters | vessels_derive/src/protocol.rs:758-796 | the parameter loop returns exactly what the parameter scan specifies: the first rejected parameter's error, or the captured types with the receiver flags |
| Validator.Protocol | vessels_derive/src/protocol.rs:677-817 | the check as a loop with early returns gives exactly the result of `Validate`, for every input |
| Validator.ScanArgsMeaning | vessels_derive/src/protocol.rs:758-796 | a parameter list is accepted iff every parameter is `&self`, `&mut self` or captured; it then yields the captured types in order, a receiver flag (some `&self`/`&mut self`) and a mutable-receiver flag (some `&mut self`) |
| Validator.CheckMethodMeaning | vessels_derive/src/protocol.rs:708-803 | a method is accepted iff it is not named `remote` or `into_protocol`, has no default body, generics or where clause, only acceptable parameters and a receiver; it then becomes its expected Procedure |
| Validator.CheckItemsMeaning | vessels_derive/src/protocol.rs:701-811 | the items give one Procedure each, in order, iff every item is accepted; otherwise the error names the first rejected item, by index, with that item's own error |
| Validator.ValidateMeaning | vessels_derive/src/protocol.rs:677-817 | the attribute accepts exactly the traits with no arguments, no generics, no supertraits and at least one method, every one acceptable; the interface then has one expected Procedure per method, in order, with return type `()` when none is written |
| Validator.ValidateErrorOrder | vessels_derive/src/protocol.rs:678-698 | arguments, generics and supertraits are reported before anything else, in that order; "no methods" is reported iff every other check passes and there are no items; an item error is the first failing item's own error |
| Codec.WriteVals | vessels_derive/src/protocol.rs:172-197 | the arguments are written one element each, in order, through the value codec |
| Codec.EncodeResponse | vessels_derive/src/protocol.rs:211-216 | a Response declares exactly the number of elements it writes |
| Codec.EncodeCall | vessels_derive/src/protocol.rs:172-197 | every Call is written with a leading number: its method index, or the method count for the relay variant (513-518), which then writes the nested Response |
| Codec.DecodeCall | vessels_derive/src/protocol.rs:232-259 | whatever the Call visitor (index read at 540) accepts is a Call the interface can hold: a method index with the right number of arguments, or a relay of a Response of one of its methods |
| Codec.DecodeResponse | vessels_derive/src/protocol.rs:269-283 | whatever the Response visitor (index read at 576) accepts belongs to a method of the interface, and its call id is that method's index |
| Codec.ReadVals | vessels_derive/src/protocol.rs:236-240 | a successful read of `n` values consumed exactly `n` value elements starting at `from`, and returned them in order |
| Codec.EncodeMethodCallShape | vessels_derive/src/protocol.rs:172-197 | a method Call is written as its index, its arguments in order and its id; the declared length equals the number of elements, one more than the variant's fields |
| Codec.MethodCallRoundTrip | vessels_derive/src/protocol.rs:232-259 | decoding the encoding of any well-formed method Call gives that Call back, whatever elements follow it |
| Codec.TruncatedMethodCallRejected | vessels_derive/src/protocol.rs:236-240 | any proper prefix of an encoded method Call that still holds the index is rejected with `invalid_length` at the first missing position |
| Codec.TruncatedValsRejected | vessels_derive/src/protocol.rs:236-240 | a run of values that stops before `n` is read reports the position where it stops |
| Codec.NonMethodIndexIsRelay | vessels_derive/src/protocol.rs:252-257 | a leading index that names no method can only decode as a relay Call; it does so iff the second element is a nested Response that decodes, and then it wraps that Response |
| Codec.RelayCallDecodesThroughResponse | vessels_derive/src/protocol.rs:513-518 | a relay Call is written as the method count and then the nested Response; decoding it is decoding that Response, wrapped |
| Codec.DecodeResponseAccepts | vessels_derive/src/protocol.rs:269-283 | the Response visitor accepts exactly the frames `[method index, element that reads as a value, number, ...]`; the first element becomes both the variant and the call id, the second the data, the third idx |
| Codec.DecodeResponseRejectsIndex | vessels_derive/src/protocol.rs:281 | a leading number at or past the method count is `invalid_length(0)` |
| Codec.EncodedResponseMisread | vessels_derive/src/protocol.rs:211-216 | as written, decoding an encoded Response fails with `invalid_length(0)` when its call id is no method index; otherwise it succeeds iff idx reads as a value and the data is written as a number, and then gives the variant of the call id, data read from idx and idx taken from the data (the two swapped); it gives the Response back only if its variant is its id and its data is written as its idx |
| Codec.EncodedResponseRejected | vessels_derive/src/protocol.rs:211-216 | as written, when the item type reads no number as a value, every encoded Response is rejected: a type error for a method index, `invalid_length(0)` otherwise |
| Codec.NumericResponseSwapped | vessels_derive/src/protocol.rs:211-216 | as written, with a `u64` item the Response `m0(5, 0, 0)` is read back as `m0(0, 5, 0)`, without an error |
| Codec.RelayCallMisread | vessels_derive/src/protocol.rs:513-518 | as written, an encoded relay Call decodes to itself only in that same degenerate case |
| Codec.RelayLengthHintMismatch | vessels_derive/src/protocol.rs:514-516 | as written, the relay variant declares 4 elements and writes 2 |
| Codec.CorrectedCallLengthHint | vessels_derive/src/protocol.rs:513-518 | with the hint corrected, every Call declares exactly the number of elements it writes |
| Codec.CorrectedDecodeResponse | vessels_derive/src/protocol.rs:269-283 | a visitor that reads `[id, idx, data]` accepts only Responses of a method of the interface whose idx is their method index |
| Codec.CorrectedResponseRoundTrip | vessels_derive/src/protocol.rs:211-216 | a visitor that reads the fields in the order they are written gives back every Response the shim produces |
| RemoteStub.Allocate | vessels_derive/src/protocol.rs:431-438 | with a non-empty pool, the id is the last one pushed and it is removed, with the counter unchanged; otherwise the id is the counter, which advances by one modulo 2^64 |
| RemoteStub.AllocateDrainsPoolLifo | vessels_derive/src/protocol.rs:433-434 | draining the pool hands its ids out in reverse order of pushing |
| RemoteStub.AllocateFromCounter | vessels_derive/src/protocol.rs:435-436 | with an empty pool, the i-th allocation returns the counter plus i, modulo 2^64 |
| RemoteStub.AllocatedIdsDistinct | vessels_derive/src/protocol.rs:427-438 | starting from an empty pool, no id is handed out twice within 2^64 allocations |
| RemoteStub.Route | vessels_derive/src/protocol.rs:360-368 | one Response adds or removes no channel, changes no channel's method and touches no channel but the one under its call id |
| RemoteStub.RouteAll | vessels_derive/src/protocol.rs:360-368 | a run of Responses adds or removes no channel, changes no channel's method, and leaves a channel that none of them addresses as it was |
| RemoteStub.RouteAllDelivers | vessels_derive/src/protocol.rs:360-368 | after any run of Responses, each registered channel holds its old data followed by exactly the data addressed to its call id and method, in arrival order; no channel is added or removed |
| RemoteStub.ConcreteRemote.constructor | vessels_derive/src/protocol.rs:422-430 | a new stub has an empty queue and pool, the counter at 0 and no channels |
| RemoteStub.ConcreteRemote.NextId | vessels_derive/src/protocol.rs:431-438 | the id and the new pool and counter are those `Allocate` gives for the old ones |
| RemoteStub.ConcreteRemote.Invoke | vessels_derive/src/protocol.rs:153-159 | a remote call allocates an id, registers an empty channel of the method under it and appends `k(args, id)` to the queue; everything else is kept. Until 2^64 calls, the id is the number of earlier calls and no registered channel holds it, so no pending call is overwritten |
| RemoteStub.ConcreteRemote.Poll | vessels_derive/src/protocol.rs:447-456 | the stub yields its queued Calls oldest first, and is not ready when the queue is empty |
| RemoteStub.ConcreteRemote.StartSend | vessels_derive/src/protocol.rs:463-466 | the data of a Response is appended to the channel under its call id when that channel belongs to its method, and is dropped otherwise; no other channel changes and none is added |
| DispatchShim.Tagged | vessels_derive/src/protocol.rs:670 | item `i` of a call's output becomes the Response `k(item, k, id)`, so the middle field is the method index |
| DispatchShim.Head | vessels_derive/src/protocol.rs:670 | the Response a stream yields carries the stream's method index as both its variant and its idx, and the stream's call id |
| DispatchShim.HeadIsFirstTagged | vessels_derive/src/protocol.rs:670 | yielding a stream's next item gives the first Response that call still owes and leaves the rest in order |
| DispatchShim.ProtocolShim.constructor | vessels_derive/src/protocol.rs:590-598 | a new shim's merged stream has no streams in it |
| DispatchShim.ProtocolShim.StartSend | vessels_derive/src/protocol.rs:603-613 | a method Call adds its tagged output stream to the merge and keeps every stream already there; a relay Call changes nothing |
| DispatchShim.ProtocolShim.Poll | vessels_derive/src/protocol.rs:622-628 | the shim is not ready iff every stream is drained; otherwise it yields the next item of some non-empty stream, with its tags, and that stream alone advances |
| Scenario.CallAndReply | src/main.rs:47-57 | on the example service, calling `test(arg)` sends `test(arg, 0)`, the shim answers `test(x, 0, 0)`, and the pending value of the call receives `x` and nothing else |
| Keyboard.UnknownOutsideTable | src/targets/web/input/keyboard.rs:14-131 | `ParseCode`: every code outside the table is `Key::Unknown` |
| Keyboard.ParseLetterCodeKnown | src/targets/web/input/keyboard.rs:31-56 | `ParseLetterCode`: a code it does not send to `Unknown` is a letter code or a code of a later group |
| Keyboard.ParseModifierCodeKnown | src/targets/web/input/keyboard.rs:57-76 | `ParseModifierCode`: a code it does not send to `Unknown` is one of its own codes or of a later group |
| Keyboard.ParseFunctionCodeKnown | src/targets/web/input/keyboard.rs:77-100 | `ParseFunctionCode`: a code it does not send to `Unknown` is `F1`..`F24` or a code of a later group |
| Keyboard.ParseKeypadCodeKnown | src/targets/web/input/keyboard.rs:101-118 | `ParseKeypadCode`: a code it does not send to `Unknown` is one of its own codes or of the navigation group |
| Keyboard.ParseNavigationCodeKnown | src/targets/web/input/keyboard.rs:119-131 | `ParseNavigationCode`: a code it does not send to `Unknown` is one of its own codes |
| Keyboard.TopRowCodesKnown | src/targets/web/input/keyboard.rs:16-30 | no code of the top row is `Unknown` |
| Keyboard.LetterCodesKnown | src/targets/web/input/keyboard.rs:31-56 | no letter code is `Unknown` |
| Keyboard.MiddleCodesKnown | src/targets/web/input/keyboard.rs:57-76 | no code of the middle group is `Unknown` |
| Keyboard.FunctionCodesKnown | src/targets/web/input/keyboard.rs:77-100 | no function-key code is `Unknown` |
| Keyboard.KeypadCodesKnown | src/targets/web/input/keyboard.rs:101-118 | no code of the keypad group is `Unknown` |
| Keyboard.NavigationCodesKnown | src/targets/web/input/keyboard.rs:119-130 | no code of the navigation group is `Unknown` |
| Keyboard.ParseCodeInverse | src/targets/web/input/keyboard.rs:14-131 | every code of the table is given back by `CodeOf` from its key |
| Keyboard.ParseCodeInjective | src/targets/web/input/keyboard.rs:14-131 | distinct codes of the table map to distinct keys |
| Keyboard.DigitRow | src/targets/web/input/keyboard.rs:17-26 | `Digit0`..`Digit9` map to `Number` `Zero`..`Nine`, in order |
| Keyboard.LetterKeys | src/targets/web/input/keyboard.rs:31-56 | `KeyX` maps to `Alpha::X`, for each of the 26 letters |
| Keyboard.ModifierSides | src/targets/web/input/keyboard.rs:60-74 | the `Left`/`Right` suffix of `Control`, `Shift`, `Alt` and `Meta` selects `Location::Left`/`Location::Right` |
| Keyboard.FunctionKeys | src/targets/web/input/keyboard.rs:77-100 | `F1`..`F24` map to `Function` `F1`..`F24` |
| Keyboard.NumpadDigits | src/targets/web/input/keyboard.rs:103-112 | `Numpad0`..`Numpad9` map to `Numpad::Number(Zero..Nine)`, keys distinct from the digit row's |
| Keyboard.NumpadOperators | src/targets/web/input/keyboard.rs:70-117 | the keypad operators and keypad Enter map to `Numpad` keys, distinct from `Equal` and `Enter` |
| Keyboard.ArrowKeys | src/targets/web/input/keyboard.rs:123-126 | the four arrow codes map to the four `Arrow` directions |
| Keyboard.PlainKeys | src/targets/web/input/keyboard.rs:16-130 | each of the remaining 28 codes maps to its own key without a parameter; none maps to `Unknown` |

## Left out

- Token-stream construction is not modelled: `quote!`, `syn` parsing, spans and the `compile_error!` texts. Each rejection is an `ItemError` or `ProtocolError` value instead.
- A trait input that does not parse as a trait is not modelled.
- The `_..._AssertValue` and `_..._AssertSerializeDeserialize` marker structs are not modelled. They are compile-time trait-bound assertions.
- The `prefix` naming of generated types is not modelled.
- The `DefaultHasher` protocol hash (`vessels_derive/src/protocol.rs:861-863`) is not modelled. It is a foreign hash over token text.
- `Arc`/`RwLock` locking, `AtomicU64` atomicity and `AtomicTask` register/notify wake-ups are not modelled. The fields are plain state updated one call at a time, so the model does not cover concurrency or wake-up discipline.
- `Value::construct`/`deconstruct`, `Context` and `AsKind` are not modelled. Their bodies are not part of this model. In their place:
  - the stub's pending value is the channel registered under the returned id;
  - the items the implementation's value decomposes into are the `output` parameter of `ProtocolShim.StartSend`.
- The serde data format (bytes, length prefixes) is not modelled. Messages end at the typed element sequence.
- `generate_shim_forward` (`vessels_derive/src/protocol.rs:313-318`) is not modelled. It only delegates to `inner`.
- The shim's `channels` field is not modelled. The code shown never reads or writes it.
- `select` fairness in the shim's merged stream is not modelled. `Poll` may take from any stream that has an item.
- Exhausted per-call streams are not modelled as removed. In the source they stay inside the `select` chain; in the model they stay in `streams` with no items.
- Id release is not modelled, because nothing in the code shown pushes an id back into `ids`.
- `src/main.rs` and `examples/server.rs` are not modelled beyond the call/reply round of `Scenario.CallAndReply`. The executor and the network server are I/O.
- The DOM listeners and handler registration in `keyboard.rs` (135-177) are not modelled. They are `stdweb` UI bindings.
- The `Key` enum's own declaration is not part of this model. The datatypes have exactly the variants `parse_code` produces.
- The facts about `ParseCode` and the functions it chains to are lemmas, not postconditions of those functions. As postconditions they are beyond the solver's resource limit.
- One `ValueCodec` serves every argument and result position of an interface. Differences between the value types of different methods are not modelled; a codec that writes some values as numbers stands for a numeric argument or item type.
- RemoteStub.ConcreteRemote.StartSend: assumes the sub-channel accepts every item. In the source, `start_send(data).unwrap()` (`vessels_derive/src/protocol.rs:366`) panics on an error and drops the item on `NotReady`; neither case is modelled.
- RemoteStub.RouteAllDelivers: assumes, like `StartSend`, that each sub-channel accepts every item routed to it.
- RemoteStub.ConcreteRemote.Invoke: promises a fresh id only for the first 2^64 calls. After that the counter wraps, an id can repeat and the new channel replaces the old one, as in the source.
- RemoteStub.AllocatedIdsDistinct: holds only for up to 2^64 allocations from an empty pool. Past that the counter wraps and ids repeat, as `fetch_add` does.
- RemoteStub.ConcreteRemote.Invoke: takes the arguments as a sequence whose length matches the method's argument types. The generated stub's typed signature guarantees this.

## Findings

| source | as written | input that shows it | evidently intended | confidence | as-written member | corrected member |
|---|---|---|---|---|---|---|
| vessels_derive/src/protocol.rs:513-518 | the relay variant calls `serialize_seq(Some(4))` and then writes two elements | any relay Call, e.g. `Relay(Response(0, x, 0, 0))` on a one-method interface | a declared length of 2, the number of elements written | not executed | Codec.RelayLengthHintMismatch | Codec.CorrectedCallLengthHint |
| vessels_derive/src/protocol.rs:211-216 | the Response serializer writes `[id, idx, data]`, but the visitor (269-283, 576) reads a method index first, then the data, then idx, so data and idx are swapped and the call id becomes the method | a one-method interface returning `u64`: `m0(5, 0, 0)` is written as `[0, 0, 5]` and read back as `m0(0, 5, 0)`; with a non-numeric item type, decoding fails with a type error | the visitor reads `[id, idx, data]` and takes the variant from `idx`, which the shim fills with the method index | not executed | Codec.NumericResponseSwapped | Codec.CorrectedResponseRoundTrip |
