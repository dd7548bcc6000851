# Delivery-layer TCP service, schema queries and two expression-language functions

This project models four pieces of an observability-data pipeline and proves properties of them:

- **The TCP network service** (`TcpNet`, `tcp.dfy`). A `TcpConnector` resolves its host and takes the first address. It creates a socket of that address's family, tries to apply the send-buffer size, and dials. `connect_backoff` repeats `connect` until one attempt succeeds. Each failure emits an error event, then sleeps before the next attempt. `TcpService` is a class whose `state` field moves through `Disconnected`, `Connecting`, `Connected(stream)` and `Sending`. `PollReady` is the source's loop, proved against the specification function `PollReadySpec`. `Call` moves the stream out of the state. The ownership of the stream is proved over a `System`: the service, the in-flight send future and the one-shot channel between them. No interleaving of polls, calls, completed writes and dropped futures ever puts the stream in two places.
- **The configuration-schema query engine** (`ConfigSchema`, `schema.dfy`). `Run` is the source's labelled loop over the definitions, proved equal to the specification function `Matching`. `RunSingle` sorts the outcome into zero, one or many matches. The module also models `schema_type`, `get_attributes`, `get_attribute`, `has_flag_attribute` and `ComponentSchema::try_from`.
- **`push`** (`VrlPush`, `vrl_push.dfy`) appends an item to an array, and **`float`** (`VrlFloat`, `vrl_float.dfy`) returns a float unchanged. Both fail on any other value. Each comes with its static type definition, which is proved sound against the runtime function. `VrlValue` (`vrl_value.dfy`) holds the values, kinds and type definitions they share.

Futures, DNS, sockets, writes and the channel are not executed. What they answer is a parameter: `ConnectEnv` for one connect attempt, `ConnectPoll` and `HandoffPoll` for what a poll of the connect future or the receiver returns, and `WriteOutcome` for a write.

## Model

| member | source | states |
|---|---|---|
| `TcpNet.Connect` | src/sinks/util/service/net/tcp.rs:89-114 | a failed lookup gives `FailedToResolve` and an empty one gives `NoAddresses`. A failed socket creation gives `FailedToConfigure` with its error, and a failed dial on a created socket gives `FailedToConnect` with its error. Success happens exactly when the lookup is non-empty, the socket for the first address's family is created and the dial succeeds. It then returns that address with the configured port, and the dialed stream. The send-buffer warning is logged exactly when the size is configured and rejected after a socket was made |
| `TcpNet.SendBufferRejectionIsNotFatal` | src/sinks/util/service/net/tcp.rs:105-109 | a rejected send-buffer size never changes what `connect` returns |
| `TcpNet.Healthcheck` | src/sinks/util/service/net/tcp.rs:139-142 | the health check passes exactly when `connect` succeeds, and otherwise reports `connect`'s error |
| `TcpNet.FirstSuccess` | src/sinks/util/service/net/tcp.rs:122-129 | the index of the attempt at which the retry loop exits: it succeeds and every earlier one fails |
| `TcpNet.ConnectBackoff` | src/sinks/util/service/net/tcp.rs:116-136 | the loop yields a stream exactly when some attempt connects. That stream comes from the first such attempt, and before it come one error event and one sleep per earlier failure. When every attempt fails it has not returned, and the events are those of all the failures |
| `TcpNet.FailureEventsShape` | src/sinks/util/service/net/tcp.rs:130-133 | failed attempt `j` contributes an error event carrying its error, then the `j`-th backoff sleep |
| `TcpNet.PollStep` | src/sinks/util/service/net/tcp.rs:189-212 | each turn of the `poll_ready` loop that continues strictly lowers the state's rank, so the loop ends |
| `TcpNet.PollReadyOutcomes` | src/sinks/util/service/net/tcp.rs:187-215 | `poll_ready` answers `Ready(Ok)` exactly when it leaves the state `Connected`. A pending answer leaves it `Connecting` or `Sending`. The only error is `ServiceStreamChannelClosed`, from `Sending` with a closed channel, and the state stays `Sending` |
| `TcpNet.PollReadyStreamProvenance` | src/sinks/util/service/net/tcp.rs:196-208 | a stream that `poll_ready` leaves `Connected` was already there, came back over the channel, or was produced by the connect future |
| `TcpNet.PollReadyLeavesSending` | src/sinks/util/service/net/tcp.rs:201-211 | the state stays `Sending` exactly when it was `Sending` and the channel delivered nothing |
| `TcpNet.PollReadyTransitions` | src/sinks/util/service/net/tcp.rs:188-213 | the transition table. `Disconnected` goes to `Connecting` and polls the new future. `Connecting` stays put while pending and becomes `Connected` when ready. `Connected` is ready at once. `Sending` becomes `Connected(s)` on `Some(s)`, behaves as `Disconnected` on `None`, and fails when the channel is closed |
| `TcpNet.CallSpec` | src/sinks/util/service/net/tcp.rs:217-224 | a call writes exactly when the state is `Connected`, and the write owns that state's stream and the buffer. In any other state it panics with "poll_ready must be called first" |
| `TcpNet.CompleteSend` | src/sinks/util/service/net/tcp.rs:225-243 | a successful write answers `Ok(buf.len())` and hands the stream back. A failed write answers `FailedToSend` and hands back `None` |
| `TcpNet.ReadyThenCallWrites` | src/sinks/util/service/net/tcp.rs:200-223 | a call made right after `poll_ready` answered ready never panics |
| `TcpNet.AfterSuccessfulSend` | src/sinks/util/service/net/tcp.rs:226-233 | after a successful write, the next `poll_ready` is ready and `Connected` with the same stream |
| `TcpNet.AfterFailedSend` | src/sinks/util/service/net/tcp.rs:234-241 | after a failed write, the next `poll_ready` goes through `Disconnected` to a fresh `Connecting`. It is either pending there, or `Connected` to the stream that new connect produced |
| `TcpNet.TcpService.constructor` | src/sinks/util/service/net/tcp.rs:174-179 | a new service starts `Disconnected` with the given connector |
| `TcpNet.TcpService.PollReady` | src/sinks/util/service/net/tcp.rs:187-215 | the loop returns and leaves behind what `PollReadySpec` says. It answers ready exactly when the new state is `Connected` |
| `TcpNet.TcpService.Call` | src/sinks/util/service/net/tcp.rs:217-224 | the state becomes `Sending` in every case, since it is replaced before the check. The returned future is `CallSpec`'s, so it writes exactly when the old state was `Connected` |
| `TcpNet.InitialInv` | src/sinks/util/service/net/tcp.rs:174-179 | a new service, with no future in flight and no channel, satisfies the ownership invariant and holds no stream |
| `TcpNet.InvSingleOwner` | src/sinks/util/service/net/tcp.rs:150-166 | under the invariant, at most one of the state, the in-flight future and the channel holds a stream. A `Connected` state excludes both of the others |
| `TcpNet.StepPreservesInv` | src/sinks/util/service/net/tcp.rs:187-243 | polling, calling (also when it panics), finishing a write and dropping a send future each keep the invariant and single ownership |
| `TcpNet.RunPreservesInv` | src/sinks/util/service/net/tcp.rs:187-243 | any sequence of those events keeps the invariant |
| `TcpNet.SingleOwnerFromStart` | src/sinks/util/service/net/tcp.rs:150-179 | from a new service, every interleaving of events leaves at most one holder of the stream |
| `ConfigSchema.ToSimpleSchema` | lib/config-schema/src/schema.rs:10-28 | an object schema is used as it is. `true` becomes the empty object and `false` becomes an object whose only keyword is `not: {}` |
| `ConfigSchema.FromSchema` | lib/config-schema/src/schema.rs:89-94 | a new query has no constraints |
| `ConfigSchema.WithCustomAttribute` | lib/config-schema/src/schema.rs:104-107 | adding a constraint appends it and keeps the definitions |
| `ConfigSchema.ContainsString` | lib/config-schema/src/schema.rs:147-153 | true exactly when some element of the array is that string |
| `ConfigSchema.Objects` | lib/config-schema/src/schema.rs:114-118 | the object definitions in order, at most as many as there are definitions |
| `ConfigSchema.ObjectsMembership` | lib/config-schema/src/schema.rs:114-118 | a schema object is among `Objects` exactly when it appears as an object definition |
| `ConfigSchema.Run` | lib/config-schema/src/schema.rs:110-174 | the loop returns exactly `Matching`: the object definitions that `Accepts` keeps, in iteration order |
| `ConfigSchema.RunSingle` | lib/config-schema/src/schema.rs:182-189 | no matches gives `NoMatches` and exactly one gives that schema. `n >= 2` matches give `MultipleMatches(n)` |
| `ConfigSchema.RunReturnsSubsequenceOfObjects` | lib/config-schema/src/schema.rs:114-168 | the result is a subsequence of the object definitions, in iteration order |
| `ConfigSchema.RunMembership` | lib/config-schema/src/schema.rs:114-168 | a schema object is returned exactly when it is an object definition that the constraints accept |
| `ConfigSchema.RunSkipsBooleanSchemas` | lib/config-schema/src/schema.rs:116-117 | a boolean definition contributes nothing, wherever it sits: removing it from any position leaves the result unchanged |
| `ConfigSchema.RunWithoutConstraints` | lib/config-schema/src/schema.rs:121-127 | with no constraints every object definition is returned, in order |
| `ConfigSchema.ConstraintNarrowsRun` | lib/config-schema/src/schema.rs:128-163 | adding a constraint only removes matches and keeps the rest in order |
| `ConfigSchema.MissingMetadataNeverMatches` | lib/config-schema/src/schema.rs:121-125 | with at least one constraint, a schema with no `_metadata` extension is rejected |
| `ConfigSchema.NonObjectMetadataIsNotChecked` | lib/config-schema/src/schema.rs:127 | `_metadata` that is present but not an object is accepted without checking any constraint |
| `ConfigSchema.ConstraintsAreAnded` | lib/config-schema/src/schema.rs:160-162 | with object metadata, one failing constraint rejects the schema |
| `ConfigSchema.FlagMatch` | lib/config-schema/src/schema.rs:130-133 | a flag constraint holds exactly when the key is present with the value `true` |
| `ConfigSchema.KeyValueMatch` | lib/config-schema/src/schema.rs:134-157 | a key/value constraint holds exactly when the key holds that string, or an array with that string among its elements |
| `ConfigSchema.ToSimpleSchemas` | lib/config-schema/src/schema.rs:291-293 | subschemas are converted one by one, in order |
| `ConfigSchema.SchemaTypeOf` | lib/config-schema/src/schema.rs:277-315 | the variant is chosen by a fixed precedence. `allOf` beats `oneOf`, and both are read only when subschemas are present. Otherwise `type` beats `const`, which beats `enum`. Each variant carries that keyword's content |
| `ConfigSchema.BoolSchemasHaveNoType` | lib/config-schema/src/schema.rs:287-314 | neither object form of a boolean schema can be classified: `schema_type` panics on both |
| `ConfigSchema.KeyValues` | lib/config-schema/src/schema.rs:342-349 | an array of strings gives one key/value attribute per string, in order |
| `ConfigSchema.GetAttributes` | lib/config-schema/src/schema.rs:329-354 | nothing when the key is absent. `true` gives one flag and a string gives one key/value. An array gives many key/values, one per element |
| `ConfigSchema.GetAttribute` | lib/config-schema/src/schema.rs:356-363 | absent gives `Ok(None)`. A flag or a string gives that single attribute. Any array gives `AttributeMultipleValues` |
| `ConfigSchema.HasFlagAttribute` | lib/config-schema/src/schema.rs:365-377 | absent gives `Ok(false)` and `true` gives `Ok(true)`. A string gives `AttributeNotFlag` and an array gives `AttributeMultipleValues` |
| `ConfigSchema.FlagQueryAgreesWithHasFlag` | lib/config-schema/src/schema.rs:130-133 | on a schema with metadata, a one-flag query keeps it exactly when `has_flag_attribute` answers `true` |
| `ConfigSchema.KeyValueQueryAgreesWithGetAttributes` | lib/config-schema/src/schema.rs:134-157 | on a schema with metadata, a one-pair query keeps it exactly when the attributes read for that key include the pair |
| `ConfigSchema.ParseComponentType` | lib/config-schema/src/schema.rs:481-486 | a component type name parses exactly when it is `source`, `transform` or `sink` |
| `ConfigSchema.RequireKeyValue` | lib/config-schema/src/schema.rs:463-479 | succeeds exactly when the attribute is a string, and returns it. Every failure names the attribute's key as its pointer. Its reason is "attribute must be present" when the attribute is absent, "expected key/value attribute" for a flag, and the display text of `AttributeMultipleValues` for an array |
| `ConfigSchema.NatToString` | lib/config-schema/src/schema.rs:34 | the decimal rendering of `len` in the multiple-matches message: non-empty, digits only, no leading zero, and it reads back as `len` |
| `ConfigSchema.QueryErrorMessageInjective` | lib/config-schema/src/schema.rs:31-42 | the display texts of query errors tell them apart: equal messages come from equal errors, including the count in `MultipleMatches` |
| `ConfigSchema.ComponentSchemaFrom` | lib/config-schema/src/schema.rs:461-512 | succeeds exactly when the component type is a string naming a component type and the component name is a string, and returns both. A failure points at the type attribute when the type is not valid, and at the name attribute otherwise. A string type that names no component type fails with "value was not a valid component type" |
| `VrlPush.Push` | lib/vrl/stdlib/src/push.rs:5-9 | succeeds exactly on an array. The result is one longer, keeps the original elements as its prefix and ends with the item. Any other value gives "expected array, got <kind>" |
| `VrlPush.PushOntoEmpty` | lib/vrl/stdlib/src/push.rs:41-44 | pushing onto `[]` gives the one-element array |
| `VrlPush.PushKeepsElements` | lib/vrl/stdlib/src/push.rs:120-123 | every original element keeps its position |
| `VrlPush.PushDuplicates` | lib/vrl/stdlib/src/push.rs:131-133 | pushing an item already present adds one more copy; there is no deduplication |
| `VrlPush.PushTypeDef` | lib/vrl/stdlib/src/push.rs:90-100 | infallible, array-only, with the value's element kinds followed by the item's kind at the next index |
| `VrlPush.PushTypeDefSound` | lib/vrl/stdlib/src/push.rs:90-100 | when the arguments conform to their types and the value is an array, `push` succeeds with a result of the reported kind |
| `VrlPush.PushTypeDefExact` | lib/vrl/stdlib/src/push.rs:115-139 | for literal arguments the reported kind is exactly the kind of the array `push` returns |
| `VrlValue.KindName` | lib/vrl/stdlib/src/float.rs:8 | the kind name printed in errors is "float" exactly for floats |
| `VrlFloat.Float` | lib/vrl/stdlib/src/float.rs:5-10 | succeeds exactly on a float and returns it unchanged. Any other value gives "expected float, got <kind>" |
| `VrlFloat.FloatOfBoolean` | lib/vrl/stdlib/src/float.rs:35-41 | `float(true)` fails with "expected float, got boolean" |
| `VrlFloat.FloatTypeDef` | lib/vrl/stdlib/src/float.rs:75-79 | the kind is always float; the call is fallible exactly when the argument is not statically a float |
| `VrlFloat.FloatTypeDefSound` | lib/vrl/stdlib/src/float.rs:75-79 | an infallible call cannot fail, and every result has the reported kind |
| `VrlFloat.FloatTypeDefTight` | lib/vrl/stdlib/src/float.rs:76-78 | if some value of the argument's type is not a float, the call is reported fallible |

## Left out

- DNS lookup, socket creation, `set_send_buffer_size`, `connect`, `write_all`, `sleep`, the one-shot channel and the futures are not executed. Their answers are parameters (`ConnectEnv`, `ConnectPoll`, `HandoffPoll`, `WriteOutcome`), and a stream is an opaque token.
- `TcpNet.ConnectBackoff`: the delays come from `ExponentialBackoff`, whose source is not part of this model. Only the order of the sleeps is kept (`Slept(j)`), not their durations. The loop that never returns is modelled by returning `None` once the given attempts run out.
- `TcpNet.Connect`: the `warn!` log and the `emit!` internal events are kept only as a flag and as `ConnectEvent` values. The connection-established event is emitted by `connect_backoff`, not `connect`.
- `InvalidAddress` is declared but never produced by the modelled code.
- A panic in `call` is modelled as a `Panicked` future. The state is already `Sending`, and the panic drops the sender, so the channel is closed. Unwinding itself is not modelled.
- The internal events of `TcpService` and the `Service` trait plumbing (`Response`, `Future` types) are not modelled.
- `SchemaQuerier::from_schema` (file and JSON loading) and the `OnceCell` statics are not modelled. The definitions are given as the values of the definitions map, in its iteration order.
- `ConfigSchema.SchemaTypeOf`, `ConfigSchema.GetAttributes`, `ConfigSchema.GetAttribute`, `ConfigSchema.HasFlagAttribute`, `ConfigSchema.ComponentSchemaFrom`: the source panics on malformed schemas. These are preconditions here (`TypeDetectable`, `AttributesWellFormed`), not behaviour.
- `ConfigSchema.ToSimpleSchema`: schemars' `Schema::into_object` is not part of this model. Its documented behaviour is assumed: `true` becomes the default object and `false` becomes `not: {}`.
- `ConfigSchema.ParseComponentType`: `ComponentType::try_from` lives in `vector_config_common`, which is not part of this model. The names `source`, `transform` and `sink` are assumed.
- `description` and `title`, and the `QueryableSchema` impls on `&T`, `SimpleSchema` and `ComponentSchema` that only delegate, are not modelled. `SimpleSchema` is represented by the schema object it wraps.
- Schema objects keep only `type`, `const`, `enum`, the subschema keywords and the extensions. JSON numbers are opaque.
- `VrlValue.KindName`: `Value::kind()` and the display of kinds live in the `value` crate, which is not part of this model. Bytes are assumed to print as "string", and `try_array`'s error is assumed to read "expected array, got <kind>".
- `VrlPush.PushTypeDef`: array kinds are modelled exact-shape, as known element kinds with no part for further indices. `restrict_array` and `merge_append` for arrays of unknown length are not modelled, because their code is not part of this model.
- Kinds of object values do not record their fields.
- `compile`, `symbol`, the `extern "C"` entry points, `primitive_calling_convention`, and the compiler's wrapping of call errors ("function call error for ...") are not modelled.
- Float payloads are opaque bit patterns: `float` performs no arithmetic.
- `lib/vrl/stdlib/src/type_def.rs`, `src/sinks/statsd/sink.rs` and `src/sinks/pulsar/tests.rs` are not part of this model. The first depends on `Kind::debug_info`, the second is glue over stream combinators, and the third tests against a live broker.

## Notes on the code

- `get_attribute` treats ANY array value as multiple values, even one with a single element or none. `has_flag_attribute` and `ComponentSchema::try_from` therefore reject such attributes too. The model follows the code (`ConfigSchema.GetAttribute`).
- `run` checks constraints only when `_metadata` is a JSON object. Metadata of any other JSON type passes every query (`ConfigSchema.NonObjectMetadataIsNotChecked`). `get_attributes` panics on the same schema.
