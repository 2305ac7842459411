# A verified model of jlib

jlib is a JSON-RPC 2.0 library in Go. This project models its five hardest parts in Dafny and
proves what each promises.

- **Schema language** (`Schema`, `SchemaLaws`, `ErrorPaths`, `Validator`, `SchemaReading`, `Builder`,
  `BuilderLaws`, `Printing`, `RoundTrip`).
  A schema is read from JSON by a builder that completes missing `type` entries in its input in
  place, printed back by the `Map` methods, compared by `Equal` and applied to data by a validator
  that keeps a mutable stack of path steps. `Accepts` is the meaning of a schema, stated without any
  order of evaluation; `Build` is the partial function from JSON to schemas. The imperative methods
  follow the Go loops, visit maps in any order, and are proved equal to these. The meaning, the
  builder and the paths of errors are tied down by laws of their own: De Morgan's, what bounds accept,
  which JSON builds to which schema, how a path reads as text.
- **Streaming client** (`StreamingProtocol`, `StreamingTheorems`, `Correlation`, `StreamingClient`).
  Callers, send loop, receive loop, timers and server interleave at single operations: `Load`,
  `Store`, `LoadAndDelete`, channel sends. The server may push requests, notifications and replies
  to nobody's call at any time. The results hold in every run from the initial state.
- **Message codec** (`Messages`). The wire form determines a message exactly when `Faithful` holds,
  and what decodes to a message is exactly what says the same as its wire form.
- **Actor tree** (`ActorTrees`, `Actor`). Dispatch is specified by the preorder list of registrations
  of a method; the methods of the `Actor` class, which hold child objects, are proved against it.
- **JWT cache** (`JwtAuth`). With any eviction choice, the cached verdict is that of parsing anew.
- **A whole call** (`EndToEnd`) puts client, codec, validator and actor tree together: what a caller
  receives is the one answer the server owes to that caller's own request, as written on the wire.

`Basics` and `Json` hold shared types. A Go string is the sequence of its bytes, one `char` a byte.
A JSON number literal without fraction or exponent is `Int` (as is a Go `int`), any other is `Dec`
(as is a `float64`), in exact arithmetic. The order of map iteration is left open everywhere.

Properties that are false of the code as it stands, with the exact condition under which they hold:

- Printing and building is the identity only on schemas that are `Lossless` and `Rebuildable`
  (`RoundTripExact`): the `Map` methods do not print string lengths, list item bounds, the additional
  schema of a tuple, or an exclusive flag without its bound, and a property called `params`,
  `properties`, `anyOf`, `allOf` or `not`, without one called `type`, makes the printed `properties`
  unreadable. Schemas that come from the builder are always rebuildable. A string schema with a
  `maxLength` accepts after one round trip what it refused before (`LengthIsLost`). String lengths,
  item bounds and additional tuple schemas are all that a round trip can lose of the meaning
  (`RoundTripKeepsMeaning`).
- No caller is stranded in a run exactly when no `Store` finds its key taken (`StrandedIffOverwritten`).
  `Load` and `Store` are two operations, so two racing calls with one id do strand the first
  (`RacingCallsStrand`); taken as one step they never do (`AtomicNeverOverwrites`).
- A caller gets its own answer, or its own timer's timeout, exactly when no step misroutes to it
  (`AnswersAreOwn`): no `LoadAndDelete` finds its entry while looking for another call's. Timers are
  never cancelled, so the timer of an answered call can do that to the next call with its id
  (`StaleTimerAnswersNextCall`). An id is safe to use again once the earlier call's timer has fired
  and its answers have come (`SettledIdsGetOwn`).
- A renamed request keeps its wire parameters exactly when they are a list (`RenamedOnTheWire`);
  the single value `"x"` goes out as `["x"]` (`SingleValueIsWrapped`).
- What an object schema accepts has all required keys exactly when these are properties, as in every
  schema that is built (`RequirementsNeedProperties`).
- `GetSchema` reports the first schema in preorder, which is that of the handler `Feed` runs exactly
  when that handler has one or none has (`GetSchemaIsOwn`).

## Model

| member | source | states |
|---|---|---|
| Schemas.EqualDecidesIdentity | schema/schema.go:713-789 | `Equal`, with its pointer, length and one-sided map comparisons, holds exactly of identical schemas |
| Schemas.EqualIsCongruence | schema/schema.go:634-643 | `Equal` is symmetric and transitive, and `Equal` schemas accept exactly the same data |
| Schemas.EqualReflexive | schema/schema.go:116-129 | every schema is `Equal` to itself |
| Schemas.SameSizeSameKeys | schema/schema.go:770-789 | walking one map and comparing lengths is enough for the key sets to coincide |
| SchemaLaws.ExactlyOneAccepts | schema/schema.go:410-417 | every value is accepted by a schema or by its negation, never by both |
| SchemaLaws.AnyIsEverything | schema/schema.go:410-417 | `any` accepts everything and its negation nothing |
| SchemaLaws.DeMorgan | schema/schema.go:341-417 | the negation of an anyOf is the allOf of the negated choices, and the dual |
| SchemaLaws.NoChoice | schema/schema.go:341-384 | of no choices none is accepted and all are |
| SchemaLaws.OneChoice | schema/schema.go:341-384 | anyOf and allOf of one choice mean that choice |
| SchemaLaws.AnyOfBoth | schema/schema.go:341-348 | the choices of anyOf add up |
| SchemaLaws.AllOfBoth | schema/schema.go:377-384 | the choices of allOf are required together |
| SchemaLaws.NumberBounds | schema/schema.go:164-193 | a bound accepts its inner side, nothing beyond it, and itself unless exclusive; both bounds hold exactly when each does |
| SchemaLaws.IntegersAreNumbers | schema/schema.go:232-275 | a number counts by its value however written; integers are the 64-bit literals the number schema with the same bounds accepts |
| SchemaLaws.StringLengths | schema/schema.go:299-311 | a string is refused only beyond a bound, and a bound is itself allowed |
| SchemaLaws.ListsAreTuples | schema/schema.go:446-466 | item bounds count as string lengths do, and items as the additional items of a tuple |
| SchemaLaws.EmptyTuples | schema/schema.go:497-510 | which tuples accept the empty list |
| SchemaLaws.TupleFront | schema/schema.go:512-517 | the first item is for the first child, the rest for the rest |
| SchemaLaws.TupleSurplus | schema/schema.go:518-525 | past the children every item is for the additional schema |
| SchemaLaws.ObjectFields | schema/schema.go:665-701 | what an object schema accepts, field by field, a field once there being no longer required |
| SchemaLaws.MethodMessages | schema/schema.go:565-620 | a message is accepted as the tuple of its parameters is, else by its result, else not |
| SchemaLaws.AtomicKinds | schema/schema.go:100-105 | null and bool accept exactly null and the booleans |
| SchemaLaws.MeaningIgnoresMixin | schema/schema.go:116-129 | name and description have no part in the meaning |
| SchemaLaws.ErasureKeepsMeaning | schema/schema.go:285-287 | string lengths, item bounds and additional tuple schemas are all that printing loses of the meaning |
| SchemaLaws.RoundTripKeepsMeaning | schema/schema.go:703-710 | a built schema without those means the same after a round trip |
| Validation.SchemaValidator.Validate | schema/validator.go:52-54 | nil exactly on accepted data; an error reports the first place at fault; the path stack is as before |
| Validation.SchemaValidator.Scan | schema/validator.go:71-76 | the same under one pushed step, on success and on every early return |
| Validation.SchemaValidator.ScanSchema | schema/schema.go:410-417 | every kind of schema scans to the verdict of its meaning and restores the stack |
| Validation.SchemaValidator.NewErrorPos | schema/validator.go:33-39 | the error holds the whole stack in a fresh array, shared with nothing |
| Validation.SchemaValidator.PushPath | schema/validator.go:56-60 | a nonempty step goes on top of the stack, in place in the backing array or in a new one |
| Validation.SchemaValidator.PopPath | schema/validator.go:62-69 | removes the top step; the precondition, met at every call, is the absence of the panic |
| Validation.ErrorSurvives | schema/validator.go:33-39 | an error still reports its place after the validator that made it has pushed and popped through another validation |
| Validation.SchemaValidator.CheckNumberRange | schema/schema.go:164-193 | nil exactly when the number is within its bounds, exclusive or not |
| Validation.SchemaValidator.CheckIntegerRange | schema/schema.go:245-275 | the same for integers |
| Validation.SchemaValidator.ScanString | schema/schema.go:299-311 | nil exactly when the data is a string of allowed length |
| Validation.SchemaValidator.ScanAnyOf | schema/schema.go:341-348 | nil exactly when some choice accepts |
| Validation.SchemaValidator.ScanAllOf | schema/schema.go:377-384 | nil exactly when every choice accepts; otherwise the error of a choice |
| Validation.SchemaValidator.ScanList | schema/schema.go:446-466 | nil exactly on a list of allowed length with accepted items; otherwise the index is on the path |
| Validation.SchemaValidator.ScanTuple | schema/schema.go:497-527 | the same for tuples with and without an additional schema |
| Validation.SchemaValidator.ScanObject | schema/schema.go:665-701 | nil exactly on accepted objects in whatever order properties are visited; a missing required property is named on the path |
| Validation.SchemaValidator.ScanAdditional | schema/schema.go:687-697 | the properties not in the schema are checked against the additional schema, in any order |
| Validation.SchemaValidator.ScanMethod | schema/schema.go:565-585 | nil exactly on accepted JSON-RPC messages |
| Validation.SchemaValidator.ScanParams | schema/schema.go:587-613 | the pushed step is popped on every return |
| Validation.SchemaValidator.ScanArguments | schema/schema.go:591-612 | nil exactly when arity and every argument are accepted |
| Validation.SchemaValidator.ScanResult | schema/schema.go:615-620 | a result is checked against `returns`, if there is one |
| ErrorPaths.LocatedResolves | schema/validator.go:33-39 | the path of an error, read as text, resolves in the data alone to the value rejected, or up to its last step to the object that lacks the property |
| ErrorPaths.StepsReadBack | schema/schema.go:460-464 | an index step reads as its index in decimal, a property step as its name |
| ErrorPaths.FaultIsFirst | schema/schema.go:446-701 | two errors for the same data are the same, the first in the order of choices and items, but for the choice among the properties of an object |
| ErrorPaths.JoinedParts | schema/validator.go:13-15 | the text of a path is that of its steps one after the other |
| ErrorPaths.FaultMeansRejection | schema/schema.go:565-620 | a fault at the end of such a path means the data as a whole is rejected |
| ErrorPaths.IndexStepInjective | schema/schema.go:460-464 | an index step names one index |
| Building.ConvertTypeMap | schema/convert.go:19-49 | the converted map, and the value left in place of the argument, have the guessed type |
| Building.ConvertListOfMap | schema/convert.go:141-158 | every item converted, or items converted in place up to the one that fails |
| Building.ConvertListOfString | schema/convert.go:160-177 | the names read are exactly the strings of the list, if all are strings |
| Building.ConvertMapOfMap | schema/convert.go:123-139 | every value converted, or some cannot be, in any order of the walk |
| Building.BuildNode | schema/builder.go:103-109 | the schema built is that of `Build`, whatever the order of map walks; the input is annotated, completely on success |
| Building.BuildNodeMap | schema/builder.go:111-158 | the same for a map already converted |
| Building.BuildMixin | schema/builder.go:160-179 | name and description are set, or fail unless strings |
| Building.BuildListSchema | schema/builder.go:181-228 | a list of items gives a tuple, one item a list schema, as specified |
| Building.BuildTupleSchema | schema/builder.go:188-208 | children in order and the additional schema |
| Building.BuildAnyOfSchema | schema/builder.go:230-245 | all choices built, or failure |
| Building.BuildAllOfSchema | schema/builder.go:247-262 | all choices built, or failure |
| Building.BuildNotSchema | schema/builder.go:264-277 | the child built, or failure |
| Building.BuildMethodSchema | schema/builder.go:279-316 | params, additional params and returns built as specified |
| Building.BuildReturnsValue | schema/builder.go:303-314 | a `returns` map without a type is completed with `any` in place; a value that is no schema is ignored |
| Building.BuildObjectSchema | schema/builder.go:370-409 | properties, requirements and additional properties built as specified |
| Building.BuildPropertiesValue | schema/builder.go:372-383 | properties in any order of the walk; a map whose type can be guessed is refused |
| Building.ReadRequires | schema/builder.go:385-398 | the required names, or failure if one is not a property |
| Building.MixinIsSetLast | schema/builder.go:148-158 | reading name and description after the rest is reading them first |
| BuilderLaws.DescribedBuilds | schema/builder.go:103-409 | every well-formed schema, with all its attributes, is built from the JSON that writes them all out |
| BuilderLaws.BuiltExactlyWellFormed | schema/builder.go:181-409 | the builder returns the well-formed schemas and no others |
| BuilderLaws.SimpleNames | schema/convert.go:20-24 | five names stand for the maps with that type; no other string, list, number or null is a schema |
| BuilderLaws.GuessedTypes | schema/convert.go:27-45 | a map without a type is the map with the type its keys tell, in this order of precedence, or no schema |
| BuilderLaws.TypesAndNames | schema/builder.go:111-179 | what builds has one of twelve types and, if any, a name and a description that are strings and become the schema's |
| BuilderLaws.OthersAreIgnored | schema/convert.go:74-121 | attributes of other types, and bounds, lengths and flags of the wrong form, are as good as absent |
| BuilderLaws.ChoicesRead | schema/builder.go:230-277 | which maps build to which anyOf, allOf and not, told from what their parts build to |
| BuilderLaws.ListRead | schema/builder.go:181-228 | the same for lists and tuples |
| BuilderLaws.ObjectRead | schema/builder.go:370-409 | the same for objects, their properties, requirements and additional properties |
| BuilderLaws.MethodRead | schema/builder.go:279-316 | the same for methods, their parameters, additional parameters and returns |
| BuilderLaws.ExplicitOnceBuilt | schema/convert.go:27-45 | after a successful build every map in the input that describes a schema says its type |
| SchemaReading.RebuildStable | schema/convert.go:19-49 | building again after any part of an earlier build's writes gives the same schema, or fails again |
| SchemaReading.AnnotateIdempotent | schema/builder.go:303-307 | a second build has nothing left to write |
| SchemaReading.GuessIsNoSchema | schema/convert.go:123-133 | a properties map into which a type was guessed can never be built, before or after the write |
| SchemaReading.BuildAlike | schema/builder.go:111-158 | maps whose attributes read alike build alike at every type |
| Printing.ToMap | schema/schema.go:318-326 | every kind prints as `Prints` says, with required names in any order |
| Printing.NumberToMap | schema/schema.go:131-147 | bounds are printed, exclusive flags only beside their bound |
| Printing.IntegerToMap | schema/schema.go:202-218 | the same for integers |
| Printing.ObjectToMap | schema/schema.go:645-663 | properties, required names and additional properties are printed |
| Printing.MethodToMap | schema/schema.go:549-563 | params, returns if any and additional params if any are printed |
| JsonValues.FloatLiteral | schema/schema.go:703-710 | the printed literal denotes the same number |
| JsonValues.DecimalReadsBack | schema/schema.go:460-464 | an index prints as the numeral that reads back as it |
| JsonValues.DecimalInjective | schema/schema.go:460-464 | different indices print differently |
| RoundTrips.BuildPrinted | schema/builder.go:103-409 | building any print of any schema gives its erasure, or fails exactly when it is not rebuildable |
| RoundTrips.RoundTrip | schema/schema.go:703-710 | for every JSON that builds, printing and building again gives a schema `Equal` to the erasure, and the next round trip is exact |
| RoundTrips.RoundTripExact | schema/schema.go:285-287 | the round trip is the identity if and only if the schema is lossless and rebuildable |
| RoundTrips.LengthIsLost | schema/schema.go:285-287 | for every maximal length and every longer string, the string is refused before a round trip and accepted after it |
| RoundTrips.LosslessIffKept | schema/schema.go:440-444 | exactly the lossless schemas are left alone by erasure |
| RoundTrips.ErasedIsLossless | schema/schema.go:487-495 | erasing twice is erasing once, and keeps a schema rebuildable |
| RoundTrips.BuiltIsWellFormed | schema/builder.go:181-409 | at every depth of a built schema lengths and item bounds are not negative and required names are properties |
| RoundTrips.WellFormedIsRebuildable | schema/convert.go:123-133 | what the builder returns can be printed and built again |
| RoundTrips.AcceptedObjectHasRequired | schema/schema.go:665-687 | an object accepted by a built object schema has every required key |
| RoundTrips.RequirementsNeedProperties | schema/schema.go:665-687 | for any object schema that accepts something, accepted objects have the required keys if and only if these are properties |
| Messages.DecodeEncode | messageimpl.go:243-290 | decoding what was encoded gives back the message, with its list flag and trace id, exactly for the faithful messages |
| Messages.DecodesExactly | parse.go:74-157 | a JSON value decodes to a message if and only if the message is faithful and the value says, in the entries that count for its kind, what its encoding says |
| Messages.DecodeIsNormalForm | parse.go:74-157 | every message that decodes survives encoding and decoding unchanged |
| Messages.EncodedShape | messageimpl.go:243-290 | which entries each kind of message has on the wire and what they hold |
| Messages.EncodedErrorShape | types.go:20-25 | code, message and data of an error body, data left out when null |
| Messages.EncodedFields | parse.go:34-52 | what the decoder finds in each field of an encoded message, nulls counting as absent |
| Messages.ParamsRoundTrip | parse.go:54-72 | parameters and list flag survive exactly when a list or a single value neither null nor a list |
| Messages.ErrorRoundTrip | types.go:20-25 | every error body survives |
| Messages.RenamedOnTheWire | messageimpl.go:320-324 | a clone differs on the wire only in its id exactly when the parameters went out as a list |
| Messages.SingleValueIsWrapped | messageimpl.go:320-324 | a request on which it does differ |
| Messages.ReplyRenamedBack | messageimpl.go:157-167 | replacing the id of a reply and putting it back loses nothing |
| StreamingProtocol.InvNext | http/streaming_client.go:272-363 | every step keeps the invariant of table, channels, receive loop and timers |
| StreamingTheorems.WireIsFromLoad | http/streaming_client.go:340-343 | in every run a call goes out as the caller made it unless its id was in the table at its Load, and then under the fresh id |
| StreamingTheorems.PacketsAreTheWire | http/streaming_client.go:345-355 | every packet of a call, queued or written, is that request, and the call was stored before |
| StreamingTheorems.WrittenInOrder | http/streaming_client.go:224-236 | everything handed to the send loop is written, once and in order, and nothing else |
| StreamingTheorems.TimelyReplyIsReceived | http/streaming_client.go:272-290 | a reply that comes while the entry is in the table is what the caller gets, under its own id |
| StreamingTheorems.TimeoutIsReceived | http/streaming_client.go:292-307 | a timer that fires while the entry is in the table gives the caller the timeout of its own request |
| StreamingTheorems.AtMostOneMessage | http/streaming_client.go:272-307 | in every run a call's channel gets at most one message, no send on it blocks, and the message has the caller's own id |
| StreamingTheorems.MessagesAreConserved | http/streaming_client.go:333-363 | the messages a call has or took are exactly those sent to its channel |
| StreamingTheorems.StrandedIffOverwritten | http/streaming_client.go:341-350 | a run strands a caller if and only if some Store finds its key taken |
| StreamingTheorems.OverwriteStrands | http/streaming_client.go:350 | the call whose entry is overwritten is stranded |
| StreamingTheorems.StrandedForever | http/streaming_client.go:292-307 | a stranded caller stays stranded under every step |
| StreamingTheorems.NoCallerStranded | http/streaming_client.go:333-363 | without overwriting, a blocked caller has a message, one on its way, or its own entry with its own timer armed |
| StreamingTheorems.AtomicNeverOverwrites | http/streaming_client.go:341-350 | with Load and Store as one step and fresh replacement ids no Store overwrites |
| StreamingTheorems.TimersUnblockEveryCaller | http/streaming_client.go:292-307 | once the timers that are left have fired, in any order, every blocked caller has exactly one message |
| StreamingTheorems.TimersRunOut | http/streaming_client.go:292-307 | in any order they come to an end, within a bound fixed at the start |
| StreamingTheorems.DrainTimers | http/streaming_client.go:292-307 | and there is such an order: until all have fired one of them can |
| StreamingTheorems.HandlerGetsNotices | http/streaming_client.go:241-280 | what the server sends that is no reply reaches the message handler, all of it, once and in order |
| StreamingTheorems.RacingCallsStrand | http/streaming_client.go:341-350 | two calls with one id whose Loads precede the first Store strand the first for good |
| Correlation.EveryPacketIsUsedOnce | http/streaming_client.go:241-290 | every packet the server sends waits, went to the message handler, or became one caller's delivery |
| Correlation.ForeignIffMisrouted | http/streaming_client.go:272-307 | in every run of any server, a call gets another call's answer or timeout if and only if some LoadAndDelete looking for another finds its entry |
| Correlation.AnswersAreOwn | http/streaming_client.go:272-307 | in every run of a server that echoes ids, ids reused or not, all a call gets is the answer to its own request, unchanged but for its id, or its own timer's timeout, if and only if no step misroutes to it |
| Correlation.OwnIffNotForeign | http/streaming_client.go:282-288 | what is not meant for another arrives with payload and trace id unchanged |
| Correlation.SettledIdsGetOwn | http/streaming_client.go:338-358 | every caller gets its own if no wire id is stored again before the timer of its last call has fired and its answers have come |
| Correlation.DistinctIdsAreNotReused | http/streaming_client.go:341-343 | ids never used twice are a case of this |
| Correlation.StaleTimerAnswersNextCall | http/streaming_client.go:356 | with a reused id the timer of an answered call times out the next one |
| StreamingClients.StreamingClient.RequestLoad | http/streaming_client.go:333-343 | is the Load step: a colliding id is replaced on the wire |
| StreamingClients.StreamingClient.RequestStore | http/streaming_client.go:345-350 | is the Store step |
| StreamingClients.StreamingClient.RequestSend | http/streaming_client.go:352-355 | is the Enqueue step |
| StreamingClients.StreamingClient.SendMessage | http/streaming_client.go:365-372 | is the Send step: any message of the user's own joins the same queue |
| StreamingClients.StreamingClient.RequestWait | http/streaming_client.go:356-358 | is the Arm step |
| StreamingClients.StreamingClient.RequestReturn | http/streaming_client.go:358-362 | is the Receive step and returns the message received |
| StreamingClients.StreamingClient.SendOne | http/streaming_client.go:225-236 | is the Write step |
| StreamingClients.StreamingClient.ReceiveOne | http/streaming_client.go:254-289 | is the Take step: the entry is removed and the caller's id restored, or the message handler gets the message |
| StreamingClients.StreamingClient.DeliverResult | http/streaming_client.go:283-288 | is the Deliver step |
| StreamingClients.StreamingClient.TimerFires | http/streaming_client.go:292-303 | is the Expire step |
| StreamingClients.StreamingClient.DeliverTimeoutOf | http/streaming_client.go:303 | is the DeliverTimeout step |
| StreamingClients.StreamingClient.LoadAndDelete | http/streaming_client.go:274 | returns the entry, if any, and removes it |
| ActorObjects.Actor.constructor | http/request.go:125-133 | a new actor validates, recovers, and has no handlers or children |
| ActorObjects.Actor.AddChild | http/request.go:135-137 | the child's tree comes last among the children, and nothing else changes |
| ActorObjects.Actor.Refresh | http/request.go:135-137 | an ancestor of an actor that was given a child stays a valid tree, with its children's trees as they now are |
| ActorObjects.Actor.OnRequest | http/request.go:162-175 | registers unless the name is taken |
| ActorObjects.Actor.Off | http/request.go:208-210 | removes the actor's own registration only |
| ActorObjects.Actor.OnMissing | http/request.go:214-220 | sets the missing handler once |
| ActorObjects.Actor.OnClose | http/request.go:223-229 | sets the close handler once |
| ActorObjects.Actor.Has | http/request.go:244-255 | true exactly when the method is registered somewhere in the tree |
| ActorObjects.Actor.MethodList | http/request.go:257-267 | lists every method exactly as often as it is registered in the tree |
| ActorObjects.Actor.GetSchema | http/request.go:270-280 | the first schema among the registrations in preorder |
| ActorObjects.Actor.Feed | http/request.go:292-338 | runs the handler registered first in preorder or refuses for its schema; otherwise missing handler or method-not-found |
| ActorObjects.Actor.CallOwn | http/request.go:304-328 | the schema gate: called on accepted messages only, and a refused request gets error -32633 under its own id |
| ActorObjects.Actor.HandleClose | http/request.go:232-241 | close handlers run in order, children before their parent |
| ActorTrees.OnlyRequestsAreAnswered | http/request.go:374-380 | a notification never gets a message back |
| ActorTrees.RequestsAreAnswered | http/request.go:341-405 | a request always gets something; a reply not made by the handler has its id and trace id and carries the value, RPC error or internal error the handler produced, returned or recovered |
| ActorTrees.RegisteredMethodIsServed | http/request.go:304-355 | a registered method is served by its first handler in preorder, unless its actor validates and the schema refuses the message, which gives error -32633; Feed panics exactly when the handler does and the owner does not recover it |
| ActorTrees.UnknownMethodIsHandled | http/request.go:292-338 | what nobody has registered goes to the missing handler, or gives error -32601 to a request and nothing to the rest |
| ActorTrees.NotificationsReportErrors | http/request.go:374-405 | a notification returns the error of its handler and drops its value |
| ActorTrees.RegistrationsGrow | http/request.go:304-328 | a child added to a tree adds its registrations after all that were there |
| ActorTrees.ClosingGrows | http/request.go:232-241 | a child added to a tree closes after the other children and before the actor |
| ActorTrees.GetSchemaIsOwn | http/request.go:270-280 | the exact condition under which the schema reported is that of the handler that runs |
| ActorTrees.ShadowedSchemaIsReported | http/request.go:270-280 | a handler without a schema is given that of one it shadows |
| ActorTrees.ServedParamsAreAccepted | http/request.go:304-321 | behind a method schema the parameters a handler is called with are a list, each accepted by its own schema |
| ActorTrees.SingleValueIsRefused | schema/schema.go:571-584 | a request with a single value for parameters is refused by every method schema |
| ActorTrees.EveryActorIsClosed | http/request.go:232-241 | closing runs the close handler of every actor, each as often as it occurs |
| ActorTrees.FeedSpecOfChild | http/request.go:322-327 | handing over to the first child that has the method is right for the whole tree |
| JwtAuth.AuthHandler.Authenticate | http/auth_handler.go:118-166 | the verdict, panic included, is that of parsing the token anew; a header is in the cache afterwards exactly when it was accepted, and the cache stays sound and bounded |
| JwtAuth.AuthHandler.AuthenticateAll | http/auth_handler.go:118-166 | the same for any sequence of requests at times that do not go back |
| JwtAuth.AuthHandler.CacheAdd | http/auth_handler.go:159-161 | the entry is in, the bound holds, and nothing else is new |
| JwtAuth.ReparsedHeaders | http/auth_handler.go:118-166 | the verdict on every header: a token is good until and in the second it expires, a bare Bearer panics, the rest is rejected |
| JwtAuth.CachedIsReparsed | http/auth_handler.go:129-158 | judging a cached entry is parsing and judging its token again |
| JwtAuth.FirstSpace | http/auth_handler.go:124 | the place of the first space |
| EndToEnd.ServerEchoes | http/request.go:292-405 | over the wire in both directions, a server made of this library answers a faithful request under its id with the one message it owes, the handler's own if that is a reply to the request |
| EndToEnd.RenamedStaysFaithful | messageimpl.go:320-324 | a request that survives the wire still does when renamed |
| EndToEnd.ServedRunIsHonest | http/streaming_client.go:225-289 | a server that answers calls in this way, and sends whatever else it likes, is one that echoes ids |
| EndToEnd.CallerGetsHandlersAnswer | http/streaming_client.go:272-363 | in every run of client and server, ids reused or not, all a caller gets is the one answer owed to its own request as written, under the caller's id, or its own timer's timeout, if and only if no step misroutes to it |

## Left out

- Building.BuildNode: takes and returns JSON trees as values, so two places of the input that share one Go map are not modelled.
- Schemas.EqualDecidesIdentity: bounds are exact reals, without NaN, and lists and maps are never nil, as the builder makes them.
- StreamingProtocol.InvNext: a connected client and sends that succeed; Connect, Reset and Close and the nil channels they leave are not steps.
- Correlation.AnswersAreOwn: messages are values, so changes to a message after it was handed over are not modelled.
- ActorObjects.Actor.Feed: callbacks are an arbitrary function of callback and message, so a callback that changes the actor tree while it runs is not modelled.
- ActorObjects.Actor.AddChild: actors form a finite tree or share descendants, never a cycle; ancestors of the actor are brought up to date by the ghost method Refresh, from the bottom upwards.
- JwtAuth.AuthHandler.Authenticate: signature and claim parsing are a function of token and time that can lapse only by expiry; concurrent requests are taken one at a time.
- EndToEnd.CallerGetsHandlersAnswer: the server's tree and handlers do not change during a run; a handler's own message under an id other than the request's counts as a push.
- Hints and paths of build errors: a failed build is just a failure.
- JSON text, case-insensitive field names, YAML, rounding of floats: JSON is the decoded value.
- Sockets, HTTP, TLS, sessions, gateway, typed handler wrapping, basic and bearer checks, command line tools: input and output or flat lookups.
