# jsoff, verified

A Dafny model of three cores of jsoff, a JSON-RPC 2.0 library in Go, and of its JWT cache:

- **The schema engine.** Schemas are built from untyped data, printed, compared and run against data. `Values` has the data, `Schemas` the tree and `Equal`, `Meaning` the declarative reading and what it is to be at fault, `Verdicts` its laws, kind by kind, `Validator` the scan with its path stack, `Printer` the `Map` of each kind, `BuildSpec` the schema that data stands for, `SchemaDocuments` and `CompositeDocuments` what a schema accepts in terms of the document that it was built from, `Normalise` and `TreesLeft` the tree that a build leaves behind, `Builder` the builder step by step, `RoundTrip` and `Relaxation` what printing and rebuilding keeps and loses, `Publishing` the schemas that a server publishes, `Yaml` the YAML front end and `Marshalled` the trip through JSON text.
- **Messages and actors.** `Messages` has the four kinds and their constructors, `Codec` encoding and decoding on parsed JSON, `Dispatch` the actor tree as a value, with the recursive dispatch and the flat search that it amounts to, `Actors` the object graph.
- **The streaming protocol.** `Protocol` is a state machine: many callers, one client table, a link with a queue each way, a goroutine for each message at the server, one timer for each call. Its steps are those that other goroutines cannot interrupt; the check and the store of an id are two. `Correlation` proves that answers reach their callers and `Timers` when a timeout is the call's own; `Hazards` and `Misdirection` have the runs that go wrong without their conditions. `Client` and `Session` are the objects at the two ends, whose methods are shown to take steps of the protocol.
- **The JWT cache** (`JwtCache`), next to verifying every token afresh.

Methods follow the source's loops and updates and are proved against specification functions; lemmas then prove what the source promises about those functions. Go maps are visited in an arbitrary order throughout. Run `dafny verify dfyconfig.toml`.

## What holds, and what does not

- `Equal` is equality of trees. Hence it is reflexive, symmetric and transitive, and equal schemas give every datum the same verdict.
- A printed schema does not always build again: a property table that names `params`, `properties`, `anyOf`, `allOf` or `not`, but no `type`, is taken for a node and refused. `RoundTrip.PrintedTextBuilds` says exactly when the print builds, and what `Map` has dropped from it. A method with no result comes back with the result `any`; the rebuilt schema prints as the original did exactly when there is none.
- The published schema accepts all that the schema in use accepts only under conditions on what is dropped and how many `not`s are above it. Two lemmas in `Relaxation` show that each condition is needed. The entry published for a method without a schema is another matter: it is read as a method without parameters (`Publishing.DefaultEntryIsStrict`).
- A float that is whole is marshalled without a point. `Marshalled.MarshalledBuildsAlike` says exactly when that changes the schema.
- An id goes through the wire with its type exactly when it is null, an int or a string. By-name parameters go through exactly when there is one and it is neither null nor written as a list; a request whose id was swapped is sent with a list.
- The check of an id and its store are two steps. Two calls of one id that both pass the check can cost the first its entry, for good (`Hazards.RaceLosesCall`), and can give its answer to the second (`Hazards.RaceMisdirects`). Calls are out of danger of being lost exactly in the runs that keep check and store exclusive (`Protocol.ExclusiveRuns`); there, no call is lost.
- An answer goes to whoever is pending under its id. Answers are right in every run in which no request is stored under the id of a call that is stored and not yet sent, or has something under way. This takes requests that are safe on the wire, callbacks that do not look at ids, and no requests or answers outside calls. In particular they are in runs in which no timer fires and check and store are exclusive, and in runs that send no id twice. A store against the condition can misdirect an answer from any state with nothing else under way, and so can a response sent outside calls (`Misdirection`).
- A timer ends whoever is pending under its id. A timeout is the call's own in every run in which no request is stored under the id of a call whose timer is running, or that is yet to be sent; a store against that condition can be ended by the other's timer, from any state (`Timers`).
- `GetSchema` can publish a schema that is never used: when the first handler in preorder has none and a later one has.
- What the source calls a response (`IsResponse`, messageimpl.go:54-58) is a request or a notification; the model keeps the name.

## Model

| member | source | states |
|---|---|---|
| Values.RereadIsJson | schema/builder.go:33-43 | what has come out of JSON text holds only JSON values, and another trip through text does not change it |
| Values.NumbersAsText | schema/convert.go:85-121 | exactly the integers of 64 bits read as such, no fraction does, and a float is written without a point exactly if it is whole and under 1e21 |
| Values.ValuesAsText | schema/schema.go:703-711 | what each kind of value comes back as |
| Schemas.Equal | schema/schema.go:44-50 | `Equal` of every kind decides equality of whole trees, so it is an equivalence, and no function of schemas tells equal ones apart |
| Schemas.PointerEqual | schema/schema.go:713-721 | optional bounds are equal when both are absent, or both are there with the same value |
| Schemas.SubSchemaEqual | schema/schema.go:723-731 | optional children, nil included |
| Schemas.SchemaListEqual | schema/schema.go:733-748 | lists are equal member by member and in length, a nil list to a nil list only |
| Schemas.SchemaMapValueEqual | schema/schema.go:750-768 | the two maps agree in both directions, which needs the sizes, a nil map with a nil map only |
| Schemas.SchemaMapEqual | schema/schema.go:770-789 | property tables agree in both directions, which needs the sizes, a nil table with a nil table only |
| Meaning.DecimalTextReads | schema/schema.go:461 | the text of an index in a path segment is the decimal number of that index, without a leading zero |
| Meaning.FaultIsReason | schema/schema.go:446-466 | a path at fault, at any depth and in any order of visits, is enough for the whole datum to be rejected by the declarative meaning |
| Meaning.RejectedIsAtFault | schema/schema.go:446-466 | whatever is rejected is at fault somewhere: faults, at a place that fails for what it is itself, are exactly the reasons for rejection |
| Meaning.FailureIgnoresParts | schema/schema.go:446-459 | what a composite fails for itself has nothing to do with its parts |
| Verdicts.KindVerdicts | schema/schema.go:56-105 | what `any`, `null` and `bool` accept |
| Verdicts.IntegerVerdict | schema/schema.go:232-275 | an integer is accepted exactly between its bounds, and a bound itself exactly unless its flag is set |
| Verdicts.OnlyIntegers | schema/schema.go:232-243 | an integer schema accepts integers of 64 bits only |
| Verdicts.ExclusiveIsNext | schema/schema.go:245-275 | an exclusive bound is the next inclusive one |
| Verdicts.NumberVerdict | schema/schema.go:149-193 | so with numbers, for every form a number comes in |
| Verdicts.OnlyNumbers | schema/schema.go:149-162 | a number schema accepts numbers only |
| Verdicts.StringVerdict | schema/schema.go:299-311 | both lengths of a string are inclusive |
| Verdicts.NotVerdict | schema/schema.go:410-417 | `not` turns the verdict round |
| Verdicts.AnyOfVerdict | schema/schema.go:341-348 | no choice accepts nothing, and one more choice accepts what it accepts besides |
| Verdicts.AllOfVerdict | schema/schema.go:377-384 | no choice accepts everything, and one more choice has to accept too |
| Verdicts.ListLengthVerdict | schema/schema.go:446-459 | both lengths of a list are inclusive |
| Verdicts.ListVerdict | schema/schema.go:460-466 | every item has to be accepted, one item at a time |
| Verdicts.TupleVerdict | schema/schema.go:497-519 | a tuple without extras takes lists of its own length, one child at a time |
| Verdicts.TupleExtrasVerdict | schema/schema.go:508-527 | a tuple with extras takes its children and then what the extra schema accepts, one item at a time |
| Verdicts.ObjectVerdict | schema/schema.go:665-701 | a table, by what holds of each key |
| Verdicts.MethodVerdict | schema/schema.go:565-620 | a call is checked as a tuple of its parameters, another message by its result |
| Verdicts.NamesMakeNoDifference | schema/schema.go:10-23 | a name and a description change no verdict |
| Validator.SchemaValidator.PushPath | schema/validator.go:58-62 | the stack grows by the segment, in place or in a new array; an empty segment is not pushed |
| Validator.SchemaValidator.PopPath | schema/validator.go:64-71 | the inverse of a push; the mismatch that panics is the negation of the precondition |
| Validator.SchemaValidator.NewErrorPos | schema/validator.go:33-41 | the report has its own copy of the path |
| Validator.SchemaValidator.Validate | schema/validator.go:54-56 | returns nil exactly when the datum has the meaning of the schema; otherwise reports a walk to a place that fails for what it is itself, not for a part of it; leaves the stack as it was |
| Validator.SchemaValidator.ValidateAgain | schema/validator.go:33-41 | a report given out earlier is not changed by validating again |
| Validator.SchemaValidator.Scan | schema/validator.go:73-78 | verdict, report and balance of a scan one segment deeper |
| Validator.SchemaValidator.ScanNumber | schema/schema.go:149-193 | the number verdict with inclusive and exclusive bounds |
| Validator.SchemaValidator.ScanInteger | schema/schema.go:232-275 | the integer verdict with inclusive and exclusive bounds |
| Validator.SchemaValidator.ScanAnyOf | schema/schema.go:341-348 | accepts exactly when a choice accepts |
| Validator.SchemaValidator.ScanAllOf | schema/schema.go:377-384 | accepts exactly when every choice accepts, and reports inside the choice that does not |
| Validator.SchemaValidator.ScanSchema | schema/schema.go:410-417 | the dispatch over kinds, with `not` turning the verdict round |
| Validator.SchemaValidator.ScanList | schema/schema.go:446-466 | length bounds and every item |
| Validator.SchemaValidator.ScanTuple | schema/schema.go:497-527 | each child, and the extras by the additional schema or not at all |
| Validator.SchemaValidator.ScanMethod | schema/schema.go:565-585 | data with a list of parameters is checked as a call, other data as a result |
| Validator.SchemaValidator.ScanParams | schema/schema.go:587-613 | parameters and extras, below the segment `.params` |
| Validator.SchemaValidator.ScanResult | schema/schema.go:615-620 | a method without a result schema accepts every result |
| Validator.SchemaValidator.ScanObject | schema/schema.go:665-701 | declared and undeclared properties, in any order of visits |
| Validator.SchemaValidator.ScanDeclared | schema/schema.go:670-687 | a missing property is a fault exactly when it is required |
| Printer.Map | schema/schema.go:318-326 | the printed table has the header, the entries of its kind and nothing else, for every kind |
| Printer.MapBounds | schema/schema.go:131-147 | a bound is printed when set, its exclusive flag only along with it |
| Printer.MapObject | schema/schema.go:645-663 | properties, required names without repetition in some order, extras if set |
| Printer.MapMethod | schema/schema.go:549-563 | parameters, result if set, extras if set |
| Printer.NamesOf | schema/schema.go:653-657 | the required names, each once, in some order |
| BuildSpec.BuiltIsSafe | schema/builder.go:181-316 | every schema that is built has no nil child where one is dereferenced, declares what it requires, and has no negative length bound |
| SchemaDocuments.TypesAreKnown | schema/builder.go:119-147 | the twelve types and no others |
| SchemaDocuments.TypedBuilds | schema/builder.go:160-179 | a table with a type builds what its kind does, under the name and the description in it, which have to be strings |
| SchemaDocuments.UnknownTypeFails | schema/builder.go:145-147 | a type that is no string, or no known one, does not build |
| SchemaDocuments.UntypedBuilds | schema/convert.go:27-44 | a table without a type builds as one of the type that is guessed, in this order, and not at all if there is none to guess |
| SchemaDocuments.TypeNameBuilds | schema/convert.go:20-24 | which type names are schemas by themselves, and which |
| SchemaDocuments.OnlyTablesBuild | schema/builder.go:103-109 | nothing but tables and type names builds |
| SchemaDocuments.ScalarDocument | schema/builder.go:124-129 | what `any`, `null` and `bool` nodes accept |
| SchemaDocuments.StringDocument | schema/builder.go:357-368 | a string node accepts the strings not over `maxLength` and not under `minLength`, where these are integers and not negative |
| SchemaDocuments.IntegerDocument | schema/builder.go:337-355 | an integer node accepts the integers within `maximum` and `minimum`, the bounds included unless their exclusive flags are true |
| SchemaDocuments.NumberDocument | schema/builder.go:318-335 | so with a number node |
| CompositeDocuments.AnyOfDocument | schema/builder.go:230-245 | when an `anyOf` node builds, and what it accepts by its entries |
| CompositeDocuments.AllOfDocument | schema/builder.go:247-262 | when an `allOf` node builds, and what it accepts by its entries |
| CompositeDocuments.NotDocument | schema/builder.go:264-277 | when a `not` node builds, and what it accepts by its entry |
| CompositeDocuments.ListDocument | schema/builder.go:207-228 | when a list node builds, and that it accepts lists within `maxItems` and `minItems` whose items its `items` accept |
| CompositeDocuments.ItemsAreNeeded | schema/builder.go:182-185 | a list node without items does not build |
| CompositeDocuments.TupleDocument | schema/builder.go:187-205 | when a tuple node builds, and that past its items it accepts what `additionalItems` accept, or nothing |
| CompositeDocuments.MethodDocument | schema/builder.go:279-316 | when a method node builds, and what calls and results it accepts by its entries |
| CompositeDocuments.ResultDocument | schema/builder.go:304-314 | what an entry `returns` builds, by what it is |
| CompositeDocuments.ObjectDocument | schema/builder.go:370-409 | when an object node builds, and what it asks of each key |
| CompositeDocuments.PropertiesDocument | schema/convert.go:123-139 | when a table of properties builds, and that one that looks like a node does not |
| TreesLeft.TypeWritten | schema/convert.go:27-44 | the type that a build writes into a table without one |
| TreesLeft.TreeLeft | schema/convert.go:123-158 | the tree that a build leaves of a node, entry by entry |
| Builder.Build | schema/builder.go:45-47 | terminates on every tree; gives the schema of `BuildSpec.Build` or fails with it; leaves the normal form of the tree, or on failure the tree partly visited, whatever the map order |
| Builder.ConvertTypeMap | schema/convert.go:19-49 | type names become tables, tables without a type get the guessed one |
| Builder.ConvertList | schema/convert.go:141-158 | converts every member before any is built, and stops at the first that is no node |
| Builder.ConvertTable | schema/convert.go:123-139 | the same for a property table, whose own inserted type is no node |
| Builder.BuildNode | schema/builder.go:103-109 | the outcome and the tree left of one node |
| Builder.BuildNodeMap | schema/builder.go:111-158 | the outcome of a converted table, for every kind and for none |
| Builder.BuildMixin | schema/builder.go:160-179 | name and description must be strings |
| Builder.BuildListSchema | schema/builder.go:181-228 | list or tuple, outcome and tree left |
| Builder.BuildChoices | schema/builder.go:230-262 | `anyOf` and `allOf` |
| Builder.BuildNotSchema | schema/builder.go:264-277 | `not` |
| Builder.BuildMethodSchema | schema/builder.go:279-316 | method, outcome and tree left |
| Builder.BuildResult | schema/builder.go:304-314 | a result that is no node leaves the schema unset; a table without a type gets `any` |
| Builder.BuildNumberSchema | schema/builder.go:318-335 | number attributes that do not read are absent |
| Builder.BuildIntegerSchema | schema/builder.go:337-355 | integer attributes that do not read are absent |
| Builder.BuildStringSchema | schema/builder.go:357-368 | negative lengths are absent |
| Builder.BuildObjectSchema | schema/builder.go:370-409 | object, outcome and tree left |
| Builder.RequiredNames | schema/builder.go:385-395 | every required name must be declared |
| Normalise.NormalIsTouched | schema/convert.go:27-44 | the tree a finished build leaves is one that a build may leave |
| Normalise.TouchedAddsOnlyTypes | schema/convert.go:27-44 | a build, finished or not, changes its input only by adding `type` entries |
| Normalise.BuildAgain | schema/builder.go:45-47 | building a tree that a build has been through, to the end or not, gives what building the tree itself gives |
| RoundTrip.PrintedTextBuilds | schema/schema.go:703-711 | the text of a printed schema builds exactly when no property table looks like a node and every required name is declared, and then it builds the schema less what `Map` drops |
| RoundTrip.PrintedEntries | schema/schema.go:25-36 | the type, the name and the description in a printed schema, and exactly what entries it has besides |
| RoundTrip.WhatIsErased | schema/schema.go:131-147 | what printing forgets of each kind, and that it forgets nothing else of it |
| RoundTrip.DirectPrintDoesNotBuild | schema/schema.go:318-326 | without the trip through text, a print that holds typed Go lists does not build |
| RoundTrip.ErasedPrintsAlike | schema/schema.go:25-36 | the rebuilt schema prints as the original does, up to the order of `requires`, exactly when every method in it has a result |
| Relaxation.ForgettingMoves | schema/schema.go:410-417 | what `Map` drops moves verdicts one way or the other by polarity |
| Relaxation.PublishedSchemaIsRelaxed | net/request.go:305-307 | the table published under the method's name builds the schema less what `Map` drops, which accepts whatever the handler accepts, when dropped bounds are under an even number of `not`s and dropped tuple extras under an odd number |
| Relaxation.LosslessSchemaKeepsVerdict | schema/schema.go:285-287 | a schema that loses nothing keeps every verdict |
| Relaxation.UnboundedFlagsAreIdle | schema/schema.go:164-193 | an exclusive flag without a bound never changes a verdict |
| Relaxation.TupleExtrasAreNotRelaxed | schema/schema.go:487-495 | an input where a dropped tuple extra makes the published schema stricter |
| Relaxation.NegatedBoundsAreNotRelaxed | schema/schema.go:285-287 | an input where a dropped bound under `not` makes the published schema stricter |
| Publishing.PublicSchemas | net/request.go:298-320 | one entry for each public method in the list of methods, in its order: the printed schema of `GetSchema` under the method's name, or the default |
| Publishing.PublicNamesOf | net/request.go:300-303 | the public names of a list, as often as they are there and in its order |
| Publishing.PublicNamesAre | validators.go:14-20 | which names are public, character by character |
| Publishing.EntryIsRelaxed | net/request.go:304-307 | what a client builds from the entry of a method accepts what the published schema accepts, under the same conditions |
| Publishing.DefaultEntryIsStrict | net/request.go:308-317 | what a client builds from the entry of a method without a schema accepts a call exactly when it has no parameters, though the method takes any |
| Yaml.FixYamlMaps | schema/builder.go:49-80 | succeeds exactly when every key is a string, with the same tree; otherwise its path leads to a key that is not |
| Yaml.SameTreeIsUnique | schema/builder.go:49-80 | a document names at most one tree |
| Yaml.DocumentsKeepTrees | schema/builder.go:49-80 | the document of a tree is the document of no other: string keys, lists and scalars are kept as they are |
| Yaml.BuildYamlInterface | schema/builder.go:82-92 | builds what the JSON form of the document builds, and fails where that fails |
| Yaml.JsonFormBuildsAlike | schema/convert.go:85-121 | Go ints and floats and `json.Number`s of the same text build the same schema |
| Yaml.MarshalledFloatBecomesBound | schema/convert.go:85-101 | a tree where marshalling 5.0 as 5 makes an integer bound that YAML did not give |
| Marshalled.MarshalledBuildsAlike | schema/convert.go:85-121 | a tree of tables, lists and scalars and the text that `json.Marshal` writes for it build alike exactly unless a whole float stands where the builder reads an integer |
| Messages.ReplacedIdComesBack | messageimpl.go:174-184 | a response under another id is the same response, and gets its own id back |
| Messages.ConstructorsKeep | messageimpl.go:309-369 | what the constructors keep of their arguments, and the codes and texts of the fixed errors |
| Messages.CloneKeeps | messageimpl.go:333-337 | a clone is the request under the new id with its parameters in a list |
| Codec.RoundTrip | parse.go:54-138 | decoding the encoding of a message gives it back exactly when it is safe on the wire and its null id, if any, is allowed |
| Codec.IdOnWire | messagemarshal.go:20-44 | exactly null, int and string ids keep their type |
| Codec.ParamsOnWire | messageimpl.go:267-271 | exactly lists, and single parameters that are neither null nor written as a list, keep their shape |
| Codec.ErrorOnWire | types.go:20-24 | an error body comes back whole, and null data is left out |
| Codec.EncodedFields | messagemarshal.go:46-74 | the fields of the document of each kind of message, present and absent |
| Codec.EncodedDocument | messageimpl.go:260-307 | the document of a message, to the last field, version 2.0 included |
| Codec.EncodedKeys | messagemarshal.go:46-74 | exactly which fields the document of each kind has |
| Codec.DecodeEncodeDecode | parse.go:54-138 | a document that decodes gives a message that decodes from its own encoding |
| Codec.DecodeAgainWithOptions | parse.go:100-106 | it does so under the same options exactly unless ids are insisted on and the document was a result without one |
| Codec.DecodedReadsDocument | parse.go:67-137 | a decoded message has the fields of its document; no document with a result and an error decodes; an id makes a request of a notification |
| Codec.DocumentDecodes | parse.go:54-138 | exactly which tables decode |
| Codec.OnlyTablesDecode | parse.go:61-65 | nothing else does |
| Codec.ErrorBodyReads | parse.go:72-78 | exactly how an error body is read |
| Codec.NullFieldIsMissing | parse.go:13-20 | a field that is null is read as missing, except the id |
| Codec.NullIdIsAnId | messagemarshal.go:20-26 | a null id makes a request of what without it would be a notification |
| Codec.ConstructedIsSafe | messageimpl.go:309-331 | constructed requests and notifications carry what the caller gave, and when they are safe on the wire |
| Codec.CloneArrivesAsList | messageimpl.go:333-337 | a cloned by-name request reaches the other side as a list of one |
| Codec.NilErrorArrivesAsResult | messageimpl.go:299-307 | an error message with a nil error is read as a null result |
| Dispatch.HasIsFlat | net/request.go:259-270 | `Has` holds exactly when some actor of the tree has a handler |
| Dispatch.FeedIsFlat | net/request.go:332-379 | `Feed` runs the first handler in preorder, and a missing handler only of the root and only when there is none |
| Dispatch.ComplaintIsFlat | net/request.go:347-361 | a rejected message is answered with a place that the schema of the first handler refuses |
| Dispatch.HasIsListed | net/request.go:272-282 | `Has` holds exactly when the method is in `MethodList` |
| Dispatch.RegisteredIsFlat | net/request.go:272-282 | a method is listed once for every actor that has it |
| Dispatch.ListsAll | net/request.go:272-282 | a list in that order has each method as often as it is registered |
| Dispatch.OwnMethodsComeFirst | net/request.go:272-282 | such a list begins with the actor's own methods |
| Dispatch.SchemaIsFlat | net/request.go:285-295 | `GetSchema` gives the first schema in preorder |
| Dispatch.SchemaAgrees | net/request.go:285-295 | `GetSchema` gives the schema that `Feed` uses exactly unless the first handler has none and a later one has |
| Dispatch.SchemaOfUniqueMethod | net/request.go:285-295 | they agree on a method registered once |
| Dispatch.ResponseDiscipline | net/request.go:381-445 | when a panic escapes; a request gets exactly one of a message and an error, with its own id and trace unless the callback made the message; nothing else gets a message |
| Dispatch.UnknownMethod | net/request.go:372-375 | an unknown method is answered "method not found" under the id and the trace of the request |
| Dispatch.AnswerSays | net/request.go:381-445 | what a request is answered, for each outcome of the callback of the first handler, and to the last word when its schema rejects it |
| Dispatch.NotificationSays | net/request.go:381-420 | what a notification comes to, for each outcome of the callback of the first handler |
| Dispatch.MissingAnswerSays | net/request.go:369-376 | what a request that no handler has is answered, for each outcome of the missing handler, and without one |
| Dispatch.MissingOtherSays | net/request.go:334-342 | what a notification that no handler has comes to, and a message that is neither a request nor a notification |
| Dispatch.JoinedInTurn | schema/validator.go:13-19 | the text of a path is its segments one after another |
| Dispatch.EarlierChildFirst | net/request.go:364-368 | an actor's own handler comes before its children's, and an earlier child before a later one; so with schemas |
| Dispatch.AnswerIgnoresId | net/request.go:332-379 | under callbacks that do not look at ids, the answer under another id is the same answer with that id |
| Actors.Actor.constructor | net/request.go:139-148 | an empty actor that validates and recovers |
| Actors.Actor.AddChild | net/request.go:150-152 | the child is appended; where it is not above the actor, the tree gets one more child, last |
| Actors.Actor.OnRequest | net/request.go:177-190 | a second registration is refused and changes nothing |
| Actors.Actor.Off | net/request.go:223-225 | the handler goes, here and not below |
| Actors.Actor.OnMissing | net/request.go:229-235 | a second missing handler is refused |
| Actors.Actor.Has | net/request.go:259-270 | the search of `Dispatch.Has` over the object graph |
| Actors.Actor.MethodList | net/request.go:272-282 | the actor's own methods in any order, and then the lists of its children in theirs; each method as often as it is registered |
| Actors.Actor.GetSchema | net/request.go:285-295 | the search of `Dispatch.GetSchema` over the object graph |
| Actors.Actor.Feed | net/request.go:332-379 | the dispatch of `Dispatch.Feed` over the object graph; a complaint names a place at fault |
| Actors.Actor.RunHandler | net/request.go:345-362 | validation, then the callback |
| Protocol.StepKeeps | net/streaming_client.go:273-302 | the books hold after every atomic step of client, timers, transport and server |
| Protocol.ClosingIsExact | net/streaming_client.go:192-201 | exactly what closes the connection: a document that is no message at either end, an error or a panic of a handler, hanging up |
| Protocol.ClosedIsQuiet | net/streaming_client.go:130-142 | on a closed connection nothing is written or read at either end |
| Protocol.NoAnswerAfterClose | net/streaming_client.go:242-271 | no call is given an answer after the connection has closed |
| Protocol.FailedSendLeavesEntry | net/streaming_client.go:347-351 | a call whose send fails leaves its entry and starts no timer |
| Protocol.QueuesAreOrdered | net/streaming_client.go:225-237 | what is first in a queue is what is taken, and what comes is put last |
| Protocol.NoCallAnsweredTwice | net/streaming_client.go:283-301 | in every state of every run no channel has had two messages, a message has the id of the caller's own request, a timeout is error 200, and a stored call is exactly one of pending, answered and overwritten |
| Protocol.TimerSettlesCall | net/streaming_client.go:293-302 | after its own timer a call has its message or has been overwritten |
| Protocol.NoCallIsLost | net/streaming_client.go:335-345 | with check and store exclusive of other calls of the same id, a stored call is pending exactly while it has no message, and after its own timer has one |
| Protocol.ExclusiveIsNeeded | net/streaming_client.go:336-345 | one step keeps every call out of danger of being overwritten exactly when it is exclusive |
| Protocol.ExclusiveRuns | net/streaming_client.go:336-345 | so do exactly the runs all of whose steps are |
| Correlation.LinkStaysGood | net/tcp_server.go:121-156 | every step keeps everything under way what its mark says: requests, running handlers and answers of their calls |
| Correlation.AnswersReachTheirCallers | net/streaming_client.go:273-291 | end to end, whatever the order in which handlers end, where no request is stored under the id of a busy call: an answer on a channel was made for that call, and is the actor's answer to what the caller asked, with the caller's own id; a swapped by-name request asks with a list |
| Correlation.AnswersAreRightWithoutTimeouts | net/streaming_client.go:328-370 | this holds while no timer has fired and check and store have been exclusive, even where ids collide and are swapped |
| Correlation.AnswersAreRightWithoutReuse | net/streaming_client.go:328-370 | this holds, timers or not, while no id has gone out twice |
| Correlation.StepInFlight | net/streaming_client.go:372-379 | only sending adds to what is under way for a call, and reading takes away what was read |
| Correlation.OwnAnswerIsOwed | messageimpl.go:174-184 | the answer to a swapped id is the answer to the caller's own request, in a list if it was swapped, once its id is put back |
| Hazards.AnswerGoesTo | net/streaming_client.go:273-291 | an answer with nothing ahead of it is given to whichever call is pending under its id |
| Hazards.UndisturbedCall | net/streaming_client.go:328-370 | a run in which a call is made, sent, handled and answered, with the exact state after it |
| Hazards.OverlapLosesCall | net/streaming_client.go:336-345 | from any state, a check between the check and the store of another call, and stored after it, loses that call exactly when it was not exclusive of it |
| Hazards.RaceLosesCall | net/streaming_client.go:336-345 | two calls of one id that both pass the check: the first is overwritten |
| Hazards.RaceMisdirects | net/streaming_client.go:336-345 | the same race, with no timer fired, gives the second caller the answer made for the first |
| Hazards.LostForever | net/streaming_client.go:345 | a call that is overwritten at one point of a run has no message at that point or any later |
| Timers.TimerEndsWhoeverIsPending | net/streaming_client.go:293-302 | a timer touches exactly the channel of the call pending under its id, and gives it a timeout |
| Timers.TimeoutsAreOwn | net/streaming_client.go:293-302 | where no request is stored under the id of a call whose timer is running, or will be, a call with a timeout was ended by its own timer |
| Timers.PunctualRuns | net/streaming_client.go:293-302 | exactly the runs that keep that condition keep every timer its own call's |
| Timers.LateStoreIsTimedOut | net/streaming_client.go:293-302 | from any state, a request stored against that condition can be ended by the other's timer, its own not started |
| Timers.TimeoutsAreOwnWithoutReuse | net/streaming_client.go:293-302 | while no id has gone out twice, every timeout is the call's own |
| Timers.OldTimerEndsLaterCall | net/streaming_client.go:293-302 | a run in which the timer of an answered call ends a later call with the same id |
| Misdirection.AnswerArrives | net/streaming_client.go:273-291 | whatever is alone under way for a call, at any stage, comes back as an answer to whichever call is pending under its id |
| Misdirection.CarelessStoreMisdirects | net/streaming_client.go:340-345 | from any state, a request stored under the id of a busy call with nothing else under way can be given the busy call's answer |
| Misdirection.ReusedIdGetsOldAnswer | net/streaming_client.go:273-291 | a run in which a caller is given the late answer to an earlier call with the same id |
| Misdirection.PushedResponseIsTaken | net/tcp_server.go:158-160 | a response that a handler sends through its session is given to whichever call is pending under its id |
| Misdirection.EchoMisdirects | net/streaming_client.go:273-291 | a misdirected answer for one actor and two requests |
| Client.StreamingClient.Load | net/streaming_client.go:333-338 | the check of the id is a step of the protocol; a taken id is swapped |
| Client.StreamingClient.Store | net/streaming_client.go:340-345 | the store of the entry is a step of the protocol |
| Client.StreamingClient.Send | net/streaming_client.go:372-379 | the send is a step of the protocol |
| Client.StreamingClient.HandleResult | net/streaming_client.go:273-291 | the entry goes and its channel gets the message with the caller's id, without blocking; other messages go to the handler |
| Client.StreamingClient.Expire | net/streaming_client.go:293-302 | whichever call is pending under the id times out, without blocking |
| Client.StreamingClient.SendLoop | net/streaming_client.go:207-240 | everything in the queue is written, in order, and each turn is the protocol's write |
| Client.StreamingClient.RecvLoop | net/streaming_client.go:242-271 | each turn is the protocol's read; requests and notifications come to the message handler, each once and in order; the first document that is no message ends the connection |
| Client.StreamingClient.ReadOne | net/streaming_client.go:251-268 | what one document changes, and what the message handler is given |
| Client.OthersAreHandedOver | net/streaming_client.go:261-266 | the requests and notifications among what is read are handed over, each once and in order, whatever else is |
| Client.StreamingClient.Reset | net/streaming_client.go:130-142 | the connection is closed and what was yet to be written is dropped; what is pending stays pending |
| Session.TCPSession.RecvLoop | net/tcp_server.go:121-136 | a handler is started for every message up to the first document that is none, in order, and that ends the session |
| Session.TCPSession.MsgReceived | net/tcp_server.go:138-156 | the end of a goroutine is a step of the protocol, with the answer that the actor makes |
| Session.HandlerEndsAs | net/tcp_server.go:138-156 | the reply is put last in the queue, and an error or a panic ends the session |
| Session.TCPSession.SendLoop | net/tcp_server.go:170-199 | everything in the queue is written, in order |
| JwtCache.AuthHandler.JwtAuth | net/auth_handler.go:122-170 | while the clock does not go back, the verdict and the claims are those of a fresh verification, and the cache stays sound |
| JwtCache.FreshGrants | net/auth_handler.go:136-170 | exactly when access is granted for a token, and with which user and settings |
| JwtCache.OtherSchemesAreDenied | net/auth_handler.go:122-128 | every header of another form is denied, but for the one word |
| JwtCache.CacheRemembers | net/auth_handler.go:69 | the cache keeps a hundred entries, and the least recent makes way |
| JwtCache.CacheMovesToFront | net/auth_handler.go:132 | an entry that is used moves to the front of the others |
| JwtCache.CacheIsTransparent | net/auth_handler.go:132-134 | at every call of every run, whatever entries the cache has lost, cached and fresh verdicts agree |
| JwtCache.CrashesWithoutToken | net/auth_handler.go:128-136 | exactly the header `Bearer`, with no space, is indexed out of range |
| JwtCache.EarlierClockShowsCache | net/auth_handler.go:155-161 | a clock that goes back lets in a token that is not yet valid |
| JwtCache.CacheShows | net/auth_handler.go:132-161 | a good entry gives the verdict of a fresh verification exactly when it has started or has expired |
| JwtCache.LruCache.Get | net/auth_handler.go:132 | a hit becomes the most recent entry |
| JwtCache.LruCache.Add | net/auth_handler.go:163 | the entry becomes the most recent, and beyond 100 the least recent goes |
| JwtCache.LruCache.Remove | net/auth_handler.go:158 | the entry goes, and no other |

## Left out

- Sockets, TLS, HTTP, HTTP/2, websocket and vsock transports, and the command line programs: a transport here is two queues.
- Reconnection: one connection is studied. `Connect` and `Reset` are atomic, a connection that is closed stays closed, and callers released by `TransportClosed` are not followed.
- The limits of the two send channels (100 messages) and the blocking of a sender on them: the queues are unbounded.
- Ids that Go cannot hash (lists and tables), at which `sync.Map` panics: the model takes every id for a key.
- UUIDs: taken to differ from every id used so far.
- JSON and YAML text: documents are trees. Keys that differ only in case, repeated keys, and strings that are not UTF-8 are left out.
- `float64` as a real number: rounding, infinities and NaN are left out, and with them a `json.Number` too large for a float.
- Go's sharing of one map between two places of a tree: the builder's input is taken for a tree, and a map changed in place is handed back changed.
- Nil slices and nil maps inside schemas and messages: they are taken for empty ones, as the constructors make them. The helpers of `Equal` tell them apart.
- The paths of build errors, which leave out `.items`, and the texts of errors and hints.
- `responseHeader` of a response, log entries, `EncodePretty`, `CacheKey`, `WithData`.
- Messages as values: `SetTraceId` gives a new message.
- `wrapTyped`, `DecodeParams` and `DecodeInterface`: reflection. `MessageMap` is the table of a message's fields.
- Contexts, sessions and HTTP requests, as far as callbacks see them: a callback is a function of the message and of a moment, which stands for everything else.
- `OnClose` and `HandleClose`, the other method name validators, `GuessJson`, basic and bearer authentication: they would add only easy members.
- `TCPServer.Start`, `Stop` and `TCPSession.wait`: accepting and ending connections.
- Validator.SchemaValidator.Validate: requires a schema without nil children, as the builder makes it; on any other the source panics.
- Actors.Actor.OnRequest: takes the schema instead of setters, and asks of it what the validator asks.
- Actors.Actor.AddChild: says nothing of the tree where the child is above the actor, on which the source would search for ever; and a child that is given children of its own has to be given them before it is added.
- Client.StreamingClient.Send: does not reconnect, and the channel it sends to is unbounded.
- Client.StreamingClient.Reset: leaves out the token on the close channel, which wakes one waiter.
- Misdirection.CarelessStoreMisdirects: asks that nothing but the busy call's own is under way; what is ahead of it could end the connection before it is read.
- Builder.Build: says of an error only that there is one; the order in which Go visits maps decides which.
- Correlation.AnswersReachTheirCallers: asks that no request is stored under the id of a busy call, which the source does not ensure; that the client sends requests only as calls and handlers send no responses through their sessions; that callbacks do not look at the request's id and do not make messages of their own, and that handlers' schemas are method schemas; a schema of another kind could look at the id.
- Correlation.AnswersAreRightWithoutTimeouts: asks in addition that check and store are exclusive; `Hazards.RaceMisdirects` is the run without it.
- Protocol.NoCallIsLost: takes the check and the store of an id as one with respect to other calls of the same id, which the source does not ensure; `Hazards.OverlapLosesCall` is what follows without it.
- JwtCache.AuthHandler.JwtAuth: the clock is read once for a call, and the signature check depends on the token alone.
- Whether an answer or a timeout comes at all: nothing is said about what must happen, only about what does.
