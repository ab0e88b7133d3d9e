# GraphQL resolver layer of the Booster framework, in Dafny

This project models the resolver layer of Booster's GraphQL generator
(`GraphQLGenerator` in `packages/framework-core/src/services/graphql/graphql-generator.ts`).
Booster generates a GraphQL API from declared command and read-model classes. Each generated
field is wired to a resolver. The resolver turns one field invocation into one request envelope
and hands it to a downstream subsystem:

- the command dispatcher, for mutations;
- the read-models reader, for queries and for persisting subscriptions;
- the events reader, for the `events` query;
- the context's pub/sub handle, for the live stream a subscription answers.

The model is functional:

- `Values` models the JavaScript values crossing the layer (`Json`), `??` (`Coalesce`) and
  `v[0]` (`ElementZero`).
- `Envelopes` holds the resolver context and arguments, the three envelopes and their builders.
- `Downstream` models each subsystem, the pub/sub handle included, as a total function from
  request to completion in `Subsystems`. A call completes with a value, or with the reason the
  call failed or threw. `Run` pairs what a resolver answers with the ordered log of
  downstream calls it made.
- `Resolvers` holds one function per resolver closure. Each takes the downstream `Subsystems` and
  the closure arguments it reads, `args` and `context`. All but `EventResolver`, which is a plain
  method rather than a builder, also take the class name the builder was given. The list and
  single-item query resolvers also take `info` and `pluralize`. The subscription resolvers take
  the `GraphQLGenerator` instance, whose `config` stands for the configuration bound into them at
  construction.
- A downstream rejection carries the subsystem's reason and reaches the resolver's answer as
  `Rejected(reason)`, unchanged.
- `ResolverProperties` relates resolvers to each other and to their call logs.
- `Singleton` models the static `build`, with instance identity given by a construction serial.

`pluralize` (from the `inflected` library) is a parameter of type `string -> string`. Nothing
about it is assumed, except where a lemma states its own requirement.

Four details of the code the model keeps:

- The missing-`connectionID` check is inside the `async` closure, so the resolver's promise is
  rejected with that error and no downstream call is made. The model answers
  `Err(MissingConnectionID)` with an empty call log.
- The check tests `connectionID` for falsiness, so an empty connection ID is refused the same way
  as an absent one (`HasConnectionID`).
- The single-item query passes its own `info` on to the list resolver. It is therefore
  unpaginated only because its field name differs from `List<plural>`. `ByIDQueryIsNotPaginated`
  states when that holds.
- `args.filter ?? {}` replaces a `null` filter as well as an absent one.

## Model

| member | source | states |
|---|---|---|
| Values.Coalesce | packages/framework-core/src/services/graphql/graphql-generator.ts:163 | `??` replaces exactly null and undefined by the fallback and keeps every other value |
| Values.ElementZero | packages/framework-core/src/services/graphql/graphql-generator.ts:100 | `result[0]` fails exactly on null/undefined; on an array it is the first element, or undefined when the array is empty |
| Downstream.Propagate | packages/framework-core/src/services/graphql/graphql-generator.ts:89-90 | a downstream completion reaches the resolver unchanged: the same value when it resolves, and the subsystem's own reason, wrapped as `Rejected`, when it rejects |
| Envelopes.ToReadModelRequestEnvelope | packages/framework-core/src/services/graphql/graphql-generator.ts:153-169 | requestID and user are copied from the context; typeName is the read-model name; filters is the filter argument, or `{}` when it is nullish; limit and cursor are copied; paginatedVersion defaults to false; version is 1 |
| Envelopes.ToEventSearchRequest | packages/framework-core/src/services/graphql/graphql-generator.ts:171-177 | requestID and user are copied from the context, and the arguments become the filters |
| Envelopes.ToCommandEnvelope | packages/framework-core/src/services/graphql/graphql-generator.ts:180-188 | requestID and user are copied from the context; typeName is the command name; value is the input; version is 1 |
| Envelopes.ReadModelEnvelopeInjective | packages/framework-core/src/services/graphql/graphql-generator.ts:153-169 | two read-model envelopes are equal iff name, caller, coalesced filter, limit, cursor and flag agree; no other context field reaches the envelope |
| Envelopes.CommandEnvelopeInjective | packages/framework-core/src/services/graphql/graphql-generator.ts:180-188 | two command envelopes are equal iff command name, input and caller agree |
| Envelopes.EventSearchRequestInjective | packages/framework-core/src/services/graphql/graphql-generator.ts:171-177 | two event searches are equal iff filters and caller agree |
| Resolvers.ReadModelResolver | packages/framework-core/src/services/graphql/graphql-generator.ts:81-92 | exactly one fetch; it is paginated iff the invoked field is `List` + pluralize(class); the fetch's completion is answered unmodified |
| Resolvers.ReadModelByIDResolver | packages/framework-core/src/services/graphql/graphql-generator.ts:94-102 | exactly one fetch, with filters `{id:{eq:id}}` and no limit or cursor; answers the first element, undefined for an empty array, and the fetch's own rejection reason on rejection; a TypeError iff the fetch resolved with null or undefined |
| Resolvers.EventResolver | packages/framework-core/src/services/graphql/graphql-generator.ts:104-112 | exactly one event search, whose filters are the arguments; its completion is answered unmodified |
| Resolvers.CommandResolver | packages/framework-core/src/services/graphql/graphql-generator.ts:114-122 | exactly one dispatch, of the envelope {class name, input, caller, version 1}; answers true iff the dispatch completes, and otherwise rejects with the dispatcher's reason |
| Resolvers.SubscriptionResolver | packages/framework-core/src/services/graphql/graphql-generator.ts:134-150 | it rejects with the missing-connectionID error iff the connection ID is absent or empty, and then makes no call; otherwise it subscribes iff persistence is asked for, and a subscribe rejection stops it before the iterator; it then requests the iterator for the same unpaginated envelope with the bound configuration, and answers that stream, or the handle's rejection reason when the handle throws |
| Resolvers.SubscriptionByIDResolver | packages/framework-core/src/services/graphql/graphql-generator.ts:124-150 | the missing-connectionID rejection, with an empty log, iff there is no connection ID; otherwise it subscribes iff persistence is asked for; the iterator is the last call iff no subscribe was needed or the subscribe passed; it answers a stream iff, in addition, the handle returned one, and otherwise the rejection reason of the call that failed; the stream is over `{id:{eq:id}}`, with no limit or cursor, and is unpaginated |
| ResolverProperties.ByIDQueryIsFirstOfList | packages/framework-core/src/services/graphql/graphql-generator.ts:97-101 | the single-item query makes the same call as the list query on `{id:{eq:id}}` and answers element 0 of its result |
| ResolverProperties.ByIDQueryIsNotPaginated | packages/framework-core/src/services/graphql/graphql-generator.ts:84-99 | invoked through its own field, the single-item query is unpaginated whenever pluralisation does not shorten the class name |
| ResolverProperties.ListQueryIsPaginated | packages/framework-core/src/services/graphql/graphql-generator.ts:84-89 | invoked through `List` + pluralize(class), the list query is paginated |
| ResolverProperties.SubscriptionStreamsQueryEnvelope | packages/framework-core/src/services/graphql/graphql-generator.ts:84-148 | a subscription and a non-list query with the same arguments and the same caller, in contexts that may differ in connection, persistence flag, operation and pub/sub handle, stream and fetch exactly the same envelope |
| ResolverProperties.SubscribeCalledIff | packages/framework-core/src/services/graphql/graphql-generator.ts:139-146 | the subscription store is called iff a connection ID is present and storeSubscriptions holds |
| ResolverProperties.IteratorRequestAndAnswer | packages/framework-core/src/services/graphql/graphql-generator.ts:139-148 | the pub/sub iterator is requested iff a connection ID is present and persistence, when asked for, passed; the subscription answers a stream iff the iterator was requested and the handle returned one |
| ResolverProperties.PersistedEnvelopeIsStreamed | packages/framework-core/src/services/graphql/graphql-generator.ts:143-148 | with persistence, the envelope subscribed for the connection is the envelope streamed |
| ResolverProperties.EventResolverNonInterference | packages/framework-core/src/services/graphql/graphql-generator.ts:104-112 | two events queries make the same search iff their filters and caller agree, and the same search gives the same answer |
| ResolverProperties.CommandResolverNonInterference | packages/framework-core/src/services/graphql/graphql-generator.ts:114-122 | two mutations dispatch the same envelope iff class, input and caller agree, so no other context field reaches the dispatch; the same dispatch gives the same answer |
| ResolverProperties.SubscriptionByIDSubscribeCalledIff | packages/framework-core/src/services/graphql/graphql-generator.ts:128-146 | the single-item subscription calls the store iff a connection ID is present and storeSubscriptions holds |
| ResolverProperties.SubscriptionByIDIteratorRequestAndAnswer | packages/framework-core/src/services/graphql/graphql-generator.ts:128-148 | the same two iffs for the single-item subscription, over its `{id:{eq:id}}` envelope |
| Singleton.Build | packages/framework-core/src/services/graphql/graphql-generator.ts:32-42 | with an instance present, returns it and changes nothing; otherwise constructs one from the given config and logger and stores it |
| Singleton.BuildIsIdempotent | packages/framework-core/src/services/graphql/graphql-generator.ts:32-42 | a second build, with any arguments, answers the first build's instance and leaves the registry unchanged |
| Singleton.FirstCallWins | packages/framework-core/src/services/graphql/graphql-generator.ts:30-42 | over any sequence of builds, all answers are one instance, at most one construction happens, and in a fresh process the first call's config decides it |
| Singleton.SubscriptionsUseFirstConfig | packages/framework-core/src/services/graphql/graphql-generator.ts:32-69 | every instance build answers in a fresh process streams subscriptions with the config of the very first build call |

## Left out

- Schema assembly (`generateSchema`, lines 73-79) and the constructor's wiring of the type
  informer and the query, mutation and subscription generators (lines 50-70). These wrap the
  `graphql` library and generator classes that are not part of this model.
- Pluralisation: `pluralize` is an arbitrary function parameter, not the `inflected` library's rules.
- Promises and `await` are modelled as sequential calls that complete with a value or an error.
  The live pub/sub stream is modelled as a `Stream` value naming its source, envelope and
  configuration. What the stream later yields is not modelled; only whether the handle returned it
  or threw is.
- The `parent` argument of every resolver is never read, so it is not modelled. The downstream
  subsystems are the `Subsystems` parameter; which of them the constructor creates from the
  config and logger is not modelled.
- `build` is synchronous: it contains no `await`, and the constructor it calls is not `async`.
  One call therefore runs to completion before the next starts, and modelling the calls one after
  another follows the source.
- Singleton.Build: a construction that throws is not modelled. The model's `build` always
  succeeds. In the source, the generator's constructor and the subsystem constructors it runs
  could throw. Then `build` throws, `singleton` stays undefined, and the next call constructs with
  its own config. So the "first call's config decides it" clause of `Singleton.FirstCallWins`, and
  `Singleton.SubscriptionsUseFirstConfig`, assume that the first construction succeeds.
- JavaScript numbers are modelled as unbounded integers. Strings are sequences of characters, not
  UTF-16 code units.
- The events reader's and the read-models reader's record formats are opaque `Json`. A paginated
  page object is a `Json` object like any other.
