/**
 The resolvers the GraphQL generator wires to every generated field. A resolver builder,
 given a declared class, returns a closure over (parent, args, context, info); here each
 closure is a function of the builder's inputs and the closure's, and answers the value
 or error it completes with together with the log of downstream calls it made.
 `parent` is never read and is left out.
 */
module Resolvers {
  import opened Outcomes
  import opened Values
  import opened Envelopes
  import opened Downstream

  /**
   One generator instance. `serial` tells apart instances built by different constructions;
   `config` is the configuration bound into the subscription resolvers and `logger` the one
   its subsystems were built with.
   */
  datatype GraphQLGenerator = GraphQLGenerator(serial: nat, config: BoosterConfig, logger: Logger)

  /** The name of the paginated list query of a read model: `List` followed by its plural. */
  function ListFieldName(pluralize: string -> string, className: ClassName): string {
    "List" + pluralize(className)
  }

  /** True when the resolver was invoked through the read model's list field. */
  predicate InvokedAsList(pluralize: string -> string, className: ClassName, info: Option<ResolveInfo>) {
    info.Some? && info.value.fieldName == ListFieldName(pluralize, className)
  }

  /** The arguments a single-item field is rewritten to: the filter `{id: {eq: id}}` alone. */
  function IdFilterArgs(id: Json): ReadModelRequestArgs {
    ReadModelRequestArgs(Obj(map["id" := Obj(map["eq" := id])]), Undefined, Undefined)
  }

  /** True when the context names a connection: `connectionID` is present and not empty. */
  predicate HasConnectionID(context: ResolverContext) {
    context.connectionID.Some? && context.connectionID.value != ""
  }

  /**
   List query resolver: one fetch of the read model, paginated exactly when invoked through
   the `List<plural>` field, whose completion is handed back untouched.
   */
  function ReadModelResolver(
    sys: Subsystems, pluralize: string -> string, readModelClass: ClassName,
    args: ReadModelRequestArgs, context: ResolverContext, info: Option<ResolveInfo>): (r: Run<Json>)
    ensures |r.log| == 1 && r.log[0].FetchReadModels?
    ensures r.log[0].request.paginatedVersion <==> InvokedAsList(pluralize, readModelClass, info)
    ensures r.log[0].request == ToReadModelRequestEnvelope(readModelClass, args, context, r.log[0].request.paginatedVersion)
    ensures r.result == Propagate(sys.fetchReadModels(r.log[0].request))
  {
    var isPaginated := InvokedAsList(pluralize, readModelClass, info);
    var readModelEnvelope := ToReadModelRequestEnvelope(readModelClass, args, context, isPaginated);
    Run(Propagate(sys.fetchReadModels(readModelEnvelope)), [FetchReadModels(readModelEnvelope)])
  }

  /**
   Single-item query resolver: the list resolver on `{id: {eq: id}}`, answering element 0 of
   what the fetch resolved with. An empty array answers undefined, not an error.
   */
  function ReadModelByIDResolver(
    sys: Subsystems, pluralize: string -> string, readModelClass: ClassName,
    args: ByIdArgs, context: ResolverContext, info: Option<ResolveInfo>): (r: Run<Json>)
    ensures |r.log| == 1 && r.log[0].FetchReadModels?
    ensures r.log[0].request.filters == Obj(map["id" := Obj(map["eq" := args.id])])
    ensures r.log[0].request.limit == Undefined && r.log[0].request.afterCursor == Undefined
    ensures r.log[0].request.requestID == context.requestID && r.log[0].request.currentUser == context.user
    ensures r.log[0].request.typeName == readModelClass
    ensures r.log[0].request.paginatedVersion <==> InvokedAsList(pluralize, readModelClass, info)
    ensures sys.fetchReadModels(r.log[0].request).Err? ==>
              r.result == Err(Rejected(sys.fetchReadModels(r.log[0].request).error))
    ensures sys.fetchReadModels(r.log[0].request) == Ok(Arr([])) ==> r.result == Ok(Undefined)
    ensures forall items :: sys.fetchReadModels(r.log[0].request) == Ok(Arr(items)) && |items| > 0
                            ==> r.result == Ok(items[0])
    ensures r.result == Err(CannotReadIndexZero) <==>
              sys.fetchReadModels(r.log[0].request).Ok? && IsNullish(sys.fetchReadModels(r.log[0].request).value)
  {
    var listed := ReadModelResolver(sys, pluralize, readModelClass, IdFilterArgs(args.id), context, info);
    match listed.result
    case Err(e) => Run(Err(e), listed.log)
    case Ok(found) =>
      match ElementZero(found)
      case None => Run(Err(CannotReadIndexZero), listed.log)
      case Some(first) => Run(Ok(first), listed.log)
  }

  /** The `events` query resolver: one search of the events reader with the arguments as filters. */
  function EventResolver(sys: Subsystems, args: EventFilter, context: ResolverContext): (r: Run<seq<Json>>)
    ensures |r.log| == 1 && r.log[0].FetchEvents?
    ensures r.log[0].search.filters == args
    ensures r.log[0].search.requestID == context.requestID && r.log[0].search.currentUser == context.user
    ensures r.result == Propagate(sys.fetchEvents(r.log[0].search))
  {
    var eventsRequestEnvelope := ToEventSearchRequest(args, context);
    Run(Propagate(sys.fetchEvents(eventsRequestEnvelope)), [FetchEvents(eventsRequestEnvelope)])
  }

  /**
   Mutation resolver: dispatches one command envelope and answers `true` once the dispatch
   has completed; a rejected dispatch rejects the mutation with the dispatcher's reason.
   */
  function CommandResolver(
    sys: Subsystems, commandClass: ClassName, args: CommandArgs, context: ResolverContext): (r: Run<bool>)
    ensures |r.log| == 1 && r.log[0].DispatchCommand?
    ensures r.log[0].command.typeName == commandClass && r.log[0].command.value == args.input
    ensures r.log[0].command.requestID == context.requestID && r.log[0].command.currentUser == context.user
    ensures r.log[0].command.version == SchemaVersion
    ensures r.result.Ok? <==> sys.dispatchCommand(r.log[0].command).Pass?
    ensures r.result.Ok? ==> r.result.value
    ensures sys.dispatchCommand(r.log[0].command).Fail? ==>
              r.result == Err(Rejected(sys.dispatchCommand(r.log[0].command).error))
  {
    var commandEnvelope := ToCommandEnvelope(commandClass, args.input, context);
    match sys.dispatchCommand(commandEnvelope)
    case Fail(reason) => Run(Err(Rejected(reason)), [DispatchCommand(commandEnvelope)])
    case Pass => Run(Ok(true), [DispatchCommand(commandEnvelope)])
  }

  /**
   List subscription resolver. Without a connection it rejects before any call. Otherwise it
   persists the subscription first when the context asks for it (a rejection there ends the
   resolver), then asks the pub/sub handle for the stream of the same, unpaginated, envelope;
   a handle that throws rejects the resolver after that request.
   */
  function SubscriptionResolver(
    generator: GraphQLGenerator, sys: Subsystems, readModelClass: ClassName,
    args: ReadModelRequestArgs, context: ResolverContext): (r: Run<Stream>)
    ensures r.result == Err(MissingConnectionID) <==> !HasConnectionID(context)
    ensures !HasConnectionID(context) ==> r.log == []
    ensures HasConnectionID(context) ==>
      var envelope := ToReadModelRequestEnvelope(readModelClass, args, context);
      var persisted := sys.subscribe(context.connectionID.value, envelope, context.operation);
      var started := sys.asyncIterator(context.pubSub, envelope, generator.config);
      var persist := Subscribe(context.connectionID.value, envelope, context.operation);
      var iterate := AsyncIterator(context.pubSub, envelope, generator.config);
      var before := if context.storeSubscriptions then [persist] else [];
      if context.storeSubscriptions && persisted.Fail? then
        r == Run(Err(Rejected(persisted.error)), [persist])
      else if started.Fail? then
        r == Run(Err(Rejected(started.error)), before + [iterate])
      else
        r == Run(Ok(Stream(context.pubSub, envelope, generator.config)), before + [iterate])
    ensures r.result.Ok? ==> !r.result.value.request.paginatedVersion && r.result.value.config == generator.config
  {
    if !HasConnectionID(context) then
      Run(Err(MissingConnectionID), [])
    else
      var connectionID := context.connectionID.value;
      var readModelRequestEnvelope := ToReadModelRequestEnvelope(readModelClass, args, context);
      var persisted := if context.storeSubscriptions
                       then sys.subscribe(connectionID, readModelRequestEnvelope, context.operation)
                       else Pass;
      var before := if context.storeSubscriptions
                    then [Subscribe(connectionID, readModelRequestEnvelope, context.operation)]
                    else [];
      match persisted
      case Fail(reason) => Run(Err(Rejected(reason)), before)
      case Pass =>
        var iterate := AsyncIterator(context.pubSub, readModelRequestEnvelope, generator.config);
        match sys.asyncIterator(context.pubSub, readModelRequestEnvelope, generator.config)
        case Fail(reason) => Run(Err(Rejected(reason)), before + [iterate])
        case Pass => Run(Ok(Stream(context.pubSub, readModelRequestEnvelope, generator.config)), before + [iterate])
  }

  /**
   Single-item subscription resolver: the list subscription resolver on `{id: {eq: id}}`,
   with its connection check, its optional persistence and its stream.
   */
  function SubscriptionByIDResolver(
    generator: GraphQLGenerator, sys: Subsystems, readModelClass: ClassName,
    args: ByIdArgs, context: ResolverContext): (r: Run<Stream>)
    ensures r.result == Err(MissingConnectionID) <==> !HasConnectionID(context)
    ensures !HasConnectionID(context) ==> r.log == []
    ensures HasConnectionID(context) ==>
      var envelope := ToReadModelRequestEnvelope(readModelClass, IdFilterArgs(args.id), context);
      var persisted := sys.subscribe(context.connectionID.value, envelope, context.operation);
      var started := sys.asyncIterator(context.pubSub, envelope, generator.config);
      var proceeds := !context.storeSubscriptions || persisted.Pass?;
      && 1 <= |r.log| <= 2
      && (context.storeSubscriptions ==> r.log[0] == Subscribe(context.connectionID.value, envelope, context.operation))
      && (proceeds <==> r.log[|r.log| - 1] == AsyncIterator(context.pubSub, envelope, generator.config))
      && (r.result.Ok? <==> proceeds && started.Pass?)
      && (r.result.Ok? ==> r.result.value == Stream(context.pubSub, envelope, generator.config))
      && (!proceeds ==>
            r == Run(Err(Rejected(persisted.error)), [Subscribe(context.connectionID.value, envelope, context.operation)]))
      && (proceeds && started.Fail? ==> r.result == Err(Rejected(started.error)))
      && (!context.storeSubscriptions ==> |r.log| == 1)
    ensures r.result.Ok? ==>
      var request := r.result.value.request;
      && request.filters == Obj(map["id" := Obj(map["eq" := args.id])])
      && request.limit == Undefined && request.afterCursor == Undefined
      && request.typeName == readModelClass && !request.paginatedVersion
  {
    SubscriptionResolver(generator, sys, readModelClass, IdFilterArgs(args.id), context)
  }
}
