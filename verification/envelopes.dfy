/**
 The per-request inputs of a resolver (its arguments and its context) and the three
 envelopes the resolver layer builds from them before calling a downstream subsystem.
 */
module Envelopes {
  import opened Outcomes
  import opened Values

  /** The `name` of a declared read-model or command class. */
  type ClassName = string

  /** The schema version every envelope is stamped with; it is not taken from the request. */
  const SchemaVersion: int := 1

  /** The context's publish/subscribe handle, identified by the channel it serves. */
  datatype PubSubHandle = PubSubHandle(channel: string)

  /**
   The context GraphQL execution hands to every resolver. `user` may be undefined (anonymous);
   `operation` is the GraphQL operation descriptor, kept opaque.
   */
  datatype ResolverContext = ResolverContext(
    requestID: string,
    user: Json,
    connectionID: Option<string>,
    storeSubscriptions: bool,
    operation: Json,
    pubSub: PubSubHandle)

  /** The field-metadata argument of a resolver; only the invoked field name is read. */
  datatype ResolveInfo = ResolveInfo(fieldName: string)

  /** Arguments of a list query or list subscription; every one of them may be undefined. */
  datatype ReadModelRequestArgs = ReadModelRequestArgs(filter: Json, limit: Json, afterCursor: Json)

  /** Arguments of a single-item query or subscription. */
  datatype ByIdArgs = ByIdArgs(id: Json)

  /** Arguments of a mutation. */
  datatype CommandArgs = CommandArgs(input: Json)

  /** The filter arguments of the `events` query, passed on as they are. */
  type EventFilter = map<string, Json>

  datatype ReadModelRequestEnvelope = ReadModelRequestEnvelope(
    requestID: string,
    currentUser: Json,
    typeName: ClassName,
    filters: Json,
    limit: Json,
    afterCursor: Json,
    paginatedVersion: bool,
    version: int)

  datatype EventSearchRequest = EventSearchRequest(
    requestID: string,
    currentUser: Json,
    filters: EventFilter)

  datatype CommandEnvelope = CommandEnvelope(
    requestID: string,
    currentUser: Json,
    typeName: ClassName,
    value: Json,
    version: int)

  /** True of two contexts that carry the same request identity and user. */
  predicate SameCaller(c1: ResolverContext, c2: ResolverContext) {
    c1.requestID == c2.requestID && c1.user == c2.user
  }

  /** The read-model request for `readModelName`; a missing or null filter becomes `{}`. */
  function ToReadModelRequestEnvelope(
    readModelName: ClassName, args: ReadModelRequestArgs, context: ResolverContext,
    paginatedVersion: bool := false): (r: ReadModelRequestEnvelope)
    ensures r.requestID == context.requestID && r.currentUser == context.user
    ensures r.typeName == readModelName
    ensures IsNullish(args.filter) ==> r.filters == EmptyObject
    ensures !IsNullish(args.filter) ==> r.filters == args.filter
    ensures r.limit == args.limit && r.afterCursor == args.afterCursor
    ensures r.paginatedVersion == paginatedVersion
    ensures r.version == SchemaVersion
  {
    ReadModelRequestEnvelope(
      requestID := context.requestID,
      currentUser := context.user,
      typeName := readModelName,
      filters := Coalesce(args.filter, EmptyObject),
      limit := args.limit,
      afterCursor := args.afterCursor,
      paginatedVersion := paginatedVersion,
      version := SchemaVersion)
  }

  function ToEventSearchRequest(args: EventFilter, context: ResolverContext): (r: EventSearchRequest)
    ensures r.requestID == context.requestID && r.currentUser == context.user
    ensures r.filters == args
  {
    EventSearchRequest(context.requestID, context.user, args)
  }

  function ToCommandEnvelope(commandName: ClassName, value: Json, context: ResolverContext): (r: CommandEnvelope)
    ensures r.requestID == context.requestID && r.currentUser == context.user
    ensures r.typeName == commandName && r.value == value
    ensures r.version == SchemaVersion
  {
    CommandEnvelope(context.requestID, context.user, commandName, value, SchemaVersion)
  }

  /**
   Two read-model requests are equal exactly when they name the same read model for the same
   caller, with the same filter after `??`, page size, cursor and paginated flag: nothing else
   of the context (connection, persistence flag, operation, pub/sub handle) reaches the envelope.
   */
  lemma ReadModelEnvelopeInjective(
    n1: ClassName, a1: ReadModelRequestArgs, c1: ResolverContext, p1: bool,
    n2: ClassName, a2: ReadModelRequestArgs, c2: ResolverContext, p2: bool)
    ensures ToReadModelRequestEnvelope(n1, a1, c1, p1) == ToReadModelRequestEnvelope(n2, a2, c2, p2)
        <==> && n1 == n2 && SameCaller(c1, c2) && p1 == p2
             && Coalesce(a1.filter, EmptyObject) == Coalesce(a2.filter, EmptyObject)
             && a1.limit == a2.limit && a1.afterCursor == a2.afterCursor
  {
  }

  /** Two command envelopes are equal exactly when command, input value and caller agree. */
  lemma CommandEnvelopeInjective(
    n1: ClassName, v1: Json, c1: ResolverContext, n2: ClassName, v2: Json, c2: ResolverContext)
    ensures ToCommandEnvelope(n1, v1, c1) == ToCommandEnvelope(n2, v2, c2)
        <==> n1 == n2 && v1 == v2 && SameCaller(c1, c2)
  {
  }

  /** Two event searches are equal exactly when the filters and the caller agree. */
  lemma EventSearchRequestInjective(a1: EventFilter, c1: ResolverContext, a2: EventFilter, c2: ResolverContext)
    ensures ToEventSearchRequest(a1, c1) == ToEventSearchRequest(a2, c2) <==> a1 == a2 && SameCaller(c1, c2)
  {
  }
}
