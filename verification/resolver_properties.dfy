/** Properties relating the resolvers to each other and to the calls they make. */
module ResolverProperties {
  import opened Outcomes
  import opened Values
  import opened Envelopes
  import opened Downstream
  import opened Resolvers

  /**
   The single-item query is the list query on `{id: {eq: id}}` followed by reading element 0:
   it makes the very same call and answers the first element of what that call resolved with.
   */
  lemma ByIDQueryIsFirstOfList(
    sys: Subsystems, pluralize: string -> string, c: ClassName,
    args: ByIdArgs, context: ResolverContext, info: Option<ResolveInfo>)
    ensures var byId := ReadModelByIDResolver(sys, pluralize, c, args, context, info);
            var list := ReadModelResolver(sys, pluralize, c, IdFilterArgs(args.id), context, info);
            && byId.log == list.log
            && (list.result.Err? ==> byId.result == list.result)
            && (list.result.Ok? && ElementZero(list.result.value).Some? ==>
                  byId.result == Ok(ElementZero(list.result.value).value))
  {
  }

  /**
   Invoked through its own field (named after the class), the single-item query asks for an
   unpaginated result whenever pluralisation does not shorten the class name.
   */
  lemma ByIDQueryIsNotPaginated(
    sys: Subsystems, pluralize: string -> string, c: ClassName, args: ByIdArgs, context: ResolverContext)
    requires |pluralize(c)| >= |c|
    ensures !ReadModelByIDResolver(sys, pluralize, c, args, context, Some(ResolveInfo(c))).log[0].request.paginatedVersion
  {
    var r := ReadModelByIDResolver(sys, pluralize, c, args, context, Some(ResolveInfo(c)));
    assert |ListFieldName(pluralize, c)| == 4 + |pluralize(c)|;
  }

  /** Invoked through the `List<plural>` field, the list query asks for the paginated result. */
  lemma ListQueryIsPaginated(
    sys: Subsystems, pluralize: string -> string, c: ClassName,
    args: ReadModelRequestArgs, context: ResolverContext)
    ensures ReadModelResolver(sys, pluralize, c, args, context, Some(ResolveInfo("List" + pluralize(c)))).log[0].request.paginatedVersion
  {
  }

  /**
   A subscription and a list query with the same arguments and the same caller register and
   stream exactly the envelope the query fetches when the query is not invoked through the list
   field, whatever their contexts' connection, persistence flag, operation or pub/sub handle.
   */
  lemma SubscriptionStreamsQueryEnvelope(
    generator: GraphQLGenerator, sys: Subsystems, pluralize: string -> string, c: ClassName,
    args: ReadModelRequestArgs, subContext: ResolverContext, queryContext: ResolverContext,
    info: Option<ResolveInfo>)
    requires SameCaller(subContext, queryContext)
    requires !InvokedAsList(pluralize, c, info)
    ensures var sub := SubscriptionResolver(generator, sys, c, args, subContext);
            var query := ReadModelResolver(sys, pluralize, c, args, queryContext, info);
            sub.result.Ok? ==> sub.result.value.request == query.log[0].request
  {
  }

  /** The subscription store is called if and only if a connection is named and persistence is asked for. */
  lemma SubscribeCalledIff(
    generator: GraphQLGenerator, sys: Subsystems, c: ClassName, args: ReadModelRequestArgs, context: ResolverContext)
    ensures CallsSubscribe(SubscriptionResolver(generator, sys, c, args, context).log)
        <==> HasConnectionID(context) && context.storeSubscriptions
  {
    var r := SubscriptionResolver(generator, sys, c, args, context);
    if HasConnectionID(context) && context.storeSubscriptions {
      assert r.log[0].Subscribe?;
    }
  }

  /**
   The pub/sub iterator is requested exactly when a connection is named and persistence, if asked
   for, passed; the resolver answers a stream exactly when the iterator was requested and opened.
   */
  lemma IteratorRequestAndAnswer(
    generator: GraphQLGenerator, sys: Subsystems, c: ClassName, args: ReadModelRequestArgs, context: ResolverContext)
    ensures var r := SubscriptionResolver(generator, sys, c, args, context);
            var envelope := ToReadModelRequestEnvelope(c, args, context);
            && (CallsAsyncIterator(r.log) <==>
                  HasConnectionID(context) &&
                  (!context.storeSubscriptions || sys.subscribe(context.connectionID.value, envelope, context.operation).Pass?))
            && (r.result.Ok? <==>
                  CallsAsyncIterator(r.log) && sys.asyncIterator(context.pubSub, envelope, generator.config).Pass?)
  {
    var r := SubscriptionResolver(generator, sys, c, args, context);
    var envelope := ToReadModelRequestEnvelope(c, args, context);
    if HasConnectionID(context) &&
       (!context.storeSubscriptions || sys.subscribe(context.connectionID.value, envelope, context.operation).Pass?)
    {
      assert r.log[|r.log| - 1].AsyncIterator?;
    }
  }

  /** What was persisted and what is streamed are the same envelope, for the same connection. */
  lemma PersistedEnvelopeIsStreamed(
    generator: GraphQLGenerator, sys: Subsystems, c: ClassName, args: ReadModelRequestArgs, context: ResolverContext)
    requires context.storeSubscriptions
    ensures var r := SubscriptionResolver(generator, sys, c, args, context);
            r.result.Ok? ==>
              && r.log[0] == Subscribe(context.connectionID.value, r.result.value.request, context.operation)
              && r.log[1] == AsyncIterator(context.pubSub, r.result.value.request, generator.config)
  {
  }

  /**
   An events query depends on its filters and its caller only: two invocations search with the
   same request exactly when those agree, and the same search answers the same result.
   */
  lemma EventResolverNonInterference(sys: Subsystems, a1: EventFilter, c1: ResolverContext, a2: EventFilter, c2: ResolverContext)
    ensures EventResolver(sys, a1, c1).log == EventResolver(sys, a2, c2).log <==> a1 == a2 && SameCaller(c1, c2)
    ensures EventResolver(sys, a1, c1).log == EventResolver(sys, a2, c2).log ==>
              EventResolver(sys, a1, c1).result == EventResolver(sys, a2, c2).result
  {
  }

  /**
   A mutation depends on its command class, its input and its caller only: connection,
   persistence flag, operation and pub/sub handle never reach the dispatch, and the same
   dispatch answers the same result.
   */
  lemma CommandResolverNonInterference(
    sys: Subsystems, n1: ClassName, a1: CommandArgs, c1: ResolverContext,
    n2: ClassName, a2: CommandArgs, c2: ResolverContext)
    ensures CommandResolver(sys, n1, a1, c1).log == CommandResolver(sys, n2, a2, c2).log
        <==> n1 == n2 && a1.input == a2.input && SameCaller(c1, c2)
    ensures CommandResolver(sys, n1, a1, c1).log == CommandResolver(sys, n2, a2, c2).log ==>
              CommandResolver(sys, n1, a1, c1).result == CommandResolver(sys, n2, a2, c2).result
  {
  }

  /** The single-item subscription calls the store if and only if a connection is named and persistence is asked for. */
  lemma SubscriptionByIDSubscribeCalledIff(
    generator: GraphQLGenerator, sys: Subsystems, c: ClassName, args: ByIdArgs, context: ResolverContext)
    ensures CallsSubscribe(SubscriptionByIDResolver(generator, sys, c, args, context).log)
        <==> HasConnectionID(context) && context.storeSubscriptions
  {
  }

  /**
   The single-item subscription requests the pub/sub iterator exactly when a connection is named
   and persistence, if asked for, passed; it answers a stream exactly when the iterator was
   requested and opened.
   */
  lemma SubscriptionByIDIteratorRequestAndAnswer(
    generator: GraphQLGenerator, sys: Subsystems, c: ClassName, args: ByIdArgs, context: ResolverContext)
    ensures var r := SubscriptionByIDResolver(generator, sys, c, args, context);
            var envelope := ToReadModelRequestEnvelope(c, IdFilterArgs(args.id), context);
            && (CallsAsyncIterator(r.log) <==>
                  HasConnectionID(context) &&
                  (!context.storeSubscriptions || sys.subscribe(context.connectionID.value, envelope, context.operation).Pass?))
            && (r.result.Ok? <==>
                  CallsAsyncIterator(r.log) && sys.asyncIterator(context.pubSub, envelope, generator.config).Pass?)
  {
  }
}
