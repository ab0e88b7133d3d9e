/**
 The process-wide generator instance. `build` answers the instance constructed by its first
 call and constructs nothing afterwards; the arguments of later calls are ignored.
 */
module Singleton {
  import opened Outcomes
  import opened Envelopes
  import opened Downstream
  import opened Resolvers

  /** The static `singleton` field and the number of constructions performed so far. */
  datatype Registry = Registry(singleton: Option<GraphQLGenerator>, constructed: nat)

  /** A process in which `build` has not been called yet. */
  const Fresh: Registry := Registry(None, 0)

  /** A registry holding an instance exactly when one was constructed, and at most one construction. */
  predicate Valid(registry: Registry) {
    && (registry.singleton.None? <==> registry.constructed == 0)
    && registry.constructed <= 1
  }

  datatype Built = Built(registry: Registry, instance: GraphQLGenerator)

  /** The arguments of one call of `build`. */
  datatype BuildCall = BuildCall(config: BoosterConfig, logger: Logger)

  function Build(registry: Registry, config: BoosterConfig, logger: Logger): (b: Built)
    ensures b.registry.singleton == Some(b.instance)
    ensures registry.singleton.Some? ==> b.registry == registry && b.instance == registry.singleton.value
    ensures registry.singleton.None? ==>
              && b.registry.constructed == registry.constructed + 1
              && b.instance.config == config && b.instance.logger == logger
    ensures Valid(registry) ==> Valid(b.registry)
  {
    match registry.singleton
    case Some(existing) => Built(registry, existing)
    case None =>
      var created := GraphQLGenerator(registry.constructed, config, logger);
      Built(Registry(Some(created), registry.constructed + 1), created)
  }

  /** A second call of `build`, with any arguments, answers the first call's instance and changes nothing. */
  lemma BuildIsIdempotent(registry: Registry, c1: BoosterConfig, l1: Logger, c2: BoosterConfig, l2: Logger)
    ensures var first := Build(registry, c1, l1);
            Build(first.registry, c2, l2) == first
  {
  }

  /** The instances answered by a sequence of `build` calls, in order, and the registry afterwards. */
  function BuildAll(registry: Registry, calls: seq<BuildCall>): (r: (Registry, seq<GraphQLGenerator>))
    ensures |r.1| == |calls|
    decreases |calls|
  {
    if |calls| == 0 then (registry, [])
    else
      var b := Build(registry, calls[0].config, calls[0].logger);
      var rest := BuildAll(b.registry, calls[1..]);
      (rest.0, [b.instance] + rest.1)
  }

  /**
   First call wins: over any sequence of `build` calls every call answers the same instance,
   at most one construction happens, and a first call in a fresh process decides the
   configuration of that instance.
   */
  lemma {:induction false} FirstCallWins(registry: Registry, calls: seq<BuildCall>)
    requires |calls| > 0
    ensures var (final, instances) := BuildAll(registry, calls);
            && (forall i :: 0 <= i < |instances| ==> instances[i] == instances[0])
            && final.singleton == Some(instances[0])
            && final.constructed == registry.constructed + (if registry.singleton.None? then 1 else 0)
            && (registry.singleton.None? ==> instances[0].config == calls[0].config)
            && (registry.singleton.Some? ==> instances[0] == registry.singleton.value)
    decreases |calls|
  {
    var b := Build(registry, calls[0].config, calls[0].logger);
    if |calls| > 1 {
      FirstCallWins(b.registry, calls[1..]);
      var rest := BuildAll(b.registry, calls[1..]);
      assert rest.1[0] == b.instance;
      var instances := BuildAll(registry, calls).1;
      assert instances == [b.instance] + rest.1;
      forall i | 0 <= i < |instances|
        ensures instances[i] == instances[0]
      {
        if i > 0 {
          assert instances[i] == rest.1[i - 1];
        }
      }
    }
  }

  /**
   In a fresh process, the subscription resolvers of every instance `build` answers hand the
   pub/sub stream the configuration of the very first `build` call.
   */
  lemma SubscriptionsUseFirstConfig(
    calls: seq<BuildCall>, k: nat, sys: Subsystems, c: ClassName,
    args: ReadModelRequestArgs, context: ResolverContext)
    requires k < |calls|
    ensures var r := SubscriptionResolver(BuildAll(Fresh, calls).1[k], sys, c, args, context);
            r.result.Ok? ==> r.result.value.config == calls[0].config
  {
    FirstCallWins(Fresh, calls);
  }
}
