/**
 The subsystems the resolver layer delegates to, seen only through their boundary: each one is
 a total function from a request to its completion (a value or an error), and every call made
 to them is recorded in an append-only log.
 */
module Downstream {
  import opened Outcomes
  import opened Values
  import opened Envelopes

  /** The parts of the framework configuration the generator reads: the declared classes. */
  datatype BoosterConfig = BoosterConfig(readModels: set<ClassName>, commandHandlers: set<ClassName>)

  /** The logger handed to the subsystems, identified by its name. */
  datatype Logger = Logger(name: string)

  /**
   Why a resolver did not produce a value: the subscription protocol check, the TypeError of
   reading `[0]` from a nullish fetch result, or the reason a downstream subsystem rejected with.
   */
  datatype Error =
    | MissingConnectionID
    | CannotReadIndexZero
    | Rejected(reason: Json)

  /** One call into a downstream subsystem. */
  datatype Call =
    | DispatchCommand(command: CommandEnvelope)
    | FetchReadModels(request: ReadModelRequestEnvelope)
    | Subscribe(connectionID: string, request: ReadModelRequestEnvelope, operation: Json)
    | FetchEvents(search: EventSearchRequest)
    | AsyncIterator(pubSub: PubSubHandle, request: ReadModelRequestEnvelope, config: BoosterConfig)

  /**
   The observable behaviour of the command dispatcher, the read-models reader, the events reader
   and the context's pub/sub handle: what each call completes with. A failure carries the reason
   the subsystem gave; `asyncIterator` fails when the handle throws instead of returning a stream.
   */
  datatype Subsystems = Subsystems(
    dispatchCommand: CommandEnvelope -> Outcome<Json>,
    fetchReadModels: ReadModelRequestEnvelope -> Result<Json, Json>,
    subscribe: (string, ReadModelRequestEnvelope, Json) -> Outcome<Json>,
    fetchEvents: EventSearchRequest -> Result<seq<Json>, Json>,
    asyncIterator: (PubSubHandle, ReadModelRequestEnvelope, BoosterConfig) -> Outcome<Json>)

  /** A downstream completion as the resolver passes it on: a rejection reason becomes `Rejected`. */
  function Propagate<T>(completion: Result<T, Json>): (r: Result<T, Error>)
    ensures completion.Ok? <==> r.Ok?
    ensures completion.Ok? ==> r.value == completion.value
    ensures completion.Err? ==> r.error == Rejected(completion.error)
  {
    match completion
    case Ok(v) => Ok(v)
    case Err(reason) => Err(Rejected(reason))
  }

  /** The live stream `pubSub.asyncIterator(envelope, config)` returns. */
  datatype Stream = Stream(source: PubSubHandle, request: ReadModelRequestEnvelope, config: BoosterConfig)

  /** One resolver invocation: what it resolves or rejects with, and the calls it made, in order. */
  datatype Run<+T> = Run(result: Result<T, Error>, log: seq<Call>)

  predicate CallsSubscribe(log: seq<Call>) {
    exists i :: 0 <= i < |log| && log[i].Subscribe?
  }

  predicate CallsAsyncIterator(log: seq<Call>) {
    exists i :: 0 <= i < |log| && log[i].AsyncIterator?
  }
}
