/** The `sending` admin query: how the `QueuedRequests` and `ActiveRequestsFor` subcommands turn
    their four optional arguments into the destination whose requests they list. */
module AdminSending {
  import opened Wrappers
  import opened Core

  /** Where outgoing transactions go: an application service, a federated server, or a push
      gateway for one user's pusher. */
  datatype Destination =
    | Appservice(id: string)
    | Normal(server: ServerName)
    | Push(user: UserId, pushKey: string)

  /** The four optional command-line arguments. */
  datatype DestinationArgs = DestinationArgs(
    appserviceId: Option<string>,
    serverName: Option<ServerName>,
    userId: Option<UserId>,
    pushKey: Option<string>)

  const USAGE := "An appservice ID, server name, or a user ID with push key must be specified via arguments. See --help for more details."
  const USAGE_NOT_ALL := "An appservice ID, server name, or a user ID with push key must be specified via arguments. Not all of them See --help for more details."

  predicate NoArguments(args: DestinationArgs)
  {
    args.appserviceId.None? && args.serverName.None? && args.userId.None? && args.pushKey.None?
  }

  predicate AllArguments(args: DestinationArgs)
  {
    args.appserviceId.Some? && args.serverName.Some? && args.userId.Some? && args.pushKey.Some?
  }

  /** The argument table shared by both subcommands: `Err` carries the plain-text reply sent
      instead of running a query. */
  function SelectDestination(args: DestinationArgs): (r: Result<Destination, string>)
    ensures NoArguments(args) ==> r == Err(USAGE)
    ensures AllArguments(args) ==> r == Err(USAGE_NOT_ALL)
    ensures r.Err? ==> r.error == USAGE || (AllArguments(args) && r.error == USAGE_NOT_ALL)
    ensures (r.Ok? && r.value.Appservice?) <==>
      args.appserviceId.Some? && args.appserviceId.value != []
      && args.serverName.None? && args.userId.None? && args.pushKey.None?
    ensures (r.Ok? && r.value.Normal?) <==>
      args.appserviceId.None? && args.serverName.Some? && args.userId.None? && args.pushKey.None?
    ensures (r.Ok? && r.value.Push?) <==>
      args.appserviceId.None? && args.serverName.None?
      && args.userId.Some? && args.pushKey.Some? && args.pushKey.value != []
  {
    if NoArguments(args) then Err(USAGE)
    else
      match (args.appserviceId, args.serverName, args.userId, args.pushKey)
      case (Some(id), None, None, None) => if id == [] then Err(USAGE) else Ok(Appservice(id))
      case (None, Some(server), None, None) => Ok(Normal(server))
      case (None, None, Some(user), Some(pushKey)) => if pushKey == [] then Err(USAGE) else Ok(Push(user, pushKey))
      case (Some(_), Some(_), Some(_), Some(_)) => Err(USAGE_NOT_ALL)
      case _ => Err(USAGE)
  }

  /** The arguments an operator gives to name `d`: exactly the fields `d` is made of. */
  function ArgumentsFor(d: Destination): (args: DestinationArgs)
    ensures !NoArguments(args) && !AllArguments(args)
  {
    match d
    case Appservice(id) => DestinationArgs(Some(id), None, None, None)
    case Normal(server) => DestinationArgs(None, Some(server), None, None)
    case Push(user, pushKey) => DestinationArgs(None, None, Some(user), Some(pushKey))
  }

  /** A destination whose identifying strings the table accepts (a non-empty appservice id or
      push key). */
  predicate Addressable(d: Destination)
  {
    match d
    case Appservice(id) => id != []
    case Normal(_) => true
    case Push(_, pushKey) => pushKey != []
  }

  /** Every addressable destination can be named, and naming it selects it. */
  lemma SelectArgumentsFor(d: Destination)
    requires Addressable(d)
    ensures SelectDestination(ArgumentsFor(d)) == Ok(d)
  {
  }

  /** Conversely, a selected destination was named by exactly its own fields, and is
      addressable. */
  lemma SelectedIsNamed(args: DestinationArgs)
    requires SelectDestination(args).Ok?
    ensures Addressable(SelectDestination(args).value)
    ensures args == ArgumentsFor(SelectDestination(args).value)
  {
  }

  /** The two subcommands that take destination arguments. */
  datatype Subcommand = QueuedRequests | ActiveRequestsFor

  /** What the subcommand does: reply with plain text, or run its query for a destination. */
  datatype Reply = PlainText(text: string) | RunQuery(subcommand: Subcommand, destination: Destination)

  /** The `QueuedRequests` and `ActiveRequestsFor` arms of `sending`, which apply the same table;
      the query itself and its timing are not modelled. */
  function Sending(subcommand: Subcommand, args: DestinationArgs): (r: Reply)
    ensures r.RunQuery? <==> SelectDestination(args).Ok?
    ensures r.RunQuery? ==> r.subcommand == subcommand && r.destination == SelectDestination(args).value
    ensures r.PlainText? ==> r.text == SelectDestination(args).error
  {
    match SelectDestination(args)
    case Ok(d) => RunQuery(subcommand, d)
    case Err(text) => PlainText(text)
  }

  /** Both subcommands accept and refuse the same argument combinations, and query the same
      destination. This holds by construction: the two arms of `sending` spell out the same
      decision table, so the model shares one `SelectDestination` between them and the lemma
      records that sharing rather than proving anything about two separate tables. */
  lemma SubcommandsAgree(args: DestinationArgs)
    ensures Sending(QueuedRequests, args).RunQuery? <==> Sending(ActiveRequestsFor, args).RunQuery?
    ensures Sending(QueuedRequests, args).RunQuery? ==>
      Sending(QueuedRequests, args).destination == Sending(ActiveRequestsFor, args).destination
    ensures Sending(QueuedRequests, args).PlainText? ==> Sending(QueuedRequests, args) == Sending(ActiveRequestsFor, args)
  {
  }
}
