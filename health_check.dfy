/**
 * The Mongo health check: what the three constructors build, and the verdict
 * one probe produces. The driver is outside the model; the check's
 * inputs are what the driver answered: the ping's reply or the exception it
 * threw, the cluster state (or the exception reading it threw), and the
 * driver's JSON rendering of a document.
 */
module HealthCheck {
  import opened Wrappers
  import opened HealthChecks
  import opened Bson

  /** A parsed connection string; `databaseName` is None when the string names no database. */
  datatype MongoUrl = MongoUrl(connectionString: string, databaseName: Option<string>)

  /** A client handle: one the caller supplied, or one created from a URL. */
  datatype MongoClient = SuppliedClient(handle: nat) | ClientFromUrl(url: MongoUrl)

  /** A client configuration object, known only by its identity. */
  datatype MongoClientSettings = MongoClientSettings(handle: nat)

  /** A logical-database handle: the client it belongs to and the database's name. */
  datatype MongoDatabase = MongoDatabase(client: MongoClient, databaseName: string)

  /**
   * A constructed check. The constructors modelled here all produce
   * `OnDatabase`; the client and settings constructors are not part of this
   * model, and a check they build is held only by its argument.
   */
  datatype MongoHealthCheck =
    | OnDatabase(database: MongoDatabase)
    | OnClient(client: MongoClient)
    | OnSettings(settings: MongoClientSettings)

  /** The database a URL-built check targets when the URL names none. */
  const DefaultDatabaseName: string := "admin"

  /** `new MongoHealthCheck(database)`: keeps the handle it is given. */
  function FromDatabase(database: MongoDatabase): (c: MongoHealthCheck)
    ensures c.OnDatabase? && c.database == database
  {
    OnDatabase(database)
  }

  /** `new MongoHealthCheck(url)`: a client over the URL, and the URL's database or "admin". */
  function FromUrl(url: MongoUrl): (c: MongoHealthCheck)
    ensures c.OnDatabase? && c.database.client == ClientFromUrl(url)
    ensures url.databaseName.Some? ==> c.database.databaseName == url.databaseName.value
    ensures url.databaseName.None? ==> c.database.databaseName == DefaultDatabaseName
  {
    FromDatabase(MongoDatabase(ClientFromUrl(url), url.databaseName.GetOr(DefaultDatabaseName)))
  }

  /**
   * `new MongoHealthCheck(connectionString)`: the string is parsed into a URL
   * at construction, so a malformed string throws here rather than at check
   * time. `parse` is the driver's `new MongoUrl(string)`.
   */
  function FromConnectionString(connectionString: string, parse: string -> Result<MongoUrl, Exception>): (r: Result<MongoHealthCheck, Exception>)
    ensures parse(connectionString).Failure? ==> r == Failure(parse(connectionString).error)
    ensures parse(connectionString).Success? ==> r.Success? && r.value == FromUrl(parse(connectionString).value)
  {
    match parse(connectionString)
    case Failure(e) => Failure(e)
    case Success(url) => Success(FromUrl(url))
  }

  /** An underlying enum value with no declared name: the driver declares Disconnected = 0 and Connected = 1. */
  newtype UndeclaredValue = x: int | x != 0 && x != 1 witness 2

  /**
   * The client's view of the cluster. Like any C# enum, a `ClusterState`
   * variable may hold an underlying value with no declared name; such a value
   * is `Unnamed`, and is never 0 or 1.
   */
  datatype ClusterState = Disconnected | Connected | Unnamed(value: UndeclaredValue)

  /** What `RunCommandAsync({ ping: 1 })` did: replied with a document, or threw. */
  datatype PingOutcome = Replied(reply: BsonDocument) | PingThrew(pingException: Exception)

  /** What reading `Client.Cluster.Description.State` did. */
  datatype ClusterStateRead = StateIs(state: ClusterState) | StateThrew(stateException: Exception)

  /** `CheckHealthAsync`'s test of the "ok" field: a double within `double.Epsilon` of 1, or the int32 1. */
  predicate IsOkValue(v: BsonValue)
    ensures IsOkValue(v) ==> v.BsonDouble? || v.BsonInt32?
  {
    || (v.BsonDouble? && WithinEpsilonOfOne(v.asDouble))
    || (v.BsonInt32? && v.asInt32 == 1)
  }

  /** `CheckHealthAsync`'s test of a reply: it has an "ok" field and the field passes `IsOkValue`. */
  predicate ReplyIsOk(reply: BsonDocument)
    ensures ReplyIsOk(reply) ==> exists i :: 0 <= i < |reply.elements| && reply.elements[i].name == "ok"
  {
    match TryGetValue(reply.elements, "ok")
    case Some(ok) => IsOkValue(ok)
    case None => false
  }

  /** Reference reading of a successful reply: its first "ok" field is exactly the double 1.0 or the int32 1. */
  predicate SignalsOk(reply: BsonDocument)
  {
    var ok := TryGetValue(reply.elements, "ok");
    ok == Some(BsonDouble(One)) || ok == Some(BsonInt32(1))
  }

  /** `CheckHealthAsync`'s tolerance test accepts exactly the two encodings of 1. */
  lemma IsOkValueIsExactlyOne(v: BsonValue)
    ensures IsOkValue(v) <==> v == BsonDouble(One) || v == BsonInt32(1)
  {
    if v.BsonDouble? {
      WithinEpsilonOfOneIsExactlyOne(v.asDouble);
    }
  }

  lemma ReplyIsOkIffSignalsOk(reply: BsonDocument)
    ensures ReplyIsOk(reply) <==> SignalsOk(reply)
  {
    var ok := TryGetValue(reply.elements, "ok");
    if ok.Some? {
      IsOkValueIsExactlyOne(ok.value);
    }
  }

  /**
   * `CheckHealthAsync`: one probe, classified. `registrationName` is
   * `context.Registration.Name`; `toJson` is the driver's `ToJson()`.
   * No exception escapes: every outcome is a result.
   */
  function CheckHealth(registrationName: string, ping: PingOutcome, clusterState: ClusterStateRead,
                       toJson: BsonDocument -> string): (r: HealthCheckResult)
    ensures registrationName + ": " <= r.description
    ensures r.status != Degraded
    ensures r.status == Healthy <==> ping.Replied? && SignalsOk(ping.reply) && clusterState == StateIs(Connected)
    ensures r.exception.Some? <==> ping.PingThrew? || (ping.Replied? && SignalsOk(ping.reply) && clusterState.StateThrew?)
    ensures ping.PingThrew? ==> r.exception == Some(ping.pingException)
    ensures ping.Replied? && SignalsOk(ping.reply) && clusterState.StateThrew? ==> r.exception == Some(clusterState.stateException)
  {
    var prefix := registrationName + ": ";
    match ping
    case PingThrew(ex) =>
      HealthCheckResult.Unhealthy(prefix + "Exception " + ex.typeFullName, Some(ex))
    case Replied(reply) =>
      ReplyIsOkIffSignalsOk(reply);
      if ReplyIsOk(reply) then
        match clusterState
        case StateThrew(ex) =>
          HealthCheckResult.Unhealthy(prefix + "Exception " + ex.typeFullName, Some(ex))
        case StateIs(state) =>
          if state == Connected
          then HealthCheckResult.Healthy(prefix + "ClusterState.Connected")
          else HealthCheckResult.Unhealthy(prefix + "ClusterState.Disconnected", None)
      else
        HealthCheckResult.Unhealthy(prefix + toJson(reply), None)
  }

  // The four ways a probe can end; exactly one applies to any inputs.

  predicate ProbeFaulted(ping: PingOutcome, clusterState: ClusterStateRead)
  {
    ping.PingThrew? || (ping.Replied? && SignalsOk(ping.reply) && clusterState.StateThrew?)
  }

  predicate ReportsConnected(ping: PingOutcome, clusterState: ClusterStateRead)
  {
    ping.Replied? && SignalsOk(ping.reply) && clusterState == StateIs(Connected)
  }

  predicate ReportsDisconnected(ping: PingOutcome, clusterState: ClusterStateRead)
  {
    ping.Replied? && SignalsOk(ping.reply) && clusterState.StateIs? && clusterState.state != Connected
  }

  predicate ReportsReply(ping: PingOutcome)
  {
    ping.Replied? && !SignalsOk(ping.reply)
  }

  lemma OutcomesAreExhaustiveAndExclusive(ping: PingOutcome, clusterState: ClusterStateRead)
    ensures ProbeFaulted(ping, clusterState) || ReportsConnected(ping, clusterState)
            || ReportsDisconnected(ping, clusterState) || ReportsReply(ping)
    ensures ProbeFaulted(ping, clusterState) ==> !ReportsConnected(ping, clusterState) && !ReportsDisconnected(ping, clusterState) && !ReportsReply(ping)
    ensures ReportsConnected(ping, clusterState) ==> !ReportsDisconnected(ping, clusterState) && !ReportsReply(ping)
    ensures ReportsDisconnected(ping, clusterState) ==> !ReportsReply(ping)
  {
  }

  /** An accepted ping with a connected cluster is Healthy, and says so. */
  lemma ConnectedIsHealthy(name: string, ping: PingOutcome, clusterState: ClusterStateRead, toJson: BsonDocument -> string)
    requires ReportsConnected(ping, clusterState)
    ensures CheckHealth(name, ping, clusterState, toJson)
            == HealthCheckResult(Healthy, name + ": " + "ClusterState.Connected", None)
  {
    ReplyIsOkIffSignalsOk(ping.reply);
  }

  /** An accepted ping with any other cluster state is Unhealthy and reports "Disconnected". */
  lemma NotConnectedIsUnhealthy(name: string, ping: PingOutcome, clusterState: ClusterStateRead, toJson: BsonDocument -> string)
    requires ReportsDisconnected(ping, clusterState)
    ensures CheckHealth(name, ping, clusterState, toJson)
            == HealthCheckResult(Unhealthy, name + ": " + "ClusterState.Disconnected", None)
  {
    ReplyIsOkIffSignalsOk(ping.reply);
  }

  /** A reply without an accepted "ok" is Unhealthy and carries the reply's JSON; the cluster state is not consulted. */
  lemma RejectedReplyReportsJson(name: string, reply: BsonDocument, clusterState: ClusterStateRead, toJson: BsonDocument -> string)
    requires !SignalsOk(reply)
    ensures CheckHealth(name, Replied(reply), clusterState, toJson)
            == HealthCheckResult(Unhealthy, name + ": " + toJson(reply), None)
  {
    ReplyIsOkIffSignalsOk(reply);
  }

  /** A ping that throws is Unhealthy, names the exception's type and carries the exception. */
  lemma PingExceptionIsCaptured(name: string, ex: Exception, clusterState: ClusterStateRead, toJson: BsonDocument -> string)
    ensures CheckHealth(name, PingThrew(ex), clusterState, toJson)
            == HealthCheckResult(Unhealthy, name + ": " + "Exception " + ex.typeFullName, Some(ex))
  {
  }

  /** An exception reading the cluster state after an accepted ping is captured the same way. */
  lemma StateExceptionIsCaptured(name: string, reply: BsonDocument, ex: Exception, toJson: BsonDocument -> string)
    requires SignalsOk(reply)
    ensures CheckHealth(name, Replied(reply), StateThrew(ex), toJson)
            == HealthCheckResult(Unhealthy, name + ": " + "Exception " + ex.typeFullName, Some(ex))
  {
    ReplyIsOkIffSignalsOk(reply);
  }

  /** An "ok" of int32 1 is treated exactly like one of double 1.0, whatever else the replies hold. */
  lemma Int32OneActsAsDoubleOne(name: string, asInt: BsonDocument, asDouble: BsonDocument,
                                clusterState: ClusterStateRead, toJson: BsonDocument -> string)
    requires TryGetValue(asInt.elements, "ok") == Some(BsonInt32(1))
    requires TryGetValue(asDouble.elements, "ok") == Some(BsonDouble(One))
    ensures CheckHealth(name, Replied(asInt), clusterState, toJson)
            == CheckHealth(name, Replied(asDouble), clusterState, toJson)
  {
    ReplyIsOkIffSignalsOk(asInt);
    ReplyIsOkIffSignalsOk(asDouble);
  }

  /** Every other "ok" encoding, and a missing "ok", is rejected. */
  lemma OtherOkEncodingsAreRejected(reply: BsonDocument)
    requires || TryGetValue(reply.elements, "ok").None?
             || (exists d: Double :: d != One && TryGetValue(reply.elements, "ok") == Some(BsonDouble(d)))
             || (exists i: int32 :: i != 1 && TryGetValue(reply.elements, "ok") == Some(BsonInt32(i)))
             || (exists l: int64 :: TryGetValue(reply.elements, "ok") == Some(BsonInt64(l)))
             || (exists s: string :: TryGetValue(reply.elements, "ok") == Some(BsonString(s)))
    ensures !ReplyIsOk(reply)
  {
    ReplyIsOkIffSignalsOk(reply);
  }

  /** Which non-connected state the cluster is in does not change the verdict. */
  lemma VerdictIgnoresWhichNonConnectedState(name: string, ping: PingOutcome, s1: ClusterState, s2: ClusterState,
                                             toJson: BsonDocument -> string)
    requires s1 != Connected && s2 != Connected
    ensures CheckHealth(name, ping, StateIs(s1), toJson) == CheckHealth(name, ping, StateIs(s2), toJson)
  {
  }
}
