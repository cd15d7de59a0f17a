/**
 * The registration entry points. Five public overloads, one per kind of
 * source (database, URL, connection string, client, client settings), each
 * reject a null source and then hand a constructed check to one internal
 * primitive, which rejects a null builder, fills in the defaults and appends
 * one registration. The builder is a value: the list of its registrations.
 */
module MongoHealthCheckExtensions {
  import opened Wrappers
  import opened HealthChecks
  import opened Bson
  import opened HealthCheck

  /** One registered check: its name, the check, the failure status override and the tags. */
  datatype HealthCheckRegistration = HealthCheckRegistration(
    name: string, check: MongoHealthCheck, failureStatus: Option<HealthStatus>, tags: seq<string>)

  /** The health-checks builder: the registrations made through it, oldest first. */
  datatype HealthChecksBuilder = HealthChecksBuilder(registrations: seq<HealthCheckRegistration>)
  {
    /** The framework's `builder.AddCheck(...)`: records one registration and returns the builder. */
    function AddCheck(name: string, check: MongoHealthCheck, failureStatus: Option<HealthStatus>, tags: seq<string>): HealthChecksBuilder
    {
      HealthChecksBuilder(registrations + [HealthCheckRegistration(name, check, failureStatus, tags)])
    }
  }

  /** The registration-time faults: a null argument (by parameter name), or an exception a constructor threw. */
  datatype Error = ArgumentNull(paramName: string) | Thrown(exception: Exception)

  /** The name a check is registered under when the caller gives none. */
  const DefaultName: string := "MongoDb"

  /** `builder` was passed and `b` is what the call returned: `b` is `builder` with `added` appended. */
  predicate AppendsOne(builder: HealthChecksBuilder, b: HealthChecksBuilder, added: HealthCheckRegistration)
  {
    && |b.registrations| == |builder.registrations| + 1
    && b.registrations[..|builder.registrations|] == builder.registrations
    && b.registrations[|builder.registrations|] == added
  }

  /**
   * `r` is what registering `check` on `builder` must give: the fault naming
   * `builder` when there is none, and otherwise the builder with one
   * registration appended, named `name` or "MongoDb", tagged with `tags` or
   * nothing, and carrying `failureStatus` unchanged.
   */
  predicate Registers(builder: Option<HealthChecksBuilder>, check: MongoHealthCheck, name: Option<string>,
                      failureStatus: Option<HealthStatus>, tags: Option<seq<string>>, r: Result<HealthChecksBuilder, Error>)
  {
    if builder.None? then r == Failure(ArgumentNull("builder"))
    else r.Success? && AppendsOne(builder.value, r.value,
                                  HealthCheckRegistration(name.GetOr(DefaultName), check, failureStatus, tags.GetOr([])))
  }

  /**
   * The internal `AddMongoHealthCheck(builder, check, name, failureStatus, tags)`:
   * a null builder is rejected naming `builder`; otherwise one registration is
   * added, named `name` or "MongoDb", with `tags` or no tags, and
   * `failureStatus` as given.
   */
  function AddMongoHealthCheck(builder: Option<HealthChecksBuilder>, check: MongoHealthCheck, name: Option<string>,
                               failureStatus: Option<HealthStatus>, tags: Option<seq<string>>): (r: Result<HealthChecksBuilder, Error>)
    ensures Registers(builder, check, name, failureStatus, tags, r)
  {
    if builder.None? then Failure(ArgumentNull("builder"))
    else Success(builder.value.AddCheck(name.GetOr(DefaultName), check, failureStatus, tags.GetOr([])))
  }

  /** The database overload: a null `database` is rejected first. */
  function AddForDatabase(builder: Option<HealthChecksBuilder>, database: Option<MongoDatabase>, name: Option<string>,
                          failureStatus: Option<HealthStatus>, tags: Option<seq<string>>): (r: Result<HealthChecksBuilder, Error>)
    ensures database.None? ==> r == Failure(ArgumentNull("database"))
    ensures database.Some? ==> Registers(builder, FromDatabase(database.value), name, failureStatus, tags, r)
  {
    if database.None? then Failure(ArgumentNull("database"))
    else AddMongoHealthCheck(builder, FromDatabase(database.value), name, failureStatus, tags)
  }

  /** The URL overload: a null `url` is rejected first. */
  function AddForUrl(builder: Option<HealthChecksBuilder>, url: Option<MongoUrl>, name: Option<string>,
                     failureStatus: Option<HealthStatus>, tags: Option<seq<string>>): (r: Result<HealthChecksBuilder, Error>)
    ensures url.None? ==> r == Failure(ArgumentNull("url"))
    ensures url.Some? ==> Registers(builder, FromUrl(url.value), name, failureStatus, tags, r)
  {
    if url.None? then Failure(ArgumentNull("url"))
    else AddMongoHealthCheck(builder, FromUrl(url.value), name, failureStatus, tags)
  }

  /**
   * The connection-string overload: a null `connectionString` is rejected
   * first; any other string, the empty one included, goes to the URL parser
   * (`parse`), whose exception surfaces before the builder is looked at.
   */
  function AddForConnectionString(builder: Option<HealthChecksBuilder>, connectionString: Option<string>,
                                  parse: string -> Result<MongoUrl, Exception>, name: Option<string>,
                                  failureStatus: Option<HealthStatus>, tags: Option<seq<string>>): (r: Result<HealthChecksBuilder, Error>)
    ensures connectionString.None? ==> r == Failure(ArgumentNull("connectionString"))
    ensures connectionString.Some? && parse(connectionString.value).Failure?
            ==> r == Failure(Thrown(parse(connectionString.value).error))
    ensures connectionString.Some? && parse(connectionString.value).Success?
            ==> Registers(builder, FromUrl(parse(connectionString.value).value), name, failureStatus, tags, r)
  {
    if connectionString.None? then Failure(ArgumentNull("connectionString"))
    else
      match FromConnectionString(connectionString.value, parse)
      case Failure(e) => Failure(Thrown(e))
      case Success(check) => AddMongoHealthCheck(builder, check, name, failureStatus, tags)
  }

  /** The client overload: a null `client` is rejected first. */
  function AddForClient(builder: Option<HealthChecksBuilder>, client: Option<MongoClient>, name: Option<string>,
                        failureStatus: Option<HealthStatus>, tags: Option<seq<string>>): (r: Result<HealthChecksBuilder, Error>)
    ensures client.None? ==> r == Failure(ArgumentNull("client"))
    ensures client.Some? ==> Registers(builder, OnClient(client.value), name, failureStatus, tags, r)
  {
    if client.None? then Failure(ArgumentNull("client"))
    else AddMongoHealthCheck(builder, OnClient(client.value), name, failureStatus, tags)
  }

  /** The client-settings overload: a null `settings` is rejected first. */
  function AddForSettings(builder: Option<HealthChecksBuilder>, settings: Option<MongoClientSettings>, name: Option<string>,
                          failureStatus: Option<HealthStatus>, tags: Option<seq<string>>): (r: Result<HealthChecksBuilder, Error>)
    ensures settings.None? ==> r == Failure(ArgumentNull("settings"))
    ensures settings.Some? ==> Registers(builder, OnSettings(settings.value), name, failureStatus, tags, r)
  {
    if settings.None? then Failure(ArgumentNull("settings"))
    else AddMongoHealthCheck(builder, OnSettings(settings.value), name, failureStatus, tags)
  }

  /**
   * A connection string is checked only for null: the empty string is not an
   * argument fault, it goes to the parser, and a parse fault is raised even
   * when the builder is null.
   */
  lemma ConnectionStringIsOnlyNullChecked(builder: Option<HealthChecksBuilder>, s: string,
                                          parse: string -> Result<MongoUrl, Exception>, name: Option<string>,
                                          failureStatus: Option<HealthStatus>, tags: Option<seq<string>>)
    ensures AddForConnectionString(builder, Some(s), parse, name, failureStatus, tags) != Failure(ArgumentNull("connectionString"))
    ensures parse(s).Failure? ==> AddForConnectionString(builder, Some(s), parse, name, failureStatus, tags) == Failure(Thrown(parse(s).error))
  {
  }

  /**
   * Registering a URL, the database that URL resolves to (on a client built
   * from it), or a connection string that parses to it all leave the builder
   * in the same state.
   */
  lemma SourcesConverge(builder: Option<HealthChecksBuilder>, url: MongoUrl, s: string,
                        parse: string -> Result<MongoUrl, Exception>, name: Option<string>,
                        failureStatus: Option<HealthStatus>, tags: Option<seq<string>>)
    requires parse(s) == Success(url)
    ensures var database := MongoDatabase(ClientFromUrl(url), url.databaseName.GetOr("admin"));
            && AddForUrl(builder, Some(url), name, failureStatus, tags) == AddForDatabase(builder, Some(database), name, failureStatus, tags)
            && AddForConnectionString(builder, Some(s), parse, name, failureStatus, tags) == AddForUrl(builder, Some(url), name, failureStatus, tags)
  {
  }

  /** Two registrations chained on one builder add both, in call order, and keep everything before them. */
  lemma ChainedRegistrationsAppendInOrder(b: HealthChecksBuilder, check1: MongoHealthCheck, check2: MongoHealthCheck,
                                          name1: Option<string>, name2: Option<string>,
                                          failureStatus1: Option<HealthStatus>, failureStatus2: Option<HealthStatus>,
                                          tags1: Option<seq<string>>, tags2: Option<seq<string>>)
    ensures var first := AddMongoHealthCheck(Some(b), check1, name1, failureStatus1, tags1);
            && first.Success?
            && var second := AddMongoHealthCheck(Some(first.value), check2, name2, failureStatus2, tags2);
            && second.Success?
            && second.value.registrations
               == b.registrations + [HealthCheckRegistration(name1.GetOr(DefaultName), check1, failureStatus1, tags1.GetOr([])),
                                     HealthCheckRegistration(name2.GetOr(DefaultName), check2, failureStatus2, tags2.GetOr([]))]
  {
  }

  /**
   * A check registered through the primitive reports under the name it was
   * registered with: every verdict it gives starts with that name, "MongoDb"
   * when none was given.
   */
  lemma RegisteredCheckReportsUnderItsName(b: HealthChecksBuilder, check: MongoHealthCheck, name: Option<string>,
                                           failureStatus: Option<HealthStatus>, tags: Option<seq<string>>,
                                           ping: PingOutcome, clusterState: ClusterStateRead, toJson: BsonDocument -> string)
    ensures var added := AddMongoHealthCheck(Some(b), check, name, failureStatus, tags).value.registrations[|b.registrations|];
            name.GetOr("MongoDb") + ": " <= CheckHealth(added.name, ping, clusterState, toJson).description
  {
  }
}
