# MongoDB.HealthCheck in Dafny

A model of the MongoDB health check for ASP.NET Core health checks. It covers two parts:

- **The check** (`MongoHealthCheck`). Its constructors pick the database to probe. `CheckHealthAsync` pings that database and classifies what comes back:
  - a reply whose `"ok"` field is the double 1.0 or the int32 1, with the cluster Connected, is Healthy;
  - the same reply with the cluster in any other state is Unhealthy ("Disconnected");
  - any other reply is Unhealthy, and the description carries the reply's JSON;
  - an exception is Unhealthy, and the exception is attached.
- **The registration extensions** (`MongoHealthCheckExtensions`). There are five public `AddMongoHealthCheck` overloads: database, URL, connection string, client and client settings. Each rejects a null source and then calls one internal primitive. The primitive rejects a null builder, defaults the name to `"MongoDb"` and the tags to an empty list, and appends one registration.

Files:

- `wrappers.dfy`: `Option` and `Result`. An `Option` stands for a nullable argument; a `Result` stands for a value or a thrown exception.
- `health_checks.dfy`: the framework types the check uses: `HealthStatus`, `HealthCheckResult` and `Exception`.
- `bson.dfy`: BSON values and documents. Also `TryGetValue` and the double test `Math.Abs(d - 1) < double.Epsilon`.
- `health_check.dfy`: the constructors, the verdict function `CheckHealth`, and its lemmas.
- `mongo_health_check_extensions.dfy`: the builder as a list of registrations, the primitive, the five overloads, and their lemmas.

The core's own code has no loops and writes no field after construction: every member is expression-bodied or a single try/catch. The model therefore uses functions over values. The side effects happen in code the core calls: the builder's `AddCheck` updates the builder, and the ping does network I/O. Both are handled as described below. The MongoDB driver is not modelled. Its answers are inputs to the model:

- the ping's reply document, or the exception the ping threw;
- the cluster state, or the exception reading it threw;
- `ToJson()`, passed in as a function `toJson`;
- `new MongoUrl(string)`, passed in as a function `parse` that returns a URL or an exception.

`context.Registration.Name` is the only part of the check context the code reads, so `CheckHealth` takes just the registration name.

Doubles are held as a whole number of `double.Epsilon` units (2^-1074), plus NaN and the two infinities. Every finite double is such a multiple, so the tolerance test at `MongoHealthCheck.cs:43` can be written down literally. `Bson.WithinEpsilonOfOneIsExactlyOne` proves it accepts exactly 1.0. In the C# the subtraction `d - 1d` is rounded. Rounding does not change the outcome: a nonzero exact difference is at least one unit, one unit is itself a double, and rounding is monotone.

Behaviour of the code worth noting:

- The exception description holds only the exception type's full name, not its message (`MongoHealthCheck.cs:63-64`).
- The extensions check the connection string only for null. An empty string is not rejected there; it goes to the URL parser (`MongoHealthCheckExtensions.cs:54`).
- A `failureStatus` given at registration never affects this check's verdicts. Given the framework's non-null context, the check never throws, and it always builds its failures with `HealthCheckResult.Unhealthy`. (The catch block reads `context.Registration.Name` again, so a null context would throw out of the check; the model's `registrationName: string` assumes a context is present.)
- `ClusterState` is a C# enum, so a variable of that type may hold an undeclared underlying value. The model keeps such values (`Unnamed`, whose value is never 0 or 1, the values of `Disconnected` and `Connected`); the comparison with `Connected` sends every one of them to the "Disconnected" description.

## Model

| member | source | states |
|---|---|---|
| `HealthCheck.FromDatabase` | src/MongoDB.HealthCheck/MongoHealthCheck.cs:18-19 | the check built from a database handle probes exactly that handle |
| `HealthCheck.FromUrl` | src/MongoDB.HealthCheck/MongoHealthCheck.cs:21-23 | the URL check probes a client created from the URL; the database is the URL's own when it names one, and "admin" otherwise |
| `HealthCheck.FromConnectionString` | src/MongoDB.HealthCheck/MongoHealthCheck.cs:25-27 | a connection string that does not parse fails at construction with the parser's exception; one that parses gives exactly the URL check |
| `Bson.AbsDifferenceFromOne` | src/MongoDB.HealthCheck/MongoHealthCheck.cs:43 | `Math.Abs(d - 1d)` is finite exactly for finite doubles, and zero exactly for 1.0 |
| `Bson.WithinEpsilonOfOne` | src/MongoDB.HealthCheck/MongoHealthCheck.cs:43 | the tolerance test `Math.Abs(d - 1d) < double.Epsilon`, computed on the distance from 1 in `double.Epsilon` units; it is false for NaN and the infinities |
| `Bson.WithinEpsilonOfOneIsExactlyOne` | src/MongoDB.HealthCheck/MongoHealthCheck.cs:43 | the tolerance test `Math.Abs(d - 1) < double.Epsilon` holds for the double 1.0 and for no other double, NaN and the infinities included |
| `Bson.TryGetValue` | src/MongoDB.HealthCheck/MongoHealthCheck.cs:42 | the lookup finds nothing exactly when no element has the name; otherwise it gives the value of the first element with that name |
| `Bson.TryGetValueFindsFirst` | src/MongoDB.HealthCheck/MongoHealthCheck.cs:42 | when the first element with a given name is at position i, the lookup of that name gives that element's value |
| `HealthCheck.IsOkValue` | src/MongoDB.HealthCheck/MongoHealthCheck.cs:43-44 | the C# test of the "ok" value: a double passing the tolerance test, or an int32 equal to 1; no value of any other BSON type passes |
| `HealthCheck.ReplyIsOk` | src/MongoDB.HealthCheck/MongoHealthCheck.cs:42-44 | the C# test of a reply: `TryGetValue("ok")` finds a value and that value passes `IsOkValue`; a reply with no "ok" element fails |
| `HealthCheck.IsOkValueIsExactlyOne` | src/MongoDB.HealthCheck/MongoHealthCheck.cs:42-44 | the C# ok-value test accepts exactly the double 1.0 and the int32 1 |
| `HealthCheck.ReplyIsOkIffSignalsOk` | src/MongoDB.HealthCheck/MongoHealthCheck.cs:42-44 | a reply passes the C# test exactly when its first "ok" field is the double 1.0 or the int32 1 |
| `HealthCheck.CheckHealth` | src/MongoDB.HealthCheck/MongoHealthCheck.cs:29-66 | every description starts with "{name}: "; the status is never Degraded; it is Healthy exactly when "ok" is accepted and the cluster is Connected; an exception is attached exactly when the ping, or the cluster-state read after an accepted ping, threw, and it is that exception |
| `HealthCheck.OutcomesAreExhaustiveAndExclusive` | src/MongoDB.HealthCheck/MongoHealthCheck.cs:31-64 | every input is in exactly one of four cases: exception, accepted and Connected, accepted and not Connected, or reply rejected |
| `HealthCheck.ConnectedIsHealthy` | src/MongoDB.HealthCheck/MongoHealthCheck.cs:49-51 | an accepted ping with a Connected cluster gives Healthy, "{name}: ClusterState.Connected", and no exception |
| `HealthCheck.NotConnectedIsUnhealthy` | src/MongoDB.HealthCheck/MongoHealthCheck.cs:49-53 | an accepted ping with any non-Connected cluster state, named (Disconnected) or an undeclared enum value, gives Unhealthy, "{name}: ClusterState.Disconnected", and no exception |
| `HealthCheck.VerdictIgnoresWhichNonConnectedState` | src/MongoDB.HealthCheck/MongoHealthCheck.cs:49-53 | any two non-Connected cluster states, Disconnected or undeclared enum values, give the same verdict |
| `HealthCheck.RejectedReplyReportsJson` | src/MongoDB.HealthCheck/MongoHealthCheck.cs:57-58 | a reply without an accepted "ok" gives Unhealthy, "{name}: {reply JSON}", and no exception, whatever the cluster state |
| `HealthCheck.OtherOkEncodingsAreRejected` | src/MongoDB.HealthCheck/MongoHealthCheck.cs:42-44 | a missing "ok", a double other than 1.0, an int32 other than 1, any int64 and any string all fail the C# test |
| `HealthCheck.Int32OneActsAsDoubleOne` | src/MongoDB.HealthCheck/MongoHealthCheck.cs:42-44 | a reply whose "ok" is int32 1 gives the same verdict as one whose "ok" is double 1.0 |
| `HealthCheck.PingExceptionIsCaptured` | src/MongoDB.HealthCheck/MongoHealthCheck.cs:60-64 | a ping that throws gives Unhealthy, "{name}: Exception {type full name}", with the exception attached |
| `HealthCheck.StateExceptionIsCaptured` | src/MongoDB.HealthCheck/MongoHealthCheck.cs:49-64 | a cluster-state read that throws after an accepted ping is captured the same way |
| `MongoHealthCheckExtensions.AddMongoHealthCheck` | src/MongoDB.HealthCheck/MongoHealthCheckExtensions.cs:14-15 | a null builder fails naming `builder`; otherwise the builder comes back with exactly one registration appended and the earlier ones kept; the new one is named `name` or "MongoDb", has `tags` or no tags, and has `failureStatus` unchanged |
| `MongoHealthCheckExtensions.AddForDatabase` | src/MongoDB.HealthCheck/MongoHealthCheckExtensions.cs:27-28 | a null database fails naming `database`, whatever the builder; otherwise it does exactly what the internal primitive does with the database check and the same name, failure status and tags |
| `MongoHealthCheckExtensions.AddForUrl` | src/MongoDB.HealthCheck/MongoHealthCheckExtensions.cs:40-41 | a null URL fails naming `url`, whatever the builder; otherwise it does exactly what the internal primitive does with the URL check and the same name, failure status and tags |
| `MongoHealthCheckExtensions.AddForConnectionString` | src/MongoDB.HealthCheck/MongoHealthCheckExtensions.cs:53-54 | a null string fails naming `connectionString`; a parse fault fails with the parser's exception, before the builder is checked; otherwise it registers the URL check for the parsed URL |
| `MongoHealthCheckExtensions.AddForClient` | src/MongoDB.HealthCheck/MongoHealthCheckExtensions.cs:66-67 | a null client fails naming `client`, whatever the builder; otherwise it does exactly what the internal primitive does with a check over that client |
| `MongoHealthCheckExtensions.AddForSettings` | src/MongoDB.HealthCheck/MongoHealthCheckExtensions.cs:80-81 | a null settings object fails naming `settings`, whatever the builder; otherwise it does exactly what the internal primitive does with a check over those settings |
| `MongoHealthCheckExtensions.ConnectionStringIsOnlyNullChecked` | src/MongoDB.HealthCheck/MongoHealthCheckExtensions.cs:53-54 | a non-null connection string, the empty one included, is never an argument fault; when it does not parse, the parser's fault is raised even with a null builder |
| `MongoHealthCheckExtensions.SourcesConverge` | src/MongoDB.HealthCheck/MongoHealthCheckExtensions.cs:27-54 | registering a URL, the database it resolves to, or a string that parses to it leaves the builder in the same state |
| `MongoHealthCheckExtensions.ChainedRegistrationsAppendInOrder` | src/MongoDB.HealthCheck/MongoHealthCheckExtensions.cs:14-15 | two chained registrations add both records in call order and keep the earlier ones |
| `MongoHealthCheckExtensions.RegisteredCheckReportsUnderItsName` | src/MongoDB.HealthCheck/MongoHealthCheckExtensions.cs:14-15 | every verdict of a registered check starts with the name it was registered under, "MongoDb" when none was given |

## Left out

- The MongoDB driver: the ping command, client creation, URL parsing, the cluster description and `ToJson`. Their results are inputs to the model, as described above.
- `new MongoClient(url)` is taken never to throw. The model does not capture an exception from client creation in the URL and string constructors.
- Client identity: each `new MongoClient(url)` makes a new object. The model identifies a client created from a URL by the URL alone.
- The constructors `MongoHealthCheck(IMongoClient)` and `MongoHealthCheck(MongoClientSettings)` are not part of this model. The check they build is held only by its argument, and which database it probes is not modelled.
- Async and cancellation: `await`, `ConfigureAwait` and the `CancellationToken`. The probe is one synchronous outcome. A cancellation that surfaces as an exception falls under the exception case.
- `ToJson` throwing is not modelled. The rejected-reply description assumes serialisation succeeds.
- Duplicate element names in a reply: the model reads the first "ok" element. Whether the driver accepts such a reply is driver behaviour.
- Doubles are modelled only by their value in `double.Epsilon` units. This is a superset of the real doubles, and the lemmas hold for all of its values.
- The framework's `AddCheck` is modelled as appending a record. Duplicate-name handling and the default failure status belong to the framework.
- `MongoHealthCheckExtensions.AddMongoHealthCheck`, `AddForDatabase`, `AddForUrl`, `AddForConnectionString`, `AddForClient`, `AddForSettings`: in C# the builder is an object. `AddCheck` updates it in place and returns that same object. The model treats the builder as a value and returns the new value, so other references to the old builder are not modelled. For example, a caller who ignores the returned builder and registers twice on the original one has two registrations in C#. In the model the second call starts again from the original value.
- `CheckHealthAsync` does network I/O through the driver; the model sees only its outcome.
- The sample application (bootstrap, dependency injection, tracing, routing, settings binding).
