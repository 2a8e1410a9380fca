# Local job queue of the Lean engine, modelled in Dafny

This project models `JobQueue`, the local job queue of the Lean algorithmic trading engine
(`Queues/JobQueue.cs`). When the engine asks the queue for its next job, the queue reads the
process configuration and builds exactly one job packet: a live-trading node packet or a
backtest node packet. It also returns the location of the algorithm that the job runs.

The model has four modules:

- `Outcomes` (outcomes.dfy) holds `Option`, `Result` and the exceptions that can escape from
  the queue. Each of these exceptions is fatal.
- `Configuration` (configuration.dfy) models the configuration as a map from key to stored text.
  It provides the typed readers `Config.Get`, `Config.GetInt` and `Config.GetBool` with their
  defaults, and the text conversions those readers use: `Int32.Parse` and `Boolean.Parse`.
  Each conversion is proved against its inverse formatter.
- `Packets` (packets.dfy) holds the `Language` enumeration and its case-insensitive parse. It
  also holds the resource `Controls`, the fields every node packet shares (`NodeFields`), and
  `Packet` with its two kinds, `LiveNode` and `BacktestNode`. The packet's kind stands for its
  `Type` tag.
- `Queues` (job_queue.dfy) holds the queue itself:
  - `Create` reads the settings that the field initialisers read. It fails on an unknown
    language, because the source parses the language while it constructs the object.
  - `JobQueue.NextJobResult` is the specification function of a call to `NextJob`.
  - `JobQueue.NextJob` is the step-by-step method. It reassigns the parameter map, updates the
    live packet's brokerage data after the registry lookup, and adds the Python directory to
    the process-wide path list (`PythonPaths`). It is proved to return `NextJobResult` and to
    leave the path list extended by exactly `RegisteredDirectories`.
- `JobQueueProperties` (job_queue_properties.dfy) states what the queue promises, as lemmas
  over `NextJobResult`.

The queue's collaborators are parameters, bundled in `Environment`:

- the file-existence test;
- `File.ReadAllBytes`, as a partial reader;
- the JSON deserializer for the parameters, as a partial function;
- the full name of a file's directory;
- the brokerage-factory registry, as a sequence of (brokerage type name, brokerage data) pairs;
- the engine's version tag (`Globals.Version`).

Behaviour of `Queues/JobQueue.cs` worth noting:

- The algorithm bytes are read in both modes, not only for backtests (JobQueue.cs:104, :139).
  An unreadable algorithm file is therefore fatal for a live job too.
- The memory allocation is always `int.MaxValue`. No setting is read for it (:92).
- The brokerage lookup is `Single`. It fails when no factory matches, and also when several
  factories match (:124). In both cases the failure is caught and the brokerage data stays
  empty.
- The resource limits are not clamped. A configured negative limit reaches the packet as it
  is (`ConfiguredLimitTakenVerbatim`).
- The language is parsed when the queue is created (:46). A configuration with no
  `algorithm-language` key therefore fails before any job is requested, because the empty text
  names no language (`MissingLanguageFailsAtCreation`).

## Model

| member | source | states |
|---|---|---|
| `Configuration.Get` | Queues/JobQueue.cs:41-42 | a present key gives its stored text, even the empty text; an absent key gives the default |
| `Configuration.GetInt` | Queues/JobQueue.cs:43-44 | an absent key gives the default; a present key succeeds exactly when its text reads as a 32-bit integer, and then gives that integer; otherwise it fails naming the key and the stored text |
| `Configuration.GetIntReadsFormatted` | Queues/JobQueue.cs:43-44 | an integer written into the configuration as decimal text is read back by `GetInt` |
| `Configuration.GetBool` | Queues/JobQueue.cs:40 | an absent key gives `false`; a present key gives `true` for "true" and `false` for "false" in any letter case, and fails naming the key and the stored text for any other text |
| `Configuration.GetBoolReadsFormatted` | Queues/JobQueue.cs:40 | a boolean written into the configuration as `True` or `False` is read back by `GetBool` |
| `Configuration.ParseBool` | Queues/JobQueue.cs:40 | yields `true` exactly for "true" and `false` exactly for "false", each up to letter case, and nothing for any other text |
| `Configuration.ParseInt32` | Queues/JobQueue.cs:89-93 | accepts only digits with an optional sign; unsigned or `+` digits are read as their value and rejected above 2147483647; `-` digits are read as the negated value and rejected below -2147483648 |
| `Configuration.ParseFormatRoundTrip` | Queues/JobQueue.cs:89-93 | every 32-bit integer is read back from its own decimal text |
| `Configuration.ParseBoolRoundTrip` | Queues/JobQueue.cs:40 | both booleans are read back from their own text (`True`, `False`) |
| `Packets.ParseLanguage` | Queues/JobQueue.cs:46 | yields language `l` exactly when the text equals `l`'s name up to letter case, and nothing for any other text |
| `Queues.SingleFactory` | Queues/JobQueue.cs:124 | yields a factory exactly when one and only one registered factory builds the brokerage, and then it yields that factory |
| `Queues.JobQueue.BrokerageDataFor` | Queues/JobQueue.cs:121-130 | the brokerage data of the one factory that builds the brokerage, or the empty map when none or several do |
| `Queues.PythonPaths.AddPythonPaths` | Queues/JobQueue.cs:171 | the path set afterwards is the old set plus the given directories |
| `Queues.JobQueue.AlgorithmLocation` | Queues/JobQueue.cs:51-57 | `algorithm-location` when set, `QuantConnect.Algorithm.CSharp.dll` otherwise |
| `Queues.JobQueue.LocateAlgorithm` | Queues/JobQueue.cs:160-175 | fails exactly for a Python algorithm whose file does not exist, with file-not-found naming the location; otherwise gives the location |
| `Queues.JobQueue.RegisteredDirectories` | Queues/JobQueue.cs:162-172 | non-empty exactly for a Python algorithm that was located, and then only the directory of its file |
| `Queues.JobQueue.ReadParameters` | Queues/JobQueue.cs:79-85 | an absent or empty setting gives the empty map; otherwise succeeds exactly when the text deserializes, with the deserialized map, and fails with invalid-parameters naming the text |
| `Queues.JobQueue.ReadControls` | Queues/JobQueue.cs:87-94 | succeeds exactly when each of the four limit settings is absent or reads as a 32-bit integer; each limit is `GetInt` of its key with default 10000 or 4000; memory is `int.MaxValue`; a failure names the first malformed setting in the order minute, second, tick, chart series, with its text |
| `Queues.JobQueue.ReadAlgorithm` | Queues/JobQueue.cs:104 | the read of both branches (:104 live, :139 backtest): succeeds exactly when the file at the algorithm location can be read, with its bytes; otherwise fails naming the location |
| `Queues.JobQueue.GetAlgorithmLocation` | Queues/JobQueue.cs:160-175 | returns the configured location, or fails with file-not-found for a missing Python file; it adds the Python file's directory to the path set and nothing else |
| `Queues.JobQueue.NextJobResult` | Queues/JobQueue.cs:72-154 | a returned job is a live packet exactly in live mode; its location is the configured algorithm location; its memory allocation is `int.MaxValue`; failures come in source order: a missing Python file (file-not-found), then the parameters (invalid-parameters), then the first malformed limit (invalid-config-value), then an unreadable algorithm file (read-failure) |
| `Queues.JobQueue.NextJob` | Queues/JobQueue.cs:72-154 | returns what `NextJobResult` specifies; the Python path set grows by exactly the directory that locating the algorithm registers, even when a later step fails |
| `Queues.Create` | Queues/JobQueue.cs:40-46 | creation succeeds exactly when the ids read as 32-bit integers or are absent, `live-mode` is absent or reads as a boolean, and `algorithm-language` names a language up to letter case; the created queue's mode is the parsed `live-mode` (false when absent), its ids the parsed integers (0 when absent), its language the one named, and its type name, organization and access token the texts of `algorithm-type-name`, `job-organization-id` and `api-access-token` (empty when absent); a failure names the first unreadable setting in the order user id, project id, `live-mode`, with its text, and otherwise the unknown language text |
| `JobQueueProperties.LiveJobFields` | Queues/JobQueue.cs:99-119 | in live mode: a live packet whose brokerage is `live-mode-brokerage` (default `PaperBrokerage`), whose deploy id is `algorithm-id` (default the type name), and whose data queue handler and data channel provider have their defaults |
| `JobQueueProperties.BacktestJobFields` | Queues/JobQueue.cs:136-153 | outside live mode: a backtest packet whose backtest id is `algorithm-id` (default the type name), constructed with `local` as its fifth constructor argument |
| `JobQueueProperties.ModeOnlyChoosesKind` | Queues/JobQueue.cs:96-153 | the two modes fail together, with the same exception; on success they share every common field, the location and the id |
| `JobQueueProperties.NextJobSucceedsExactlyWhen` | Queues/JobQueue.cs:72-154 | a job is built if and only if the Python file exists, non-empty parameters deserialize, each of the four limit settings is absent or reads as a 32-bit integer, and the algorithm file is readable |
| `JobQueueProperties.FailureOrder` | Queues/JobQueue.cs:87-104 | once the algorithm is located and the parameters read, the first malformed limit in source order fails the job naming that key and its text; with all limits readable, an unreadable algorithm file fails it with read-failure naming the location |
| `JobQueueProperties.BrokerageLookupNotFatal` | Queues/JobQueue.cs:121-130 | whether a job is built does not depend on the brokerage registry |
| `JobQueueProperties.BrokerageDataResolved` | Queues/JobQueue.cs:121-132 | a live packet carries the data of the unique matching factory; with no match or several matches its brokerage data is empty |
| `JobQueueProperties.MissingPythonFileIsFatal` | Queues/JobQueue.cs:162-167 | a missing Python file fails with file-not-found naming the location; no packet is built and no directory is registered |
| `JobQueueProperties.OtherLanguagesUnchecked` | Queues/JobQueue.cs:160-175 | for any language but Python the location is returned as is; the result does not depend on the existence test; no directory is registered |
| `JobQueueProperties.LocationIsConfigured` | Queues/JobQueue.cs:51-57 | the returned location is `algorithm-location`, or `QuantConnect.Algorithm.CSharp.dll` when unset |
| `JobQueueProperties.EmptyParametersNotDeserialized` | Queues/JobQueue.cs:79-82 | an absent or empty parameters setting gives an empty parameter map, and the result does not depend on the deserializer |
| `JobQueueProperties.NonEmptyParametersDeserialized` | Queues/JobQueue.cs:81-85 | once the algorithm is located, a non-empty setting that does not deserialize aborts with invalid-parameters; a setting that does deserialize is the packet's parameter map |
| `JobQueueProperties.ControlsDefaults` | Queues/JobQueue.cs:87-94 | the symbol limits default to 10000 and the chart-series limit to 4000; a configured limit is the integer it spells; the memory allocation is `int.MaxValue` |
| `JobQueueProperties.ConfiguredLimitTakenVerbatim` | Queues/JobQueue.cs:89 | any 32-bit minute limit written into the configuration, negative ones included, is the packet's minute limit |
| `JobQueueProperties.NodeFieldsFromSettings` | Queues/JobQueue.cs:104-117 | channel and user token are the access token; user, project, organization, version and language come from the queue; the history provider defaults to `SubscriptionDataReaderHistoryProvider`; the algorithm is the file's bytes |
| `JobQueueProperties.CommonFieldsFromConfig` | Queues/JobQueue.cs:41-44 | channel and user token both equal `api-access-token`; the organization is `job-organization-id`; user and project ids default to 0, or are the integers configured |
| `JobQueueProperties.ModeAndIdFromConfig` | Queues/JobQueue.cs:40 | for a queue created from the same configuration, the job is a live packet exactly when `live-mode` reads "true" up to letter case; its deploy or backtest id is `algorithm-id`, else `algorithm-type-name` |
| `JobQueueProperties.BacktestScenarioQueue` | Queues/JobQueue.cs:40-46 | a configuration with live mode `false`, language `CSharp`, location `strategy.bin` and empty parameters creates a backtest queue for C# with user and project ids 0 |
| `JobQueueProperties.BacktestScenario` | Queues/JobQueue.cs:136-153 | that queue's next job is a backtest packet with no parameters, the default limits and location `strategy.bin` |
| `JobQueueProperties.UnknownBrokerageQueue` | Queues/JobQueue.cs:40-46 | a configuration with live mode `true`, language `csharp` and brokerage `UnknownBroker` creates a live queue for C#; letter case in the language does not matter |
| `JobQueueProperties.UnknownBrokerageScenario` | Queues/JobQueue.cs:121-132 | when no factory builds `UnknownBroker`, that queue's next job is still a live packet for that brokerage, with empty brokerage data |
| `JobQueueProperties.MissingLanguageFailsAtCreation` | Queues/JobQueue.cs:46 | without an `algorithm-language` setting the queue cannot be created; with readable ids and mode it fails with unknown language `""` |

## Left out

- `AcknowledgeJob` (Queues/JobQueue.cs:181-191) is left out. It only writes to the console and, unless `close-automatically` is set, blocks on a key press.
- `Initialize` (Queues/JobQueue.cs:63-66) is left out because it does nothing.
- Logging (:76, :129) is left out. It has no effect on the result.
- The file system, the JSON deserializer and the version tag are parameters, not implementations. `File.Exists` and `File.ReadAllBytes` are separate parameters, so a file can exist at locate time and still be unreadable at read time.
- The model does not capture JSON text that deserializes to `null`: the source's parameter map would then be null. The deserializer parameter only succeeds with a map or fails.
- The model does not capture exceptions thrown by `FileInfo` or `Directory.FullName` for malformed paths, or by a factory's `BrokerageData` getter.
- Queues.SingleFactory: a factory matches only when its brokerage type name equals the configured name. `MatchesTypeName` also accepts a type's full and assembly-qualified names, and it is not part of this model.
- Packets.ParseLanguage: it accepts enumeration member names only. `Enum.Parse` also accepts numeric text and comma-separated lists, and trims white space. These forms are not modelled.
- Configuration.ParseInt32: the white space that `Int32.Parse` allows around the number is not accepted; `Configuration.GetInt` inherits this restriction.
- Configuration.ParseBool: the white space that `Boolean.Parse` trims around the text is not accepted; `Configuration.GetBool` inherits this restriction.
- Queues.PythonPaths.AddPythonPaths: the process-wide Python path list is modelled as a set of directories; whether the real list can hold duplicates, and its order, are not modelled.
- Queues.Create: the static fields (access token, organization, user and project ids) are read when the queue is created. In the source they are read once per process, when the type is initialised. `JobQueue` has no static constructor, so the runtime may run that initialisation at any time before the first use of a static field, which is in `NextJob` (:109-112, :141-144). A malformed `job-user-id` or `job-project-id` may therefore let construction succeed and surface from `NextJob` as a `TypeInitializationException`; `Create` fails instead. A later configuration change is not seen by a second queue either. That timing is not modelled.
- `Algorithm.CSharp/BasicTemplateIndexAlgorithm.cs` is a sample strategy built on framework calls outside this model. It is not part of this model.
- The `BacktestNodePacket` constructor is not part of this model. Of its arguments (:136), the model keeps only the fifth, `local`, as the packet's `name`; which field the constructor stores it in is not modelled. The session id `""` (the third argument) is left out; the ids and the algorithm bytes it is given are overwritten by the object initialiser.
- The `ReadFailure` exception stands for every exception `File.ReadAllBytes` throws (a missing file, denied access, an I/O error), which the model does not tell apart.
