/** What the job queue promises about the job it builds, stated over the specification
    function `JobQueue.NextJobResult` that `JobQueue.NextJob` is proved to compute. */
module JobQueueProperties {
  import opened Outcomes
  import opened Configuration
  import opened Packets
  import opened Queues

  // ---------------------------------------------------------------------------
  // Which packet is built

  /** In live mode the job is a live packet for the configured brokerage (the paper
      brokerage by default), deployed under the algorithm id. */
  lemma LiveJobFields(q: JobQueue, cfg: Config, env: Environment)
    requires q.liveMode && q.NextJobResult(cfg, env).Success?
    ensures var p := q.NextJobResult(cfg, env).value.0;
      && p.LiveNode?
      && ("live-mode-brokerage" in cfg ==> p.brokerage == cfg["live-mode-brokerage"])
      && ("live-mode-brokerage" !in cfg ==> p.brokerage == "PaperBrokerage")
      && ("algorithm-id" in cfg ==> p.deployId == cfg["algorithm-id"])
      && ("algorithm-id" !in cfg ==> p.deployId == q.algorithmTypeName)
      && ("data-queue-handler" in cfg ==> p.dataQueueHandler == cfg["data-queue-handler"])
      && ("data-queue-handler" !in cfg ==> p.dataQueueHandler == "LiveDataQueue")
      && ("data-channel-provider" in cfg ==> p.dataChannelProvider == cfg["data-channel-provider"])
      && ("data-channel-provider" !in cfg ==> p.dataChannelProvider == "DataChannelProvider")
  {
  }

  /** Outside live mode the job is a backtest packet whose backtest id is the algorithm
      id, falling back to the algorithm's type name, constructed with the name "local". */
  lemma BacktestJobFields(q: JobQueue, cfg: Config, env: Environment)
    requires !q.liveMode && q.NextJobResult(cfg, env).Success?
    ensures var p := q.NextJobResult(cfg, env).value.0;
      && p.BacktestNode?
      && ("algorithm-id" in cfg ==> p.backtestId == cfg["algorithm-id"])
      && ("algorithm-id" !in cfg ==> p.backtestId == q.algorithmTypeName)
      && p.name == "local"
  {
  }

  /** The mode flag only chooses the kind of packet: both modes fail with the same
      exception on the same inputs, and on success they share every common field, the
      location, and the id (deploy id in one, backtest id in the other). */
  lemma ModeOnlyChoosesKind(q: JobQueue, cfg: Config, env: Environment)
    ensures var live := q.(liveMode := true).NextJobResult(cfg, env);
            var backtest := q.(liveMode := false).NextJobResult(cfg, env);
      && (live.Success? <==> backtest.Success?)
      && (live.Failure? ==> live.error == backtest.error)
      && (live.Success? ==>
            && live.value.0.node == backtest.value.0.node
            && live.value.1 == backtest.value.1
            && live.value.0.deployId == backtest.value.0.backtestId)
  {
    var live, backtest := q.(liveMode := true), q.(liveMode := false);
    assert live.AlgorithmLocation(cfg) == backtest.AlgorithmLocation(cfg);
    assert live.LocateAlgorithm(cfg, env) == backtest.LocateAlgorithm(cfg, env);
    assert live.ReadParameters(cfg, env) == backtest.ReadParameters(cfg, env);
    assert live.ReadControls(cfg) == backtest.ReadControls(cfg);
    assert live.ReadAlgorithm(cfg, env) == backtest.ReadAlgorithm(cfg, env);
  }

  // ---------------------------------------------------------------------------
  // Which failures are fatal

  /** NextJob returns a packet exactly when a Python algorithm exists, a non-empty
      parameters setting deserializes, every configured resource limit reads as a 32-bit
      integer, and the
      algorithm file can be read. Nothing about the brokerage registry appears here. */
  lemma NextJobSucceedsExactlyWhen(q: JobQueue, cfg: Config, env: Environment)
    ensures q.NextJobResult(cfg, env).Success? <==>
      && (q.language == Python ==> env.fileExists(q.AlgorithmLocation(cfg)))
      && (Get(cfg, "parameters", "") != "" ==> env.deserializeParameters(Get(cfg, "parameters", "")).Some?)
      && IsInt32Setting(cfg, "symbol-minute-limit")
      && IsInt32Setting(cfg, "symbol-second-limit")
      && IsInt32Setting(cfg, "symbol-tick-limit")
      && IsInt32Setting(cfg, "maximum-data-points-per-chart-series")
      && env.readAllBytes(q.AlgorithmLocation(cfg)).Some?
  {
  }

  /** The failures surface in the order the source meets them: a missing Python file,
      then undeserializable parameters, then the first malformed limit (minute, second,
      tick, chart series), and only then an unreadable algorithm file. */
  lemma FailureOrder(q: JobQueue, cfg: Config, env: Environment)
    requires q.LocateAlgorithm(cfg, env).Success? && q.ReadParameters(cfg, env).Success?
    ensures !IsInt32Setting(cfg, "symbol-minute-limit") ==>
              q.NextJobResult(cfg, env) == Failure(InvalidConfigValue("symbol-minute-limit", cfg["symbol-minute-limit"]))
    ensures IsInt32Setting(cfg, "symbol-minute-limit") && !IsInt32Setting(cfg, "symbol-second-limit") ==>
              q.NextJobResult(cfg, env) == Failure(InvalidConfigValue("symbol-second-limit", cfg["symbol-second-limit"]))
    ensures IsInt32Setting(cfg, "symbol-minute-limit") && IsInt32Setting(cfg, "symbol-second-limit") &&
            !IsInt32Setting(cfg, "symbol-tick-limit") ==>
              q.NextJobResult(cfg, env) == Failure(InvalidConfigValue("symbol-tick-limit", cfg["symbol-tick-limit"]))
    ensures IsInt32Setting(cfg, "symbol-minute-limit") && IsInt32Setting(cfg, "symbol-second-limit") &&
            IsInt32Setting(cfg, "symbol-tick-limit") &&
            !IsInt32Setting(cfg, "maximum-data-points-per-chart-series") ==>
              q.NextJobResult(cfg, env) == Failure(InvalidConfigValue("maximum-data-points-per-chart-series",
                                                                      cfg["maximum-data-points-per-chart-series"]))
    ensures q.ReadControls(cfg).Success? && env.readAllBytes(q.AlgorithmLocation(cfg)).None? ==>
              q.NextJobResult(cfg, env) == Failure(ReadFailure(q.AlgorithmLocation(cfg)))
  {
  }

  /** Replacing the brokerage registry never turns a job into a failure or back: a failed
      lookup is caught. */
  lemma BrokerageLookupNotFatal(q: JobQueue, cfg: Config, env: Environment, factories: seq<BrokerageFactory>)
    ensures q.NextJobResult(cfg, env).Success? <==>
            q.NextJobResult(cfg, env.(factories := factories)).Success?
  {
    var other := env.(factories := factories);
    assert q.LocateAlgorithm(cfg, env) == q.LocateAlgorithm(cfg, other);
    assert q.ReadParameters(cfg, env) == q.ReadParameters(cfg, other);
    assert q.ReadAlgorithm(cfg, env) == q.ReadAlgorithm(cfg, other);
  }

  /** A live packet carries the brokerage data of the one factory that builds its
      brokerage; when no factory or more than one does, its brokerage data stays empty. */
  lemma BrokerageDataResolved(q: JobQueue, cfg: Config, env: Environment)
    requires q.liveMode && q.NextJobResult(cfg, env).Success?
    ensures var p := q.NextJobResult(cfg, env).value.0;
      && p.LiveNode?
      && (forall i :: UniqueMatchAt(env.factories, p.brokerage, i) ==>
            p.brokerageData == env.factories[i].brokerageData)
      && ((forall i :: !UniqueMatchAt(env.factories, p.brokerage, i)) ==> p.brokerageData == map[])
  {
  }

  // ---------------------------------------------------------------------------
  // The algorithm location

  /** A Python algorithm whose file is missing fails with file-not-found, naming the
      location, before any packet is built, and nothing joins the Python path. */
  lemma MissingPythonFileIsFatal(q: JobQueue, cfg: Config, env: Environment)
    requires q.language == Python && !env.fileExists(q.AlgorithmLocation(cfg))
    ensures q.LocateAlgorithm(cfg, env) == Failure(FileNotFound(q.AlgorithmLocation(cfg)))
    ensures q.NextJobResult(cfg, env) == Failure(FileNotFound(q.AlgorithmLocation(cfg)))
    ensures q.RegisteredDirectories(cfg, env) == {}
  {
  }

  /** An algorithm in any language but Python is taken at its location without asking
      the file system whether it exists, and does not touch the Python path. */
  lemma OtherLanguagesUnchecked(q: JobQueue, cfg: Config, env: Environment, exists': string -> bool)
    requires q.language != Python
    ensures q.LocateAlgorithm(cfg, env) == Success(q.AlgorithmLocation(cfg))
    ensures q.NextJobResult(cfg, env) == q.NextJobResult(cfg, env.(fileExists := exists'))
    ensures q.RegisteredDirectories(cfg, env) == {}
  {
    var other := env.(fileExists := exists');
    assert q.LocateAlgorithm(cfg, env) == q.LocateAlgorithm(cfg, other);
    assert q.ReadParameters(cfg, env) == q.ReadParameters(cfg, other);
    assert q.ReadAlgorithm(cfg, env) == q.ReadAlgorithm(cfg, other);
  }

  /** The returned location is the configured algorithm location, or the compiled C#
      library when none is configured. */
  lemma LocationIsConfigured(q: JobQueue, cfg: Config, env: Environment)
    requires q.NextJobResult(cfg, env).Success?
    ensures "algorithm-location" in cfg ==> q.NextJobResult(cfg, env).value.1 == cfg["algorithm-location"]
    ensures "algorithm-location" !in cfg ==>
              q.NextJobResult(cfg, env).value.1 == "QuantConnect.Algorithm.CSharp.dll"
  {
  }

  // ---------------------------------------------------------------------------
  // Run parameters

  /** An absent or empty parameters setting gives an empty parameter map and is never
      handed to the JSON reader. */
  lemma EmptyParametersNotDeserialized(q: JobQueue, cfg: Config, env: Environment,
                                       reader: string -> Option<map<string, string>>)
    requires Get(cfg, "parameters", "") == ""
    ensures q.NextJobResult(cfg, env) == q.NextJobResult(cfg, env.(deserializeParameters := reader))
    ensures q.NextJobResult(cfg, env).Success? ==> q.NextJobResult(cfg, env).value.0.node.parameters == map[]
  {
    var other := env.(deserializeParameters := reader);
    assert q.LocateAlgorithm(cfg, env) == q.LocateAlgorithm(cfg, other);
    assert q.ReadParameters(cfg, env) == q.ReadParameters(cfg, other) == Success(map[]);
    assert q.ReadAlgorithm(cfg, env) == q.ReadAlgorithm(cfg, other);
  }

  /** A non-empty parameters setting that does not deserialize aborts NextJob once the
      algorithm is located; one that does becomes the packet's parameters unchanged. */
  lemma NonEmptyParametersDeserialized(q: JobQueue, cfg: Config, env: Environment)
    requires "parameters" in cfg && cfg["parameters"] != ""
    ensures q.LocateAlgorithm(cfg, env).Success? && env.deserializeParameters(cfg["parameters"]).None? ==>
              q.NextJobResult(cfg, env) == Failure(InvalidParameters(cfg["parameters"]))
    ensures q.NextJobResult(cfg, env).Success? ==>
              env.deserializeParameters(cfg["parameters"]) == Some(q.NextJobResult(cfg, env).value.0.node.parameters)
  {
  }

  // ---------------------------------------------------------------------------
  // Resource limits and common fields

  /** Each symbol limit is 10000 and the chart series limit 4000 unless configured, in
      which case it is the configured integer; the memory allocation is always
      `int.MaxValue`. */
  lemma ControlsDefaults(q: JobQueue, cfg: Config, env: Environment)
    requires q.NextJobResult(cfg, env).Success?
    ensures var c := q.NextJobResult(cfg, env).value.0.node.controls;
      && ("symbol-minute-limit" !in cfg ==> c.minuteLimit == 10000)
      && ("symbol-second-limit" !in cfg ==> c.secondLimit == 10000)
      && ("symbol-tick-limit" !in cfg ==> c.tickLimit == 10000)
      && ("maximum-data-points-per-chart-series" !in cfg ==> c.maximumDataPointsPerChartSeries == 4000)
      && ("symbol-minute-limit" in cfg ==> ParseInt32(cfg["symbol-minute-limit"]) == Some(c.minuteLimit))
      && ("symbol-second-limit" in cfg ==> ParseInt32(cfg["symbol-second-limit"]) == Some(c.secondLimit))
      && ("symbol-tick-limit" in cfg ==> ParseInt32(cfg["symbol-tick-limit"]) == Some(c.tickLimit))
      && ("maximum-data-points-per-chart-series" in cfg ==>
            ParseInt32(cfg["maximum-data-points-per-chart-series"]) == Some(c.maximumDataPointsPerChartSeries))
      && c.ramAllocation == 0x7FFF_FFFF
  {
    assert q.ReadControls(cfg) == Success(q.NextJobResult(cfg, env).value.0.node.controls);
  }

  /** Any 32-bit minute limit written into the configuration reaches the packet as is:
      nothing clamps it, not even a negative one. */
  lemma ConfiguredLimitTakenVerbatim(q: JobQueue, cfg: Config, env: Environment, n: int32)
    requires q.NextJobResult(cfg["symbol-minute-limit" := FormatInt32(n)], env).Success?
    ensures q.NextJobResult(cfg["symbol-minute-limit" := FormatInt32(n)], env).value.0.node.controls.minuteLimit == n
  {
    ParseFormatRoundTrip(n);
  }

  /** Both kinds of packet take the access token as channel and user token, the user,
      project and organization from the queue, the engine's version, the queue's
      language, the history provider (by default the subscription data reader), and the
      bytes of the algorithm file. */
  lemma NodeFieldsFromSettings(q: JobQueue, cfg: Config, env: Environment)
    requires q.NextJobResult(cfg, env).Success?
    ensures var n := q.NextJobResult(cfg, env).value.0.node;
      && n.channel == q.accessToken
      && n.userToken == q.accessToken
      && n.userId == q.userId
      && n.projectId == q.projectId
      && n.organizationId == q.organizationId
      && n.version == env.version
      && n.language == q.language
      && ("history-provider" in cfg ==> n.historyProvider == cfg["history-provider"])
      && ("history-provider" !in cfg ==> n.historyProvider == "SubscriptionDataReaderHistoryProvider")
      && env.readAllBytes(q.AlgorithmLocation(cfg)) == Some(n.algorithm)
  {
  }

  /** With one configuration for creating the queue and for its next job: the channel
      and user token are `api-access-token` (empty when unset), the organization is
      `job-organization-id`, and the user and project ids default to 0. */
  lemma CommonFieldsFromConfig(cfg: Config, env: Environment)
    requires Create(cfg).Success? && Create(cfg).value.NextJobResult(cfg, env).Success?
    ensures var n := Create(cfg).value.NextJobResult(cfg, env).value.0.node;
      && n.channel == n.userToken == Get(cfg, "api-access-token", "")
      && n.organizationId == Get(cfg, "job-organization-id", "")
      && ("job-user-id" !in cfg ==> n.userId == 0)
      && ("job-project-id" !in cfg ==> n.projectId == 0)
      && ("job-user-id" in cfg ==> ParseInt32(cfg["job-user-id"]) == Some(n.userId))
      && ("job-project-id" in cfg ==> ParseInt32(cfg["job-project-id"]) == Some(n.projectId))
  {
    var q := Create(cfg).value;
    assert q.accessToken == Get(cfg, "api-access-token", "");
    assert q.organizationId == Get(cfg, "job-organization-id", "");
    assert GetInt(cfg, "job-user-id", 0) == Success(q.userId);
    assert GetInt(cfg, "job-project-id", 0) == Success(q.projectId);
    NodeFieldsFromSettings(q, cfg, env);
  }

  /** With one configuration for creating the queue and for its next job: the job is a
      live packet exactly when `live-mode` reads "true", and its deploy or backtest id is
      `algorithm-id`, falling back to `algorithm-type-name`. */
  lemma ModeAndIdFromConfig(cfg: Config, env: Environment)
    requires Create(cfg).Success? && Create(cfg).value.NextJobResult(cfg, env).Success?
    ensures var p := Create(cfg).value.NextJobResult(cfg, env).value.0;
      && (p.LiveNode? <==> "live-mode" in cfg && EqualsIgnoreCase(cfg["live-mode"], "true"))
      && (p.LiveNode? ==> p.deployId == Get(cfg, "algorithm-id", Get(cfg, "algorithm-type-name", "")))
      && (p.BacktestNode? ==> p.backtestId == Get(cfg, "algorithm-id", Get(cfg, "algorithm-type-name", "")))
  {
    var q := Create(cfg).value;
    assert q.algorithmTypeName == Get(cfg, "algorithm-type-name", "");
    if "live-mode" in cfg {
      assert ParseBool(cfg["live-mode"]) == Some(q.liveMode);
    }
  }

  // ---------------------------------------------------------------------------
  // Whole runs

  /** A compiled algorithm to be backtested from "strategy.bin", with an empty
      parameters setting. */
  function BacktestScenarioConfig(): Config {
    map["live-mode" := "false", "algorithm-language" := "CSharp",
        "algorithm-location" := "strategy.bin", "parameters" := ""]
  }

  /** The backtest scenario's configuration creates a backtest queue for a C# algorithm,
      with an empty access token and user and project ids 0. */
  lemma BacktestScenarioQueue()
    ensures Create(BacktestScenarioConfig()) == Success(JobQueue(false, "", "", 0, 0, "", CSharp))
  {
    assert ParseBool("false") == Some(false) by {
      assert Lower("false") == "false";
    }
    LowerNameIsLower(CSharp);
  }

  /** The queue the backtest scenario creates yields a backtest packet with no parameters, the default
      limits, and location "strategy.bin". */
  lemma BacktestScenario(env: Environment)
    requires env.readAllBytes("strategy.bin").Some?
    ensures var r := JobQueue(false, "", "", 0, 0, "", CSharp).NextJobResult(BacktestScenarioConfig(), env);
      && r.Success?
      && r.value.0.BacktestNode?
      && r.value.0.node.parameters == map[]
      && r.value.0.node.controls == Controls(10000, 10000, 10000, Int32MaxValue, 4000)
      && r.value.1 == "strategy.bin"
  {
  }

  /** A live job for the brokerage "UnknownBroker", with the algorithm at its default
      location. */
  function UnknownBrokerageConfig(): Config {
    map["live-mode" := "true", "algorithm-language" := "csharp",
        "live-mode-brokerage" := "UnknownBroker"]
  }

  /** The unknown-brokerage configuration creates a live queue for a C# algorithm; the
      language's letter case does not matter. */
  lemma UnknownBrokerageQueue()
    ensures Create(UnknownBrokerageConfig()) == Success(JobQueue(true, "", "", 0, 0, "", CSharp))
  {
    assert ParseBool("true") == Some(true) by {
      assert Lower("true") == "true";
    }
    LowerNameIsLower(CSharp);
  }

  /** When no factory builds "UnknownBroker", the job is still a live packet for that
      brokerage, with empty brokerage data. */
  lemma UnknownBrokerageScenario(env: Environment)
    requires forall i :: 0 <= i < |env.factories| ==> env.factories[i].brokerageType != "UnknownBroker"
    requires env.readAllBytes("QuantConnect.Algorithm.CSharp.dll").Some?
    ensures var r := JobQueue(true, "", "", 0, 0, "", CSharp).NextJobResult(UnknownBrokerageConfig(), env);
      && r.Success?
      && r.value.0.LiveNode?
      && r.value.0.brokerage == "UnknownBroker"
      && r.value.0.brokerageData == map[]
  {
    assert SingleFactory(env.factories, "UnknownBroker") == None;
  }

  /** The language is read when the queue is created: without an `algorithm-language`
      setting the queue cannot be created at all. */
  lemma MissingLanguageFailsAtCreation(cfg: Config)
    requires "algorithm-language" !in cfg
    ensures Create(cfg).Failure?
    ensures GetInt(cfg, "job-user-id", 0).Success? && GetInt(cfg, "job-project-id", 0).Success? &&
            GetBool(cfg, "live-mode").Success? ==>
              Create(cfg) == Failure(UnknownLanguage(""))
  {
  }
}
