/** The local job queue: reads the process configuration and builds the single job
    packet, live or backtest, that the engine is to run, together with the location of
    the algorithm it runs. */
module Queues {
  import opened Outcomes
  import opened Configuration
  import opened Packets

  const PaperBrokerageTypeName := "PaperBrokerage"
  const DefaultHistoryProvider := "SubscriptionDataReaderHistoryProvider"
  const DefaultDataQueueHandler := "LiveDataQueue"
  const DefaultDataChannelProvider := "DataChannelProvider"
  const DefaultAlgorithmLocation := "QuantConnect.Algorithm.CSharp.dll"
  /** The fifth constructor argument of the backtest packet. */
  const LocalBacktestName := "local"
  const DefaultSymbolLimit: int32 := 10000
  const DefaultMaximumDataPointsPerChartSeries: int32 := 4000

  /** A registered brokerage factory: the type name of the brokerage it builds and the
      brokerage data it supplies for a live job. */
  datatype BrokerageFactory = BrokerageFactory(brokerageType: string, brokerageData: map<string, string>)

  /** What the job queue consults outside itself: the file system, the JSON reader, the
      registry of brokerage factories and the engine's version tag. */
  datatype Environment = Environment(
    fileExists: string -> bool,
    readAllBytes: string -> Option<seq<byte>>,
    deserializeParameters: string -> Option<map<string, string>>,
    directoryFullName: string -> string,
    factories: seq<BrokerageFactory>,
    version: string)

  // ---------------------------------------------------------------------------
  // The brokerage registry

  /** Factory `i` is the one and only factory whose brokerage type is `brokerage`. */
  ghost predicate UniqueMatchAt(factories: seq<BrokerageFactory>, brokerage: string, i: int) {
    && 0 <= i < |factories|
    && factories[i].brokerageType == brokerage
    && forall j :: 0 <= j < |factories| && factories[j].brokerageType == brokerage ==> j == i
  }

  /** Dropping a first factory that does not match shifts the unique match down by one. */
  lemma UniqueMatchShift(factories: seq<BrokerageFactory>, brokerage: string)
    requires factories != [] && factories[0].brokerageType != brokerage
    ensures forall i :: UniqueMatchAt(factories, brokerage, i) ==> UniqueMatchAt(factories[1..], brokerage, i - 1)
    ensures forall k :: UniqueMatchAt(factories[1..], brokerage, k) ==> UniqueMatchAt(factories, brokerage, k + 1)
  {
  }

  /** `Enumerable.Single` over the registry with the predicate "builds this brokerage":
      the factory when exactly one matches, and nothing (the exception) when none or
      several do. */
  function SingleFactory(factories: seq<BrokerageFactory>, brokerage: string): (r: Option<BrokerageFactory>)
    ensures r.Some? <==> exists i :: UniqueMatchAt(factories, brokerage, i)
    ensures forall i :: UniqueMatchAt(factories, brokerage, i) ==> r == Some(factories[i])
  {
    if factories == [] then None
    else if factories[0].brokerageType == brokerage then
      if forall j :: 1 <= j < |factories| ==> factories[j].brokerageType != brokerage then
        assert UniqueMatchAt(factories, brokerage, 0);
        Some(factories[0])
      else
        None
    else
      UniqueMatchShift(factories, brokerage);
      SingleFactory(factories[1..], brokerage)
  }

  // ---------------------------------------------------------------------------
  // The process-wide Python path list

  /** The directories added to the Python import path during this process. */
  class PythonPaths {
    var directories: set<string>

    constructor ()
      ensures directories == {}
    {
      directories := {};
    }

    /** `PythonInitializer.AddPythonPaths`: every given directory is on the path afterwards. */
    method AddPythonPaths(paths: seq<string>)
      modifies this
      ensures directories == old(directories) + set p | p in paths
    {
      directories := directories + set p | p in paths;
    }
  }

  // ---------------------------------------------------------------------------
  // The job queue

  /** The settings the job queue reads once, when it is created. */
  datatype JobQueue = JobQueue(
    liveMode: bool,
    accessToken: string,
    organizationId: string,
    userId: int32,
    projectId: int32,
    algorithmTypeName: string,
    language: Language)
  {
    /** Where the algorithm is: the configured location, or the compiled C# library. */
    function AlgorithmLocation(cfg: Config): (r: string)
      ensures "algorithm-location" in cfg ==> r == cfg["algorithm-location"]
      ensures "algorithm-location" !in cfg ==> r == "QuantConnect.Algorithm.CSharp.dll"
    {
      Get(cfg, "algorithm-location", DefaultAlgorithmLocation)
    }

    /** The value `GetAlgorithmLocation` returns or the exception it throws. */
    function LocateAlgorithm(cfg: Config, env: Environment): (r: Result<string>)
      ensures r.Failure? <==> language == Python && !env.fileExists(AlgorithmLocation(cfg))
      ensures r.Failure? ==> r.error == FileNotFound(AlgorithmLocation(cfg))
      ensures r.Success? ==> r.value == AlgorithmLocation(cfg)
    {
      if language == Python && !env.fileExists(AlgorithmLocation(cfg)) then
        Failure(FileNotFound(AlgorithmLocation(cfg)))
      else
        Success(AlgorithmLocation(cfg))
    }

    /** The directories `GetAlgorithmLocation` adds to the Python path. */
    function RegisteredDirectories(cfg: Config, env: Environment): (r: set<string>)
      ensures r != {} <==> language == Python && LocateAlgorithm(cfg, env).Success?
      ensures r != {} ==> r == {env.directoryFullName(AlgorithmLocation(cfg))}
    {
      if language == Python && env.fileExists(AlgorithmLocation(cfg)) then
        {env.directoryFullName(AlgorithmLocation(cfg))}
      else
        {}
    }

    /** A Python algorithm must exist on disk, and its directory joins the Python path;
        an algorithm in any other language is taken at its location unchecked. */
    method GetAlgorithmLocation(cfg: Config, env: Environment, paths: PythonPaths) returns (r: Result<string>)
      modifies paths
      ensures r == LocateAlgorithm(cfg, env)
      ensures paths.directories == old(paths.directories) + RegisteredDirectories(cfg, env)
    {
      if language == Python {
        if !env.fileExists(AlgorithmLocation(cfg)) {
          return Failure(FileNotFound(AlgorithmLocation(cfg)));
        }
        var pythonDirectory := env.directoryFullName(AlgorithmLocation(cfg));
        paths.AddPythonPaths([pythonDirectory]);
        assert (set p | p in [pythonDirectory]) == {pythonDirectory};
      }
      return Success(AlgorithmLocation(cfg));
    }

    /** The run parameters: none for an empty setting, otherwise the deserialized map. */
    function ReadParameters(cfg: Config, env: Environment): (r: Result<map<string, string>>)
      ensures Get(cfg, "parameters", "") == "" ==> r == Success(map[])
      ensures Get(cfg, "parameters", "") != "" ==>
                && (r.Success? <==> env.deserializeParameters(cfg["parameters"]).Some?)
                && (r.Success? ==> env.deserializeParameters(cfg["parameters"]) == Some(r.value))
      ensures r.Failure? ==> r.error == InvalidParameters(cfg["parameters"])
    {
      var text := Get(cfg, "parameters", "");
      if text == "" then Success(map[])
      else match env.deserializeParameters(text)
        case Some(parameters) => Success(parameters)
        case None => Failure(InvalidParameters(text))
    }

    /** The resource limits, read in the order the source reads them. */
    function ReadControls(cfg: Config): (r: Result<Controls>)
      ensures r.Success? <==>
                && IsInt32Setting(cfg, "symbol-minute-limit")
                && IsInt32Setting(cfg, "symbol-second-limit")
                && IsInt32Setting(cfg, "symbol-tick-limit")
                && IsInt32Setting(cfg, "maximum-data-points-per-chart-series")
      ensures r.Success? ==>
                && GetInt(cfg, "symbol-minute-limit", 10000) == Success(r.value.minuteLimit)
                && GetInt(cfg, "symbol-second-limit", 10000) == Success(r.value.secondLimit)
                && GetInt(cfg, "symbol-tick-limit", 10000) == Success(r.value.tickLimit)
                && GetInt(cfg, "maximum-data-points-per-chart-series", 4000) ==
                     Success(r.value.maximumDataPointsPerChartSeries)
                && r.value.ramAllocation == Int32MaxValue
      ensures !IsInt32Setting(cfg, "symbol-minute-limit") ==>
                r == Failure(InvalidConfigValue("symbol-minute-limit", cfg["symbol-minute-limit"]))
      ensures IsInt32Setting(cfg, "symbol-minute-limit") && !IsInt32Setting(cfg, "symbol-second-limit") ==>
                r == Failure(InvalidConfigValue("symbol-second-limit", cfg["symbol-second-limit"]))
      ensures IsInt32Setting(cfg, "symbol-minute-limit") && IsInt32Setting(cfg, "symbol-second-limit") &&
              !IsInt32Setting(cfg, "symbol-tick-limit") ==>
                r == Failure(InvalidConfigValue("symbol-tick-limit", cfg["symbol-tick-limit"]))
      ensures IsInt32Setting(cfg, "symbol-minute-limit") && IsInt32Setting(cfg, "symbol-second-limit") &&
              IsInt32Setting(cfg, "symbol-tick-limit") &&
              !IsInt32Setting(cfg, "maximum-data-points-per-chart-series") ==>
                r == Failure(InvalidConfigValue("maximum-data-points-per-chart-series",
                                                cfg["maximum-data-points-per-chart-series"]))
    {
      var minuteLimit :- GetInt(cfg, "symbol-minute-limit", DefaultSymbolLimit);
      var secondLimit :- GetInt(cfg, "symbol-second-limit", DefaultSymbolLimit);
      var tickLimit :- GetInt(cfg, "symbol-tick-limit", DefaultSymbolLimit);
      var chartPoints :- GetInt(cfg, "maximum-data-points-per-chart-series", DefaultMaximumDataPointsPerChartSeries);
      Success(Controls(minuteLimit, secondLimit, tickLimit, Int32MaxValue, chartPoints))
    }

    /** `File.ReadAllBytes(AlgorithmLocation)`. */
    function ReadAlgorithm(cfg: Config, env: Environment): (r: Result<seq<byte>>)
      ensures r.Success? <==> env.readAllBytes(AlgorithmLocation(cfg)).Some?
      ensures r.Success? ==> env.readAllBytes(AlgorithmLocation(cfg)) == Some(r.value)
      ensures r.Failure? ==> r.error == ReadFailure(AlgorithmLocation(cfg))
    {
      match env.readAllBytes(AlgorithmLocation(cfg))
      case Some(bytes) => Success(bytes)
      case None => Failure(ReadFailure(AlgorithmLocation(cfg)))
    }

    /** The brokerage data of the one factory for `brokerage`, or the packet's initial
        empty map when the lookup throws. */
    function BrokerageDataFor(env: Environment, brokerage: string): (r: map<string, string>)
      ensures forall i :: UniqueMatchAt(env.factories, brokerage, i) ==> r == env.factories[i].brokerageData
      ensures (forall i :: !UniqueMatchAt(env.factories, brokerage, i)) ==> r == map[]
    {
      match SingleFactory(env.factories, brokerage)
      case Some(factory) => factory.brokerageData
      case None => map[]
    }

    /** The packet and location `NextJob` returns, or the exception it throws. */
    function NextJobResult(cfg: Config, env: Environment): (r: Result<(Packet, string)>)
      ensures r.Success? ==> r.value.1 == AlgorithmLocation(cfg)
      ensures r.Success? ==> (r.value.0.LiveNode? <==> liveMode)
      ensures r.Success? ==> r.value.0.node.controls.ramAllocation == Int32MaxValue
      ensures language == Python && !env.fileExists(AlgorithmLocation(cfg)) ==>
                r == Failure(FileNotFound(AlgorithmLocation(cfg)))
      ensures LocateAlgorithm(cfg, env).Success? && ReadParameters(cfg, env).Failure? ==>
                r == Failure(ReadParameters(cfg, env).error)
      ensures LocateAlgorithm(cfg, env).Success? && ReadParameters(cfg, env).Success? &&
              ReadControls(cfg).Failure? ==>
                r == Failure(ReadControls(cfg).error)
      ensures LocateAlgorithm(cfg, env).Success? && ReadParameters(cfg, env).Success? &&
              ReadControls(cfg).Success? && env.readAllBytes(AlgorithmLocation(cfg)).None? ==>
                r == Failure(ReadFailure(AlgorithmLocation(cfg)))
    {
      var location :- LocateAlgorithm(cfg, env);
      var parameters :- ReadParameters(cfg, env);
      var controls :- ReadControls(cfg);
      var algorithmId := Get(cfg, "algorithm-id", algorithmTypeName);
      var algorithm :- ReadAlgorithm(cfg, env);
      var node := NodeFields(
        algorithm, Get(cfg, "history-provider", DefaultHistoryProvider),
        accessToken, accessToken, userId, projectId, organizationId,
        env.version, language, parameters, controls);
      if liveMode then
        var brokerage := Get(cfg, "live-mode-brokerage", PaperBrokerageTypeName);
        Success((LiveNode(
          node, algorithmId, brokerage, BrokerageDataFor(env, brokerage),
          Get(cfg, "data-queue-handler", DefaultDataQueueHandler),
          Get(cfg, "data-channel-provider", DefaultDataChannelProvider)), location))
      else
        Success((BacktestNode(node, algorithmId, LocalBacktestName), location))
    }

    /** Builds the next job: locates the algorithm, reads the run parameters and the
        resource limits, and returns a live packet in live mode and a backtest packet
        otherwise. A failed brokerage lookup leaves the live packet's brokerage data
        empty instead of failing the job. */
    method NextJob(cfg: Config, env: Environment, paths: PythonPaths) returns (r: Result<(Packet, string)>)
      modifies paths
      ensures r == NextJobResult(cfg, env)
      ensures paths.directories == old(paths.directories) + RegisteredDirectories(cfg, env)
    {
      var location :- GetAlgorithmLocation(cfg, env, paths);

      var parameters: map<string, string> := map[];
      var parametersConfigString := Get(cfg, "parameters", "");
      if parametersConfigString != "" {
        var parsed := env.deserializeParameters(parametersConfigString);
        if parsed.None? {
          return Failure(InvalidParameters(parametersConfigString));
        }
        parameters := parsed.value;
      }

      var controls :- ReadControls(cfg);
      var algorithmId := Get(cfg, "algorithm-id", algorithmTypeName);
      var algorithm :- ReadAlgorithm(cfg, env);
      var node := NodeFields(
        algorithm, Get(cfg, "history-provider", DefaultHistoryProvider),
        accessToken, accessToken, userId, projectId, organizationId,
        env.version, language, parameters, controls);

      if liveMode {
        var liveJob := LiveNode(
          node, algorithmId, Get(cfg, "live-mode-brokerage", PaperBrokerageTypeName), map[],
          Get(cfg, "data-queue-handler", DefaultDataQueueHandler),
          Get(cfg, "data-channel-provider", DefaultDataChannelProvider));
        var brokerageFactory := SingleFactory(env.factories, liveJob.brokerage);
        if brokerageFactory.Some? {
          liveJob := liveJob.(brokerageData := brokerageFactory.value.brokerageData);
        }
        return Success((liveJob, location));
      }

      var backtestJob := BacktestNode(node, algorithmId, LocalBacktestName);
      return Success((backtestJob, location));
    }
  }

  /** Creating the job queue: the settings its fields are initialised with. The model
      reads the static fields (the ids) first, then the instance fields in the order they
      are declared; an unknown language fails here, before any job is requested. */
  function Create(cfg: Config): (r: Result<JobQueue>)
    ensures r.Success? <==>
              && IsInt32Setting(cfg, "job-user-id")
              && IsInt32Setting(cfg, "job-project-id")
              && ("live-mode" !in cfg || ParseBool(cfg["live-mode"]).Some?)
              && ParseLanguage(Get(cfg, "algorithm-language", "")).Some?
    ensures r.Success? ==>
              && "algorithm-language" in cfg
              && EqualsIgnoreCase(cfg["algorithm-language"], LanguageName(r.value.language))
    ensures r.Success? && "live-mode" !in cfg ==> !r.value.liveMode
    ensures r.Success? && "live-mode" in cfg ==> ParseBool(cfg["live-mode"]) == Some(r.value.liveMode)
    ensures r.Success? ==>
              && r.value.algorithmTypeName == Get(cfg, "algorithm-type-name", "")
              && r.value.organizationId == Get(cfg, "job-organization-id", "")
              && r.value.accessToken == Get(cfg, "api-access-token", "")
    ensures r.Success? && "job-user-id" !in cfg ==> r.value.userId == 0
    ensures r.Success? && "job-project-id" !in cfg ==> r.value.projectId == 0
    ensures r.Success? && "job-user-id" in cfg ==> ParseInt32(cfg["job-user-id"]) == Some(r.value.userId)
    ensures r.Success? && "job-project-id" in cfg ==> ParseInt32(cfg["job-project-id"]) == Some(r.value.projectId)
    ensures !IsInt32Setting(cfg, "job-user-id") ==>
              r == Failure(InvalidConfigValue("job-user-id", cfg["job-user-id"]))
    ensures IsInt32Setting(cfg, "job-user-id") && !IsInt32Setting(cfg, "job-project-id") ==>
              r == Failure(InvalidConfigValue("job-project-id", cfg["job-project-id"]))
    ensures IsInt32Setting(cfg, "job-user-id") && IsInt32Setting(cfg, "job-project-id") &&
            "live-mode" in cfg && ParseBool(cfg["live-mode"]).None? ==>
              r == Failure(InvalidConfigValue("live-mode", cfg["live-mode"]))
    ensures GetInt(cfg, "job-user-id", 0).Success? && GetInt(cfg, "job-project-id", 0).Success? &&
            GetBool(cfg, "live-mode").Success? &&
            ParseLanguage(Get(cfg, "algorithm-language", "")).None? ==>
              r == Failure(UnknownLanguage(Get(cfg, "algorithm-language", "")))
  {
    var userId :- GetInt(cfg, "job-user-id", 0);
    var projectId :- GetInt(cfg, "job-project-id", 0);
    var liveMode :- GetBool(cfg, "live-mode");
    var languageText := Get(cfg, "algorithm-language", "");
    var language :- match ParseLanguage(languageText)
      case Some(l) => Success(l)
      case None => Failure(UnknownLanguage(languageText));
    Success(JobQueue(
      liveMode, Get(cfg, "api-access-token", ""), Get(cfg, "job-organization-id", ""),
      userId, projectId, Get(cfg, "algorithm-type-name", ""), language))
  }
}
