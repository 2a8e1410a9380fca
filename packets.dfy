/** The job packets the queue hands to the engine: a live-trading node packet or a
    backtest node packet, which share the fields of every algorithm node packet. */
module Packets {
  import opened Outcomes
  import opened Configuration

  newtype byte = x: int | 0 <= x < 256

  /** The languages an algorithm can be written in. */
  datatype Language = CSharp | FSharp | VisualBasic | Java | Python

  /** The enumeration member's name, which is what `Enum.Parse` matches. */
  function LanguageName(l: Language): string {
    match l
    case CSharp => "CSharp"
    case FSharp => "FSharp"
    case VisualBasic => "VisualBasic"
    case Java => "Java"
    case Python => "Python"
  }

  /** The enumeration member's name in lower case. */
  function LowerName(l: Language): string {
    match l
    case CSharp => "csharp"
    case FSharp => "fsharp"
    case VisualBasic => "visualbasic"
    case Java => "java"
    case Python => "python"
  }

  lemma LowerNameIsLower(l: Language)
    ensures Lower(LanguageName(l)) == LowerName(l)
  {
    match l
    case CSharp => assert Lower("CSharp") == "csharp";
    case FSharp => assert Lower("FSharp") == "fsharp";
    case VisualBasic => assert Lower("VisualBasic") == "visualbasic";
    case Java => assert Lower("Java") == "java";
    case Python => assert Lower("Python") == "python";
  }

  /** `Enum.Parse(typeof(Language), s, ignoreCase: true)` for member names: the one
      language whose name equals `s` up to letter case, and nothing otherwise. */
  function ParseLanguage(s: string): (r: Option<Language>)
    ensures forall l :: r == Some(l) <==> EqualsIgnoreCase(s, LanguageName(l))
  {
    LowerNameIsLower(CSharp);
    LowerNameIsLower(FSharp);
    LowerNameIsLower(VisualBasic);
    LowerNameIsLower(Java);
    LowerNameIsLower(Python);
    var key := Lower(s);
    if key == "csharp" then Some(CSharp)
    else if key == "fsharp" then Some(FSharp)
    else if key == "visualbasic" then Some(VisualBasic)
    else if key == "java" then Some(Java)
    else if key == "python" then Some(Python)
    else None
  }

  /** Resource limits of one run. */
  datatype Controls = Controls(
    minuteLimit: int32,
    secondLimit: int32,
    tickLimit: int32,
    ramAllocation: int32,
    maximumDataPointsPerChartSeries: int32)

  /** The fields every algorithm node packet carries, whichever its kind. */
  datatype NodeFields = NodeFields(
    algorithm: seq<byte>,
    historyProvider: string,
    channel: string,
    userToken: string,
    userId: int32,
    projectId: int32,
    organizationId: string,
    version: string,
    language: Language,
    parameters: map<string, string>,
    controls: Controls)

  /** A job packet. Its kind plays the part of the packet's `Type` tag: a `LiveNode`
      value is a packet of type LiveNode, a `BacktestNode` value one of type BacktestNode.
      A backtest packet's `name` is the text passed as the fifth argument of the backtest
      packet's constructor; the other constructor arguments are not modelled. */
  datatype Packet =
    | LiveNode(
        node: NodeFields,
        deployId: string,
        brokerage: string,
        brokerageData: map<string, string>,
        dataQueueHandler: string,
        dataChannelProvider: string)
    | BacktestNode(
        node: NodeFields,
        backtestId: string,
        name: string)
}
