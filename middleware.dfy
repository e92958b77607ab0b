/**
 * The middleware collection: the fixed, ordered stage vocabulary and the
 * listeners registered to each stage. Running a stage runs its listeners
 * one after another on the facade's response; the first listener that
 * throws ends the stage with its error.
 */
module Middleware {
  import opened Wrappers
  import opened Plugins

  /** The pipeline stages plugins can hook into. */
  datatype Stage =
    | Request
    | InterpretationAsr
    | InterpretationNlu
    | DialogContext
    | DialogLogic
    | ResponseOutput
    | ResponseTts
    | Response

  /** A stage's wire-level name, the string plugins register under. */
  function Name(stage: Stage): string {
    match stage
    case Request => "request"
    case InterpretationAsr => "interpretation.asr"
    case InterpretationNlu => "interpretation.nlu"
    case DialogContext => "dialog.context"
    case DialogLogic => "dialog.logic"
    case ResponseOutput => "response.output"
    case ResponseTts => "response.tts"
    case Response => "response"
  }

  /** The stage a name denotes, if any. */
  function StageNamed(name: string): (stage: Option<Stage>)
    ensures stage.Some? ==> Name(stage.value) == name
  {
    if name == "request" then Some(Request)
    else if name == "interpretation.asr" then Some(InterpretationAsr)
    else if name == "interpretation.nlu" then Some(InterpretationNlu)
    else if name == "dialog.context" then Some(DialogContext)
    else if name == "dialog.logic" then Some(DialogLogic)
    else if name == "response.output" then Some(ResponseOutput)
    else if name == "response.tts" then Some(ResponseTts)
    else if name == "response" then Some(Response)
    else None
  }

  /** Every stage is found under its own name, so no two stages share a name. */
  lemma StageNamedName(stage: Stage)
    ensures StageNamed(Name(stage)) == Some(stage)
  {
    match stage
    case Request =>
    case InterpretationAsr =>
      assert Name(stage)[0] != "request"[0];
    case InterpretationNlu =>
      assert Name(stage)[0] != "request"[0];
      assert Name(stage)[15] != "interpretation.asr"[15];
    case DialogContext =>
      assert Name(stage)[0] != "request"[0] && Name(stage)[0] != "interpretation.asr"[0];
    case DialogLogic =>
      assert Name(stage)[0] != "request"[0] && Name(stage)[0] != "interpretation.asr"[0];
      assert Name(stage)[7] != "dialog.context"[7];
    case ResponseOutput =>
      assert Name(stage)[2] != "request"[2];
      assert Name(stage)[0] != "interpretation.asr"[0] && Name(stage)[0] != "dialog.context"[0];
    case ResponseTts =>
      assert Name(stage)[2] != "request"[2];
      assert Name(stage)[0] != "interpretation.asr"[0] && Name(stage)[0] != "dialog.context"[0];
      assert Name(stage)[9] != "response.output"[9];
    case Response =>
      assert Name(stage)[2] != "request"[2];
      assert Name(stage)[0] != "interpretation.asr"[0] && Name(stage)[0] != "dialog.context"[0];
      assert |Name(stage)| != |"response.output"| && |Name(stage)| != |"response.tts"|;
  }

  /** The stages of an App's collection, in the only order they run. */
  const Stages: seq<Stage> := [
    Request, InterpretationAsr, InterpretationNlu, DialogContext,
    DialogLogic, ResponseOutput, ResponseTts, Response
  ]

  /** The collection's stage names, in order, are exactly the eight wire names. */
  lemma StageNamesInOrder()
    ensures seq(|Stages|, i requires 0 <= i < |Stages| => Name(Stages[i])) ==
      ["request", "interpretation.asr", "interpretation.nlu", "dialog.context",
       "dialog.logic", "response.output", "response.tts", "response"]
  {
  }

  /** Where a stage stands in the pipeline order. */
  function Position(stage: Stage): nat {
    match stage
    case Request => 0
    case InterpretationAsr => 1
    case InterpretationNlu => 2
    case DialogContext => 3
    case DialogLogic => 4
    case ResponseOutput => 5
    case ResponseTts => 6
    case Response => 7
  }

  /** The stage at `position` in the pipeline order. */
  function StageAt(position: nat): Stage
    requires position < 8
  {
    match position
    case 0 => Request
    case 1 => InterpretationAsr
    case 2 => InterpretationNlu
    case 3 => DialogContext
    case 4 => DialogLogic
    case 5 => ResponseOutput
    case 6 => ResponseTts
    case _ => Response
  }

  /**
   * The collection holds each stage exactly once, at its position: the
   * eight stages are distinct and every stage is among them.
   */
  lemma StagesInOrder()
    ensures |Stages| == 8
    ensures forall i :: 0 <= i < 8 ==> Stages[i] == StageAt(i) && Position(StageAt(i)) == i
    ensures forall s: Stage :: Position(s) < 8 && StageAt(Position(s)) == s
  {
  }

  /** What a listener (or a whole stage) leaves behind: a response, or a thrown error. */
  datatype Outcome = Done(response: JovoResponse) | Threw(message: string)

  /** A stage listener, seen through its effect on the facade's response. */
  type Listener = JovoResponse -> Outcome

  /** One `run` call as the collection records it: the stage and the facade passed, if any. */
  datatype Call = Call(stage: Stage, facade: Jovo?)

  /** The calls recorded by running the stages at positions `lo` up to (excluding) `hi` with `facade`. */
  ghost function StageCalls(lo: nat, hi: nat, facade: Jovo?): (calls: seq<Call>)
    requires lo <= hi <= 8
    ensures |calls| == hi - lo
    decreases hi - lo
  {
    if lo == hi then [] else StageCalls(lo, hi - 1, facade) + [Call(StageAt(hi - 1), facade)]
  }

  /** The i-th recorded call runs the stage at position `lo + i`, with `facade`. */
  lemma {:induction false} StageCallsAt(lo: nat, hi: nat, facade: Jovo?)
    requires lo <= hi <= 8
    ensures forall i :: 0 <= i < hi - lo ==> StageCalls(lo, hi, facade)[i] == Call(StageAt(lo + i), facade)
    decreases hi - lo
  {
    if lo < hi {
      StageCallsAt(lo, hi - 1, facade);
    }
  }

  /** Every stage is one of the collection's stages. */
  lemma EveryStageListed()
    ensures forall s: Stage :: s in Stages
  {
    StagesInOrder();
    forall s: Stage ensures s in Stages {
      assert Stages[Position(s)] == s;
    }
  }

  /** The listeners of one stage, run in registration order, each on its predecessor's response. */
  function RunListeners(listeners: seq<Listener>, response: JovoResponse): Outcome
    decreases |listeners|
  {
    if listeners == [] then Done(response)
    else
      match listeners[0](response)
      case Threw(message) => Threw(message)
      case Done(next) => RunListeners(listeners[1..], next)
  }

  /** Every stage has a listener list. */
  ghost predicate Total(listeners: map<Stage, seq<Listener>>) {
    forall s: Stage :: s in listeners
  }

  /** The result of running several stages: how many ran, and how the last one ended. */
  datatype StagesRun = StagesRun(ran: nat, outcome: Outcome)

  /**
   * The stages at positions `lo` up to (excluding) `hi`, run in order from
   * `response`; a stage that throws ends the run, so the stages after it do
   * not run.
   */
  function RunStages(listeners: map<Stage, seq<Listener>>, lo: nat, hi: nat, response: JovoResponse): (s: StagesRun)
    requires Total(listeners) && lo <= hi <= 8
    ensures s.ran <= hi - lo
    ensures s.outcome.Done? ==> s.ran == hi - lo
    ensures s.outcome.Threw? ==> 1 <= s.ran
    decreases hi - lo
  {
    if lo == hi then StagesRun(0, Done(response))
    else
      match RunListeners(listeners[StageAt(lo)], response)
      case Threw(message) => StagesRun(1, Threw(message))
      case Done(next) =>
        var rest := RunStages(listeners, lo + 1, hi, next);
        StagesRun(rest.ran + 1, rest.outcome)
  }

  /**
   * When a run of stages throws, the stage that ran last is the one that
   * threw: every stage before it completed, and its listeners, given the
   * response those stages produced, throw the reported error.
   */
  lemma {:induction false} RunStagesThrower(listeners: map<Stage, seq<Listener>>, lo: nat, hi: nat, response: JovoResponse)
    requires Total(listeners) && lo <= hi <= 8
    requires RunStages(listeners, lo, hi, response).outcome.Threw?
    ensures var s := RunStages(listeners, lo, hi, response);
      var before := RunStages(listeners, lo, lo + s.ran - 1, response);
      before.outcome.Done? &&
      RunListeners(listeners[StageAt(lo + s.ran - 1)], before.outcome.response) == s.outcome
    decreases hi - lo
  {
    match RunListeners(listeners[StageAt(lo)], response)
    case Threw(message) =>
    case Done(next) =>
      RunStagesThrower(listeners, lo + 1, hi, next);
  }

  /**
   * Running the stages `lo` to `hi` is running `lo` to `mid` and, if they
   * all complete, `mid` to `hi` from the response they leave.
   */
  lemma {:induction false} RunStagesSplit(listeners: map<Stage, seq<Listener>>, lo: nat, mid: nat, hi: nat, response: JovoResponse)
    requires Total(listeners) && lo <= mid <= hi <= 8
    ensures var first := RunStages(listeners, lo, mid, response);
      RunStages(listeners, lo, hi, response) ==
        if first.outcome.Threw? then first
        else var rest := RunStages(listeners, mid, hi, first.outcome.response);
          StagesRun(first.ran + rest.ran, rest.outcome)
    decreases mid - lo
  {
    if lo < mid {
      match RunListeners(listeners[StageAt(lo)], response)
      case Threw(_) =>
      case Done(next) =>
        RunStagesSplit(listeners, lo + 1, mid, hi, next);
    }
  }

  /** Stages with no listeners pass the response through unchanged. */
  lemma {:induction false} RunStagesWithoutListeners(listeners: map<Stage, seq<Listener>>, lo: nat, hi: nat, response: JovoResponse)
    requires Total(listeners) && lo <= hi <= 8
    requires forall i :: lo <= i < hi ==> listeners[StageAt(i)] == []
    ensures RunStages(listeners, lo, hi, response) == StagesRun(hi - lo, Done(response))
    decreases hi - lo
  {
    if lo < hi {
      RunStagesWithoutListeners(listeners, lo + 1, hi, response);
    }
  }

  /**
   * An App's middleware collection. `stageNames` is fixed at construction;
   * `trace` records, in order, every stage `Run` was asked to run.
   */
  class MiddlewareCollection {
    const stageNames: seq<Stage>
    var listeners: map<Stage, seq<Listener>>
    ghost var trace: seq<Call>

    /** Exactly the declared stages have listener lists. */
    ghost predicate Valid()
      reads this
    {
      forall n :: n in listeners <==> n in stageNames
    }

    /** A collection over `names` with no listeners yet and nothing run. */
    constructor (names: seq<Stage>)
      ensures Valid()
      ensures stageNames == names && trace == []
      ensures forall n :: n in names ==> listeners[n] == []
    {
      stageNames := names;
      listeners := map n | n in names :: [];
      trace := [];
    }

    /** A fresh collection with the same stages and listeners as `other` and an empty trace. */
    constructor Copy(other: MiddlewareCollection)
      ensures stageNames == other.stageNames && listeners == other.listeners && trace == []
    {
      stageNames := other.stageNames;
      listeners := other.listeners;
      trace := [];
    }

    /**
     * Runs `stage` with the facade `facade` (`null` before a facade exists,
     * in which case listeners see no response and their output is dropped).
     * Records the call; on success the facade holds the stage's response,
     * on a throw the listener's error is returned.
     */
    method Run(stage: Stage, facade: Jovo?) returns (error: Option<string>)
      requires stage in listeners
      modifies this`trace, facade
      ensures trace == old(trace) + [Call(stage, facade)]
      ensures var outcome := RunListeners(listeners[stage], if facade == null then None else old(facade.response));
        && (error.None? <==> outcome.Done?)
        && (outcome.Threw? ==> error == Some(outcome.message))
        && (facade != null && outcome.Done? ==> facade.response == outcome.response)
    {
      trace := trace + [Call(stage, facade)];
      var outcome := RunListeners(listeners[stage], if facade == null then None else facade.response);
      match outcome
      case Threw(message) =>
        error := Some(message);
      case Done(response) =>
        error := None;
        if facade != null {
          facade.response := response;
        }
    }
  }
}
