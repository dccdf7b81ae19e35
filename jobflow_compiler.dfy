/** The basic jobflow compiler (`BasicJobflowCompiler`): the participant's
    `beforeJobflow` hook, the jobflow (operator graph) processor, the external port
    processor when there are external ports, and the `afterJobflow` hook, in this
    order. A processor's `IOException` becomes an ERROR diagnostic. What each tool does
    is given as its outcome; the run is recorded as the trace of stages entered. */
module JobflowCompiler {
  import opened Common

  datatype Stage = BeforeJobflow | OperatorGraph | ExternalPorts | AfterJobflow

  /** How a processor call ends: normally, with an `IOException`, or with another
      (unchecked) exception that passes through unchanged. */
  datatype ProcessorOutcome = Completed | IOFailure | Raised(error: Exception)

  /** The tools of the compiler context: the participant hooks may only throw unchecked
      exceptions, the processors may also fail with an `IOException`. */
  datatype Tools = Tools(
    beforeJobflow: Option<Exception>,
    jobflowProcessor: ProcessorOutcome,
    externalPortProcessor: ProcessorOutcome,
    afterJobflow: Option<Exception>)

  /** The compiler context: its tools and whether its external port container is empty. */
  datatype Context = Context(tools: Tools, externalPortsEmpty: bool)

  /** The jobflow, known by the binary name of its description class. */
  datatype Jobflow = Jobflow(descriptionClass: string)

  function OperatorGraphMessage(jobflow: Jobflow): string
  {
    "error occurred while processing operator graph (jobflow=" + jobflow.descriptionClass + ")"
  }

  function ExternalPortsMessage(jobflow: Jobflow): string
  {
    "error occurred while processing external I/Os (jobflow=" + jobflow.descriptionClass + ")"
  }

  /** The exception a processor call ends with, after the `IOException` conversion. */
  function Converted(outcome: ProcessorOutcome, message: string): (r: Option<Exception>)
    ensures r.None? <==> outcome.Completed?
    ensures outcome.IOFailure? ==> r == Some(Diagnose(Error, message))
    ensures outcome.Raised? ==> r == Some(outcome.error)
  {
    match outcome
    case Completed => None
    case IOFailure => Some(Diagnose(Error, message))
    case Raised(e) => Some(e)
  }

  /** The exception that ends `stage`, if it does not end normally. */
  function StageFailure(context: Context, jobflow: Jobflow, stage: Stage): Option<Exception>
  {
    match stage
    case BeforeJobflow => context.tools.beforeJobflow
    case OperatorGraph => Converted(context.tools.jobflowProcessor, OperatorGraphMessage(jobflow))
    case ExternalPorts => Converted(context.tools.externalPortProcessor, ExternalPortsMessage(jobflow))
    case AfterJobflow => context.tools.afterJobflow
  }

  /** The stages of a compilation that fails nowhere. */
  function Planned(context: Context): (r: seq<Stage>)
    ensures |r| >= 3 && r[0] == BeforeJobflow && r[|r| - 1] == AfterJobflow
    ensures ExternalPorts in r <==> !context.externalPortsEmpty
  {
    [BeforeJobflow, OperatorGraph] + (if context.externalPortsEmpty then [] else [ExternalPorts]) + [AfterJobflow]
  }

  /** `runOperatorGraphProcessor`: runs the jobflow processor once. */
  method RunOperatorGraphProcessor(context: Context, jobflow: Jobflow) returns (thrown: Option<Exception>)
    ensures thrown == StageFailure(context, jobflow, OperatorGraph)
  {
    var outcome := context.tools.jobflowProcessor;
    if outcome.IOFailure? {
      return Some(Diagnose(Error, OperatorGraphMessage(jobflow)));
    }
    thrown := if outcome.Raised? then Some(outcome.error) else None;
  }

  /** `runExternalPortProcessor`: nothing happens when there are no external ports. */
  method RunExternalPortProcessor(context: Context, jobflow: Jobflow) returns (ran: bool, thrown: Option<Exception>)
    ensures ran <==> !context.externalPortsEmpty
    ensures thrown == if ran then StageFailure(context, jobflow, ExternalPorts) else None
  {
    if context.externalPortsEmpty {
      return false, None;
    }
    var outcome := context.tools.externalPortProcessor;
    if outcome.IOFailure? {
      return true, Some(Diagnose(Error, ExternalPortsMessage(jobflow)));
    }
    ran, thrown := true, if outcome.Raised? then Some(outcome.error) else None;
  }

  /** `compile(context, batch, jobflow)`: `trace` lists the stages entered, in order, and
      `thrown` is the exception the compilation ends with. The stages run in the planned
      order up to and including the first one that fails; nothing runs after it. */
  method Compile(context: Context, jobflow: Jobflow) returns (trace: seq<Stage>, thrown: Option<Exception>)
    ensures 1 <= |trace| && trace <= Planned(context)
    ensures forall i | 0 <= i < |trace| - 1 :: StageFailure(context, jobflow, trace[i]).None?
    ensures thrown == StageFailure(context, jobflow, trace[|trace| - 1])
    ensures thrown.None? ==> trace == Planned(context)
  {
    trace := [BeforeJobflow];
    thrown := context.tools.beforeJobflow;
    if thrown.Some? {
      return;
    }
    trace := trace + [OperatorGraph];
    thrown := RunOperatorGraphProcessor(context, jobflow);
    if thrown.Some? {
      return;
    }
    var ran;
    ran, thrown := RunExternalPortProcessor(context, jobflow);
    if ran {
      trace := trace + [ExternalPorts];
    }
    if thrown.Some? {
      return;
    }
    trace := trace + [AfterJobflow];
    thrown := context.tools.afterJobflow;
  }

  /** A trace and outcome that meet the contract of `Compile`. */
  predicate IsRun(context: Context, jobflow: Jobflow, trace: seq<Stage>, thrown: Option<Exception>)
  {
    && 1 <= |trace| && trace <= Planned(context)
    && (forall i | 0 <= i < |trace| - 1 :: StageFailure(context, jobflow, trace[i]).None?)
    && thrown == StageFailure(context, jobflow, trace[|trace| - 1])
    && (thrown.None? ==> trace == Planned(context))
  }

  /** A run ends after the before hook when that fails, and otherwise goes on to the
      jobflow processor. */
  lemma RunStart(context: Context, jobflow: Jobflow, trace: seq<Stage>, thrown: Option<Exception>)
    requires IsRun(context, jobflow, trace, thrown)
    ensures context.tools.beforeJobflow.Some? ==> trace == [BeforeJobflow]
    ensures context.tools.beforeJobflow.None? ==> 2 <= |trace| && trace == [BeforeJobflow, OperatorGraph] + trace[2..]
  {
    var p := Planned(context);
    assert trace[0] == p[0];
    if context.tools.beforeJobflow.None? {
      assert trace[1] == p[1];
    }
  }

  /** The jobflow processor runs exactly once, right after the before hook, unless the
      before hook fails; then it does not run at all. */
  lemma OperatorGraphOnce(context: Context, jobflow: Jobflow, trace: seq<Stage>, thrown: Option<Exception>)
    requires IsRun(context, jobflow, trace, thrown)
    ensures context.tools.beforeJobflow.Some? ==> OperatorGraph !in trace
    ensures context.tools.beforeJobflow.None? ==>
      && trace[1] == OperatorGraph
      && forall i | 0 <= i < |trace| && i != 1 :: trace[i] != OperatorGraph
  {
    RunStart(context, jobflow, trace, thrown);
    var p := Planned(context);
    assert forall i | 0 <= i < |trace| :: trace[i] == p[i];
    assert forall i | 0 <= i < |p| && i != 1 :: p[i] != OperatorGraph;
  }

  /** The after hook runs exactly when every earlier planned stage completed. */
  lemma AfterRunsLast(context: Context, jobflow: Jobflow, trace: seq<Stage>, thrown: Option<Exception>)
    requires IsRun(context, jobflow, trace, thrown)
    ensures AfterJobflow in trace <==>
      forall i | 0 <= i < |Planned(context)| - 1 :: StageFailure(context, jobflow, Planned(context)[i]).None?
  {
    var p := Planned(context);
    assert AfterJobflow !in p[..|p| - 1];
    if AfterJobflow in trace {
      var k :| 0 <= k < |trace| && trace[k] == AfterJobflow;
      assert p[k] == AfterJobflow;
      assert k == |p| - 1;
      assert trace == p;
    }
    if forall i | 0 <= i < |p| - 1 :: StageFailure(context, jobflow, p[i]).None? {
      var last := |trace| - 1;
      assert trace[last] == p[last];
      assert trace == p;
    }
  }

  /** What every compilation does, stated for any trace and outcome that meet the
      contract of `Compile`. */
  lemma CompileLaws(context: Context, jobflow: Jobflow, trace: seq<Stage>, thrown: Option<Exception>)
    requires IsRun(context, jobflow, trace, thrown)
    // the jobflow processor runs exactly once, second, unless the before hook fails
    ensures context.tools.beforeJobflow.Some? ==> OperatorGraph !in trace
    ensures context.tools.beforeJobflow.None? ==>
      && trace[1] == OperatorGraph
      && forall i | 0 <= i < |trace| && i != 1 :: trace[i] != OperatorGraph
    // the external port processor never runs when there are no external ports
    ensures context.externalPortsEmpty ==> ExternalPorts !in trace
    // the after hook runs only when every earlier stage completed
    ensures AfterJobflow in trace <==> forall i | 0 <= i < |Planned(context)| - 1 :: StageFailure(context, jobflow, Planned(context)[i]).None?
    // a failing processor is reported as an ERROR naming the jobflow
    ensures thrown.Some? && trace[|trace| - 1] == OperatorGraph && context.tools.jobflowProcessor.IOFailure? ==>
      thrown == Some(Diagnose(Error, OperatorGraphMessage(jobflow)))
  {
    OperatorGraphOnce(context, jobflow, trace, thrown);
    AfterRunsLast(context, jobflow, trace, thrown);
    assert trace == Planned(context)[..|trace|];
  }
}
