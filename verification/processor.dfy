/**
 * The processing machine: `idle`, `processing` (while the stamping task
 * runs), `completed` (final) and `error`. The task is external: its success
 * or failure arrives as an event tagged with the invocation it belongs to.
 * Leaving `processing` stops the running invocation, so a result that
 * arrives for it later is never applied.
 */
module Processor {
  import opened Wrappers
  import opened Documents
  import CM = ConfigManager

  datatype State = Idle | Processing | Completed | Error

  datatype Context = Context(
    progress: real,
    error: Option<string>,
    processedPdf: Option<Bytes>,
    file: Option<File>,
    config: Option<CM.Config>)

  /**
   * The machine's state and context, and the number of processing tasks
   * started so far; while `processing`, the running task is the latest one.
   */
  datatype Machine = Machine(state: State, ctx: Context, invocation: nat)

  datatype Event =
    | StartProcessing(file: File, config: CM.Config)
    | CancelProcessing
    | UpdateProgress(progress: real)
    | ProcessingError(error: string)
    | TaskDone(task: nat, output: Bytes)
    | TaskFailed(task: nat, reason: string)

  /** The machine as created: `idle`, progress 0, nothing stored, no task started. */
  function Initial(): (m: Machine)
    ensures m.state == Idle && m.invocation == 0
    ensures m.ctx.processedPdf.None? && m.ctx.file.None? && m.ctx.config.None?
    ensures Inv(m)
  {
    Machine(Idle, Context(0.0, None, None, None, None), 0)
  }

  /**
   * `setError`: the event's message when it is a `PROCESSING_ERROR`, null
   * otherwise. The only transition that runs it is the task's failure,
   * which is not a `PROCESSING_ERROR`.
   */
  function SetError(e: Event): (r: Option<string>)
    ensures e.TaskFailed? ==> r.None?
    ensures e.ProcessingError? ==> r == Some(e.error)
  {
    if e.ProcessingError? then Some(e.error) else None
  }

  /** Whether task `k` is the one running now. */
  predicate Live(m: Machine, k: nat) {
    m.state == Processing && k == m.invocation
  }

  function Step(m: Machine, e: Event): (r: Machine)
    ensures m.state == Completed ==> r == m
    ensures e.UpdateProgress? || e.ProcessingError? ==> r == m
    ensures (e.TaskDone? || e.TaskFailed?) && !Live(m, e.task) ==> r == m
    ensures e.CancelProcessing? ==> r == (if m.state == Processing then m.(state := Idle) else m)
    ensures m.state == Idle && e.StartProcessing? ==>
      r == Machine(Processing, m.ctx.(file := Some(e.file), config := Some(e.config)), m.invocation + 1)
    ensures m.state == Error && e.StartProcessing? ==> r == Machine(Processing, m.ctx, m.invocation + 1)
    ensures m.state == Processing && e.StartProcessing? ==> r == m
    ensures e.TaskDone? && Live(m, e.task) ==>
      r == Machine(Completed, m.ctx.(processedPdf := Some(e.output)), m.invocation)
    ensures e.TaskFailed? && Live(m, e.task) ==>
      r == Machine(Error, m.ctx.(error := None), m.invocation)
    ensures r.ctx.progress == m.ctx.progress
    ensures m.invocation <= r.invocation
  {
    match m.state
    case Idle =>
      if e.StartProcessing? then
        // saveFileAndConfig, then the processing task starts
        Machine(Processing, m.ctx.(file := Some(e.file), config := Some(e.config)), m.invocation + 1)
      else m
    case Processing =>
      (match e
      case TaskDone(k, output) =>
        // setProcessedPdf
        if k == m.invocation then Machine(Completed, m.ctx.(processedPdf := Some(output)), m.invocation) else m
      case TaskFailed(k, _) =>
        // setError
        if k == m.invocation then Machine(Error, m.ctx.(error := SetError(e)), m.invocation) else m
      case CancelProcessing => m.(state := Idle)
      case _ => m)
    case Completed => m
    case Error =>
      // no actions: the stored file and configuration are reused
      if e.StartProcessing? then Machine(Processing, m.ctx, m.invocation + 1) else m
  }

  function Run(m: Machine, es: seq<Event>): Machine
    decreases |es|
  {
    if es == [] then m else Run(Step(m, es[0]), es[1..])
  }

  // ---------------------------------------------------------------------------
  // Properties
  // ---------------------------------------------------------------------------

  /** What every reachable machine satisfies: progress stays 0 and no error is recorded. */
  predicate Inv(m: Machine) {
    && m.ctx.progress == 0.0
    && m.ctx.error.None?
    && (m.state != Idle ==> m.ctx.file.Some? && m.ctx.config.Some?)
    && (m.state == Completed ==> m.ctx.processedPdf.Some?)
  }

  lemma {:induction false} RunPreservesInv(m: Machine, es: seq<Event>)
    requires Inv(m)
    ensures Inv(Run(m, es))
    ensures Run(m, es).ctx.progress == 0.0 && Run(m, es).ctx.error.None?
    decreases |es|
  {
    if es != [] {
      RunPreservesInv(Step(m, es[0]), es[1..]);
    }
  }

  /** Every machine reachable from creation has progress 0 and a null error. */
  lemma ReachableInv(es: seq<Event>)
    ensures Inv(Run(Initial(), es))
    ensures Run(Initial(), es).ctx.progress == 0.0 && Run(Initial(), es).ctx.error.None?
  {
    RunPreservesInv(Initial(), es);
  }

  /** `completed` is final: no sequence of events changes the machine, its output included. */
  lemma {:induction false} CompletedIsFinal(m: Machine, es: seq<Event>)
    requires m.state == Completed
    ensures Run(m, es) == m
    decreases |es|
  {
    if es != [] {
      CompletedIsFinal(Step(m, es[0]), es[1..]);
    }
  }

  /** Task `k` has been started and is no longer running. */
  predicate Stopped(m: Machine, k: nat) {
    k <= m.invocation && !Live(m, k)
  }

  /** A stopped task never runs again, whatever happens next. */
  lemma {:induction false} StoppedStaysStopped(m: Machine, es: seq<Event>, k: nat)
    requires Stopped(m, k)
    ensures Stopped(Run(m, es), k)
    decreases |es|
  {
    if es != [] {
      StoppedStaysStopped(Step(m, es[0]), es[1..], k);
    }
  }

  /**
   * After a cancel, the cancelled task's result is never applied: at every
   * later point, its success or failure leaves the machine unchanged, even
   * once `processing` has been entered again.
   */
  lemma {:induction false} CancelledResultNeverApplied(m: Machine, es: seq<Event>, output: Bytes, reason: string)
    requires m.state == Processing
    ensures var later := Run(Step(m, CancelProcessing), es);
      && Step(later, TaskDone(m.invocation, output)) == later
      && Step(later, TaskFailed(m.invocation, reason)) == later
  {
    StoppedStaysStopped(Step(m, CancelProcessing), es, m.invocation);
  }

  /** Start, cancel, then the task resolves: back in `idle` with no output from that run. */
  lemma CancelThenLateResult(f: File, c: CM.Config, output: Bytes)
    ensures var m := Run(Initial(), [StartProcessing(f, c), CancelProcessing, TaskDone(1, output)]);
      m.state == Idle && m.ctx.processedPdf.None? && m.ctx.progress == 0.0
  {
    var es := [StartProcessing(f, c), CancelProcessing, TaskDone(1, output)];
    var m1 := Step(Initial(), es[0]);
    var m2 := Step(m1, es[1]);
    var m3 := Step(m2, es[2]);
    assert es[1..][1..][1..] == [];
    assert Run(Initial(), es) == Run(m1, es[1..]) == Run(m2, es[1..][1..]) == Run(m3, []);
  }

  /** A successful run stores the task's output exactly, and it stays so forever. */
  lemma {:induction false} OutputKeptAfterCompletion(m: Machine, output: Bytes, es: seq<Event>)
    requires m.state == Processing
    ensures var done := Step(m, TaskDone(m.invocation, output));
      && done.state == Completed
      && Run(done, es).ctx.processedPdf == Some(output)
  {
    CompletedIsFinal(Step(m, TaskDone(m.invocation, output)), es);
  }
}
