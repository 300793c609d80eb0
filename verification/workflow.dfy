/**
 * The orchestrator together with its two spawned children, as one system.
 *
 * An event sent to the orchestrator is handled in three phases, in the order
 * the runtime executes them: the orchestrator's `on` transition and its
 * actions; delivery of the messages those actions sent, in order, each child
 * handling its own messages at once; and the eventless pass, whose guards
 * read the children's snapshots after delivery.
 *
 * The file-manager child's reaction to `UPLOAD_FILE` is a parameter. The
 * child may also change state on its own (its machine is not part of this
 * model); such a change does not wake the orchestrator, whose guards are
 * re-read only when it next handles an event.
 */
module Workflow {
  import opened Wrappers
  import opened Documents
  import CM = ConfigManager
  import FM = FileManager
  import O = Orchestrator

  datatype System = System(
    state: O.State,
    ctx: O.Context,
    fileManager: FM.Status,
    configManager: CM.Machine)

  datatype Input =
    | Send(event: O.Event)
    | FileManagerMoved(status: FM.Status)

  /** The system just after the orchestrator has spawned both children. */
  function Init(): (sys: System)
    ensures sys.state == O.Idle && sys.ctx.file.None? && sys.ctx.error.None?
    ensures sys.ctx.fileManager.Some? && sys.ctx.configManager.Some?
    ensures sys.fileManager.Idle? && sys.configManager == CM.Initial()
    ensures Inv(sys)
  {
    System(O.Idle, O.InitialContext(), FM.Idle, CM.Initial())
  }

  /** Hands each message to its child, in the order they were sent. */
  function Deliver(fm: FM.Status, cm: CM.Machine, msgs: seq<O.Message>, react: FM.Reaction)
    : (FM.Status, CM.Machine)
    decreases |msgs|
  {
    if msgs == [] then (fm, cm)
    else
      match msgs[0]
      case ToFileManager(e) => Deliver(react(fm, e), cm, msgs[1..], react)
      case ToConfigManager(e) => Deliver(fm, CM.Step(cm, e), msgs[1..], react)
  }

  /** One input handled by the whole system. */
  function Step(sys: System, input: Input, react: FM.Reaction): (r: System)
    ensures r.ctx.fileManager == sys.ctx.fileManager && r.ctx.configManager == sys.ctx.configManager
    ensures input.FileManagerMoved? ==> r == sys.(fileManager := input.status)
    ensures input.Send? ==>
      O.Eventless(r.state, O.IsFileReady(r.ctx, r.fileManager), O.IsConfigReady(r.ctx, r.configManager.state)).None?
    ensures input.Send? && !O.Handles(sys.state, input.event) ==>
      r.ctx == sys.ctx && r.fileManager == sys.fileManager && r.configManager == sys.configManager
  {
    match input
    case FileManagerMoved(status) => sys.(fileManager := status)
    case Send(e) =>
      var o := O.Transition(sys.state, sys.ctx, e);
      var (fm, cm) := Deliver(sys.fileManager, sys.configManager, o.sent, react);
      var s := O.Settle(o.state, O.IsFileReady(o.ctx, fm), O.IsConfigReady(o.ctx, cm.state));
      System(s, o.ctx, fm, cm)
  }

  function Run(sys: System, inputs: seq<Input>, react: FM.Reaction): System
    decreases |inputs|
  {
    if inputs == [] then sys else Run(Step(sys, inputs[0], react), inputs[1..], react)
  }

  /**
   * What holds of every reachable system: the children's references are the
   * ones spawned at creation, no error is ever recorded, the orchestrator
   * never rests in `configuring`, and it holds a file exactly when it is
   * past `idle`.
   */
  predicate Inv(sys: System) {
    && sys.ctx.fileManager == O.InitialContext().fileManager
    && sys.ctx.configManager == O.InitialContext().configManager
    && sys.ctx.error.None?
    && sys.state != O.Configuring
    && (sys.state == O.Idle <==> sys.ctx.file.None?)
  }

  // ---------------------------------------------------------------------------
  // Delivery
  // ---------------------------------------------------------------------------

  /** Configuration events reach the configuration child in order and leave the file child alone. */
  lemma {:induction false} DeliverToConfig(fm: FM.Status, cm: CM.Machine, es: seq<CM.Event>, react: FM.Reaction)
    ensures Deliver(fm, cm, O.ToConfig(es), react) == (fm, CM.Run(cm, es))
    decreases |es|
  {
    var msgs := O.ToConfig(es);
    if es != [] {
      assert msgs[0] == O.ToConfigManager(es[0]);
      assert msgs[1..] == O.ToConfig(es[1..]);
      DeliverToConfig(fm, CM.Step(cm, es[0]), es[1..], react);
    }
  }

  // ---------------------------------------------------------------------------
  // Reference semantics of a configuration request
  // ---------------------------------------------------------------------------

  /** The value a request's position section supplies for a key. */
  function PositionOf(r: O.ConfigRequest, k: CM.Key): Option<CM.Value> {
    if r.position.Some? then CM.PositionEntry(r.position.value, k) else None
  }

  /** The value a request's appearance section supplies for a key. */
  function AppearanceOf(r: O.ConfigRequest, k: CM.Key): Option<CM.Value> {
    if r.appearance.Some? then CM.AppearanceEntry(r.appearance.value, k) else None
  }

  /** The value a request's numbering section supplies for a key. */
  function NumberingOf(r: O.ConfigRequest, k: CM.Key): Option<CM.Value> {
    if r.numbering.Some? then CM.NumberingEntry(r.numbering.value, k) else None
  }

  /** The value a request supplies for a key, taken from the section that owns the key. */
  function RequestEntry(r: O.ConfigRequest, k: CM.Key): Option<CM.Value> {
    if k in CM.PositionKeys then PositionOf(r, k)
    else if k in CM.AppearanceKeys then AppearanceOf(r, k)
    else NumberingOf(r, k)
  }

  /**
   * The configuration a request should produce: the defaults when `reset` is
   * set; otherwise every key the request supplies takes the supplied value
   * and every other key keeps its value.
   */
  predicate Applies(r: O.ConfigRequest, before: CM.Config, after: CM.Config) {
    if r.reset then after == CM.Defaults
    else forall k :: CM.Get(after, k) == RequestEntry(r, k).GetOr(CM.Get(before, k))
  }

  /** Sending the position part of a request merges that section; an empty part is no message. */
  lemma {:induction false} PositionPartMerges(cm: CM.Machine, r: O.ConfigRequest)
    ensures forall k :: CM.Get(CM.Run(cm, O.PositionPart(r.position)).ctx, k)
                        == PositionOf(r, k).GetOr(CM.Get(cm.ctx, k))
  {
    var part := O.PositionPart(r.position);
    if part != [] {
      assert CM.Run(cm, part) == CM.Step(cm, part[0]);
    } else {
      forall k ensures PositionOf(r, k).None? {
        if r.position.Some? {
          assert k !in CM.PositionKeysOf(r.position.value);
        }
      }
    }
  }

  /** Sending the appearance part of a request merges that section. */
  lemma {:induction false} AppearancePartMerges(cm: CM.Machine, r: O.ConfigRequest)
    ensures forall k :: CM.Get(CM.Run(cm, O.AppearancePart(r.appearance)).ctx, k)
                        == AppearanceOf(r, k).GetOr(CM.Get(cm.ctx, k))
  {
    var part := O.AppearancePart(r.appearance);
    if part != [] {
      assert CM.Run(cm, part) == CM.Step(cm, part[0]);
    } else {
      forall k ensures AppearanceOf(r, k).None? {
        if r.appearance.Some? {
          assert k !in CM.AppearanceKeysOf(r.appearance.value);
        }
      }
    }
  }

  /** Sending the numbering part of a request merges that section. */
  lemma {:induction false} NumberingPartMerges(cm: CM.Machine, r: O.ConfigRequest)
    ensures forall k :: CM.Get(CM.Run(cm, O.NumberingPart(r.numbering)).ctx, k)
                        == NumberingOf(r, k).GetOr(CM.Get(cm.ctx, k))
  {
    var part := O.NumberingPart(r.numbering);
    if part != [] {
      assert CM.Run(cm, part) == CM.Step(cm, part[0]);
    } else {
      forall k ensures NumberingOf(r, k).None? {
        if r.numbering.Some? {
          assert k !in CM.NumberingKeysOf(r.numbering.value);
        }
      }
    }
  }

  /** The three section merges, seen at one key, apply the request at that key. */
  lemma ThreeMergesAtKey(c0: CM.Config, c1: CM.Config, c2: CM.Config, c3: CM.Config,
                         r: O.ConfigRequest, k: CM.Key)
    requires CM.Get(c1, k) == PositionOf(r, k).GetOr(CM.Get(c0, k))
    requires CM.Get(c2, k) == AppearanceOf(r, k).GetOr(CM.Get(c1, k))
    requires CM.Get(c3, k) == NumberingOf(r, k).GetOr(CM.Get(c2, k))
    ensures CM.Get(c3, k) == RequestEntry(r, k).GetOr(CM.Get(c0, k))
  {
  }

  /**
   * Routing a request and running the configuration child on the routed
   * events applies the request: dropping empty sections loses nothing.
   */
  lemma {:induction false} RoutedRequestApplies(cm: CM.Machine, r: O.ConfigRequest)
    ensures Applies(r, cm.ctx, CM.Run(cm, O.RouteConfig(r)).ctx)
  {
    if r.reset {
      assert CM.Run(cm, [CM.ResetConfig]) == CM.Step(cm, CM.ResetConfig);
    } else {
      var p, a, n := O.PositionPart(r.position), O.AppearancePart(r.appearance), O.NumberingPart(r.numbering);
      assert O.RouteConfig(r) == p + a + n;
      CM.RunAppend(cm, p + a, n);
      CM.RunAppend(cm, p, a);
      var m1 := CM.Run(cm, p);
      var m2 := CM.Run(m1, a);
      var m3 := CM.Run(m2, n);
      PositionPartMerges(cm, r);
      AppearancePartMerges(m1, r);
      NumberingPartMerges(m2, r);
      forall k ensures CM.Get(m3.ctx, k) == RequestEntry(r, k).GetOr(CM.Get(cm.ctx, k)) {
        ThreeMergesAtKey(cm.ctx, m1.ctx, m2.ctx, m3.ctx, r, k);
      }
    }
  }

  // ---------------------------------------------------------------------------
  // Reachable systems
  // ---------------------------------------------------------------------------

  /** Every input keeps the invariant. */
  lemma {:induction false} StepPreservesInv(sys: System, input: Input, react: FM.Reaction)
    requires Inv(sys)
    ensures Inv(Step(sys, input, react))
  {
    if input.Send? {
      var o := O.Transition(sys.state, sys.ctx, input.event);
      var (fm, cm) := Deliver(sys.fileManager, sys.configManager, o.sent, react);
      assert O.IsConfigReady(o.ctx, cm.state);
    }
  }

  /** Every system reachable from creation satisfies the invariant; in particular its error is null. */
  lemma {:induction false} ReachableInv(sys: System, inputs: seq<Input>, react: FM.Reaction)
    requires Inv(sys)
    ensures Inv(Run(sys, inputs, react))
    ensures Run(sys, inputs, react).ctx.error.None?
    decreases |inputs|
  {
    if inputs != [] {
      StepPreservesInv(sys, inputs[0], react);
      ReachableInv(Step(sys, inputs[0], react), inputs[1..], react);
    }
  }

  // ---------------------------------------------------------------------------
  // End-to-end behaviour of each event
  // ---------------------------------------------------------------------------

  /**
   * An upload in `idle` or `uploading` records the file, sends exactly that
   * file to the file child, and ends in `ready` if the child's snapshot then
   * matches `ready` (passing through `configuring`), in `uploading` otherwise.
   */
  lemma UploadForwardsFile(sys: System, f: File, react: FM.Reaction)
    requires Inv(sys)
    requires sys.state == O.Idle || sys.state == O.Uploading
    ensures var r := Step(sys, Send(O.UploadFile(f)), react);
      && r.ctx == sys.ctx.(file := Some(f))
      && r.fileManager == react(sys.fileManager, FM.UploadFile(f))
      && r.configManager == sys.configManager
      && r.state == (if r.fileManager.Ready? then O.Ready else O.Uploading)
  {
    var msgs := [O.ToFileManager(FM.UploadFile(f))];
    var fm := react(sys.fileManager, FM.UploadFile(f));
    assert Deliver(sys.fileManager, sys.configManager, msgs, react)
        == Deliver(fm, sys.configManager, [], react);
  }

  /**
   * A configuration update in `ready` applies the request to the
   * configuration child (entering `configuring`), and the eventless pass
   * returns the orchestrator to `ready` in the same step.
   */
  lemma UpdateConfigApplies(sys: System, req: O.ConfigRequest, react: FM.Reaction)
    requires Inv(sys)
    requires sys.state == O.Ready
    ensures var r := Step(sys, Send(O.UpdateConfig(req)), react);
      && r.state == O.Ready
      && r.ctx == sys.ctx
      && r.fileManager == sys.fileManager
      && Applies(req, sys.configManager.ctx, r.configManager.ctx)
  {
    DeliverToConfig(sys.fileManager, sys.configManager, O.RouteConfig(req), react);
    RoutedRequestApplies(sys.configManager, req);
  }

  /**
   * `RESET` in `ready` returns to `idle` and clears the file and the error;
   * neither child is touched.
   */
  lemma ResetClearsOnlyOrchestrator(sys: System, react: FM.Reaction)
    requires Inv(sys)
    requires sys.state == O.Ready
    ensures var r := Step(sys, Send(O.Reset), react);
      && r.state == O.Idle
      && r.ctx == sys.ctx.(file := None, error := None)
      && r.fileManager == sys.fileManager
      && r.configManager == sys.configManager
  {
  }

  /**
   * An event the current state does not list changes no context and sends
   * nothing; only the eventless pass runs, which moves `uploading` on exactly
   * when the file child already matches `ready`.
   */
  lemma UnlistedEventOnlySettles(sys: System, e: O.Event, react: FM.Reaction)
    requires Inv(sys)
    requires !O.Handles(sys.state, e)
    ensures var r := Step(sys, Send(e), react);
      && r.ctx == sys.ctx
      && r.fileManager == sys.fileManager
      && r.configManager == sys.configManager
      && (sys.state == O.Uploading && sys.fileManager.Ready? ==> r.state == O.Ready)
      && (sys.state != O.Uploading || !sys.fileManager.Ready? ==> r.state == sys.state)
  {
  }

  /** `uploading` is left in a step exactly when the file child's snapshot then matches `ready`. */
  lemma UploadingLeftOnlyWhenFileReady(sys: System, input: Input, react: FM.Reaction)
    requires Inv(sys)
    requires sys.state == O.Uploading
    requires input.Send?
    ensures var r := Step(sys, input, react);
      r.state != O.Uploading <==> r.fileManager.Ready?
  {
  }

  /** A change of the file child alone never moves the orchestrator. */
  lemma FileManagerMoveIsUnseen(sys: System, status: FM.Status, react: FM.Reaction)
    ensures var r := Step(sys, FileManagerMoved(status), react);
      r.state == sys.state && r.ctx == sys.ctx && r.configManager == sys.configManager
  {
  }
}
