/**
 * The supervising machine: states `idle`, `uploading`, `configuring` and
 * `ready`; a context holding the chosen file, an error slot and references
 * to the two spawned children; namespaced events that it forwards to those
 * children; and eventless transitions guarded by the children's snapshots.
 *
 * The machine is split the way its runtime processes an event: `Transition`
 * is the `on` table (new state, new context, messages sent to the children),
 * and `Settle` is the pass of eventless transitions that follows once the
 * children have seen those messages. The composition with the children lives in module Workflow.
 */
module Orchestrator {
  import opened Wrappers
  import opened Documents
  import CM = ConfigManager
  import FM = FileManager

  datatype State = Idle | Uploading | Configuring | Ready

  /** A reference to a spawned child actor. */
  datatype ActorRef = ActorRef(id: string)

  datatype Context = Context(
    file: Option<File>,
    error: Option<string>,
    fileManager: Option<ActorRef>,
    configManager: Option<ActorRef>)

  /**
   * The `config` payload of `configManager.UPDATE_CONFIG`: a truthy `reset`
   * flag and up to three sections, each absent or a partial of its section.
   */
  datatype ConfigRequest = ConfigRequest(
    reset: bool,
    position: Option<CM.PositionPatch>,
    appearance: Option<CM.AppearancePatch>,
    numbering: Option<CM.NumberingPatch>)

  /** The orchestrator's events; the `fileManager.`/`configManager.` prefixes are dropped. */
  datatype Event =
    | UploadFile(file: File)
    | Validate
    | ClearError
    | ValidationError(error: string)
    | UpdateConfig(config: ConfigRequest)
    | Reset

  /** A message sent to a child through its reference. */
  datatype Message =
    | ToFileManager(fileEvent: FM.Event)
    | ToConfigManager(configEvent: CM.Event)

  /** What handling one event produces before the eventless pass. */
  datatype Outcome = Outcome(state: State, ctx: Context, sent: seq<Message>)

  /** The context built at creation: no file, no error, both children spawned. */
  function InitialContext(): Context {
    Context(None, None, Some(ActorRef("fileManager")), Some(ActorRef("configManager")))
  }

  // ---------------------------------------------------------------------------
  // Actions
  // ---------------------------------------------------------------------------

  /** `uploadFile`: forward the file to the file child, if there is one to send to. */
  function ForwardUpload(ctx: Context, f: File): (out: seq<Message>)
    ensures |out| <= 1
    ensures out != [] <==> ctx.fileManager.Some?
    ensures forall i :: 0 <= i < |out| ==> out[i] == ToFileManager(FM.UploadFile(f))
  {
    if ctx.fileManager.Some? then [ToFileManager(FM.UploadFile(f))] else []
  }

  /** The position order in which `updateConfig` emits its section updates. */
  function SectionRank(e: CM.Event): nat {
    match e
    case UpdatePosition(_) => 0
    case UpdateAppearance(_) => 1
    case UpdateNumbering(_) => 2
    case ResetConfig => 3
  }

  /** The update for the position section: sent when it is present and has at least one key. */
  function PositionPart(o: Option<CM.PositionPatch>): seq<CM.Event> {
    if o.Some? && CM.PositionKeysOf(o.value) != {} then [CM.UpdatePosition(o.value)] else []
  }

  /** The update for the appearance section, under the same rule. */
  function AppearancePart(o: Option<CM.AppearancePatch>): seq<CM.Event> {
    if o.Some? && CM.AppearanceKeysOf(o.value) != {} then [CM.UpdateAppearance(o.value)] else []
  }

  /** The update for the numbering section, under the same rule. */
  function NumberingPart(o: Option<CM.NumberingPatch>): seq<CM.Event> {
    if o.Some? && CM.NumberingKeysOf(o.value) != {} then [CM.UpdateNumbering(o.value)] else []
  }

  /**
   * The events `updateConfig` sends to the configuration child: only a reset
   * when `reset` is set, otherwise the section updates in position,
   * appearance, numbering order. Lemmas RouteConfigOrdered, RouteConfigCarries
   * and RouteConfigSends state the rules.
   */
  function RouteConfig(r: ConfigRequest): (out: seq<CM.Event>)
    ensures r.reset ==> out == [CM.ResetConfig]
    ensures |out| <= 3
  {
    if r.reset then
      [CM.ResetConfig]
    else
      PositionPart(r.position) + AppearancePart(r.appearance) + NumberingPart(r.numbering)
  }

  /** Every event of the sequence is a section update in a section-order position before the next. */
  predicate InSectionOrder(out: seq<CM.Event>) {
    forall i, j :: 0 <= i < j < |out| ==> SectionRank(out[i]) < SectionRank(out[j])
  }

  /** Without `reset`, the routed events are section updates in strictly increasing section order. */
  lemma {:induction false} RouteConfigOrdered(r: ConfigRequest)
    requires !r.reset
    ensures forall i :: 0 <= i < |RouteConfig(r)| ==> !RouteConfig(r)[i].ResetConfig?
    ensures InSectionOrder(RouteConfig(r))
  {
    var p, a, n := PositionPart(r.position), AppearancePart(r.appearance), NumberingPart(r.numbering);
    var out := RouteConfig(r);
    assert out == p + a + n;
    forall i | 0 <= i < |out|
      ensures SectionRank(out[i]) == (if i < |p| then 0 else if i < |p| + |a| then 1 else 2)
    {
      if i < |p| {
        assert out[i] == p[i];
      } else if i < |p| + |a| {
        assert out[i] == a[i - |p|];
      } else {
        assert out[i] == n[i - |p| - |a|];
      }
    }
  }

  /** Each routed update carries its section of the request unchanged. */
  lemma {:induction false} RouteConfigCarries(r: ConfigRequest)
    ensures var out := RouteConfig(r);
      && (forall i :: 0 <= i < |out| && out[i].UpdatePosition? ==> r.position == Some(out[i].position))
      && (forall i :: 0 <= i < |out| && out[i].UpdateAppearance? ==> r.appearance == Some(out[i].appearance))
      && (forall i :: 0 <= i < |out| && out[i].UpdateNumbering? ==> r.numbering == Some(out[i].numbering))
  {
    if !r.reset {
      var p, a, n := PositionPart(r.position), AppearancePart(r.appearance), NumberingPart(r.numbering);
      var out := RouteConfig(r);
      assert out == p + a + n;
      forall i | 0 <= i < |out|
        ensures out[i] == (if i < |p| then p[i] else if i < |p| + |a| then a[i - |p|] else n[i - |p| - |a|])
      {
      }
    }
  }

  /**
   * Without `reset`, a present section is sent exactly when it has at
   * least one key.
   */
  lemma {:induction false} RouteConfigSends(r: ConfigRequest)
    requires !r.reset
    ensures var out := RouteConfig(r);
      && (r.position.Some? ==>
            (CM.UpdatePosition(r.position.value) in out <==> CM.PositionKeysOf(r.position.value) != {}))
      && (r.appearance.Some? ==>
            (CM.UpdateAppearance(r.appearance.value) in out <==> CM.AppearanceKeysOf(r.appearance.value) != {}))
      && (r.numbering.Some? ==>
            (CM.UpdateNumbering(r.numbering.value) in out <==> CM.NumberingKeysOf(r.numbering.value) != {}))
  {
    var p, a, n := PositionPart(r.position), AppearancePart(r.appearance), NumberingPart(r.numbering);
    var out := RouteConfig(r);
    assert out == p + a + n;
    assert forall e :: e in out <==> e in p || e in a || e in n;
  }

  /** `updateConfig`: the routed events, sent only if the configuration child exists. */
  function ForwardConfig(ctx: Context, r: ConfigRequest): seq<Message> {
    if ctx.configManager.Some? then ToConfig(RouteConfig(r)) else []
  }

  /** Addresses configuration events to the configuration child. */
  function ToConfig(es: seq<CM.Event>): (out: seq<Message>)
    ensures |out| == |es|
    ensures forall i :: 0 <= i < |es| ==> out[i] == ToConfigManager(es[i])
  {
    seq(|es|, i requires 0 <= i < |es| => ToConfigManager(es[i]))
  }

  // ---------------------------------------------------------------------------
  // The state table
  // ---------------------------------------------------------------------------

  /** Whether the state lists the event in its `on` table. */
  predicate Handles(s: State, e: Event) {
    match s
    case Idle => e.UploadFile?
    case Uploading => e.UploadFile?
    case Configuring => e.UpdateConfig?
    case Ready => e.UpdateConfig? || e.Reset?
  }

  /** The `on` transition an event takes, with its actions. */
  function Transition(s: State, ctx: Context, e: Event): (o: Outcome)
    ensures !Handles(s, e) ==> o == Outcome(s, ctx, [])
    ensures o.ctx.fileManager == ctx.fileManager && o.ctx.configManager == ctx.configManager
    ensures o.ctx.error.Some? ==> o.ctx.error == ctx.error
    ensures Handles(s, e) && e.UploadFile? ==>
      && o.state == Uploading
      && o.ctx.file == Some(e.file)
      && o.ctx.error == ctx.error
      && (ctx.fileManager.Some? ==> o.sent == [ToFileManager(FM.UploadFile(e.file))])
      && (ctx.fileManager.None? ==> o.sent == [])
    ensures Handles(s, e) && e.UpdateConfig? ==>
      && o.state == Configuring
      && o.ctx == ctx
      && o.sent == (if ctx.configManager.Some? then ToConfig(RouteConfig(e.config)) else [])
      && |o.sent| <= 3
      && (forall i :: 0 <= i < |o.sent| ==> o.sent[i].ToConfigManager?)
    ensures Handles(s, e) && e.Reset? ==>
      o.state == Idle && o.ctx == ctx.(file := None, error := None) && o.sent == []
  {
    if !Handles(s, e) then
      Outcome(s, ctx, [])
    else
      match e
      case UploadFile(f) =>
        // setFile, uploadFile
        Outcome(Uploading, ctx.(file := Some(f)), ForwardUpload(ctx, f))
      case UpdateConfig(r) =>
        // updateConfig; from `ready` the target is `configuring`
        Outcome(Configuring, ctx, ForwardConfig(ctx, r))
      case Reset =>
        // resetAll
        Outcome(Idle, ctx.(file := None, error := None), [])
      case _ =>
        Outcome(s, ctx, [])
  }

  // ---------------------------------------------------------------------------
  // Guards and the eventless pass
  // ---------------------------------------------------------------------------

  /** `isFileReady`: the file child's snapshot matches `ready`; a missing child is not ready. */
  predicate IsFileReady(ctx: Context, snapshot: FM.Status)
    ensures IsFileReady(ctx, snapshot) ==> snapshot.Ready?
    ensures ctx.fileManager.None? ==> !IsFileReady(ctx, snapshot)
  {
    ctx.fileManager.Some? && snapshot.Ready?
  }

  /** `isConfigReady`: the configuration child's snapshot matches `ready`. */
  predicate IsConfigReady(ctx: Context, snapshot: CM.State)
    ensures ctx.configManager.None? ==> !IsConfigReady(ctx, snapshot)
  {
    ctx.configManager.Some? && snapshot.Ready?
  }

  /** The `always` transition the state takes under the guards' values, if any. */
  function Eventless(s: State, fileReady: bool, configReady: bool): (t: Option<State>)
    ensures t.Some? <==> (s == Uploading && fileReady) || (s == Configuring && configReady)
    ensures t.Some? ==> Rank(t.value) == Rank(s) + 1
  {
    match s
    case Uploading => if fileReady then Some(Configuring) else None
    case Configuring => if configReady then Some(Ready) else None
    case _ => None
  }

  /** Progress through the workflow; every eventless transition raises it. */
  function Rank(s: State): nat {
    match s
    case Idle => 0
    case Uploading => 1
    case Configuring => 2
    case Ready => 3
  }

  /**
   * Eventless transitions taken until none is enabled. The guards read
   * snapshots that no eventless transition changes, so their values are
   * fixed for the whole pass.
   */
  function Settle(s: State, fileReady: bool, configReady: bool): (r: State)
    ensures Eventless(r, fileReady, configReady).None?
    ensures Rank(s) <= Rank(r)
    ensures s == Idle || s == Ready ==> r == s
    ensures s == Uploading ==> (r == Uploading <==> !fileReady)
    ensures s == Configuring ==> (r == Configuring <==> !configReady)
    ensures s != Idle && configReady ==> r != Configuring
    ensures s == Uploading && fileReady && configReady ==> r == Ready
    ensures s == Uploading && fileReady && !configReady ==> r == Configuring
    decreases 3 - Rank(s)
  {
    match Eventless(s, fileReady, configReady)
    case None => s
    case Some(t) => Settle(t, fileReady, configReady)
  }
}
