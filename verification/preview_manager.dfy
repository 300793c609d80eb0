/**
 * The preview machine: `idle`, `generating` (while the preview task runs)
 * and `ready` (page and zoom controls). The task itself is external: its
 * completion arrives as an event tagged with the invocation it belongs to.
 * Zoom is a real number; page numbers are integers.
 */
module PreviewManager {
  import opened Wrappers
  import opened Documents
  import CM = ConfigManager

  datatype State = Idle | Generating | Ready

  datatype Context = Context(
    currentPage: int,
    zoom: real,
    totalPages: int,
    previewData: Option<Bytes>,
    file: Option<File>,
    config: Option<CM.Config>)

  /**
   * The machine's state and context, and the number of preview tasks started
   * so far. While `generating`, the running task is the latest one; leaving
   * the state stops it, so only its result can be taken.
   */
  datatype Machine = Machine(state: State, ctx: Context, invocation: nat)

  datatype Event =
    | SetPage(page: int)
    | SetZoom(zoom: real)
    | ZoomIn
    | ZoomOut
    | FitToContainer
    | GeneratePreview(file: File, config: CM.Config)
    | PreviewDone(task: nat, output: Bytes)

  const MinZoom: real := 0.5
  const MaxZoom: real := 3.0
  const ZoomFactor: real := 1.2
  /** The page bound `setPage` uses: a literal, not `totalPages`. */
  const PageLimit: int := 10

  function Initial(): Machine {
    Machine(Idle, Context(1, 1.0, 0, None, None, None), 0)
  }

  function MinInt(a: int, b: int): int { if a <= b then a else b }
  function MaxInt(a: int, b: int): int { if a >= b then a else b }
  function MinReal(a: real, b: real): real { if a <= b then a else b }
  function MaxReal(a: real, b: real): real { if a >= b then a else b }

  // ---------------------------------------------------------------------------
  // Actions
  // ---------------------------------------------------------------------------

  /** `setPage`: the requested page, pulled into 1..10. */
  function ClampPage(page: int): (r: int)
    ensures 1 <= r <= PageLimit
    ensures 1 <= page <= PageLimit ==> r == page
    ensures page < 1 ==> r == 1
    ensures page > PageLimit ==> r == PageLimit
  {
    MaxInt(1, MinInt(page, PageLimit))
  }

  /** `setZoom`: the requested zoom, pulled into [0.5, 3]. */
  function ClampZoom(z: real): (r: real)
    ensures MinZoom <= r <= MaxZoom
    ensures MinZoom <= z <= MaxZoom ==> r == z
    ensures z < MinZoom ==> r == MinZoom
    ensures z > MaxZoom ==> r == MaxZoom
  {
    MaxReal(MinZoom, MinReal(z, MaxZoom))
  }

  /** `zoomIn`: 1.2 times larger, capped at 3; from a zoom in range it stays in range. */
  function ZoomedIn(z: real): (r: real)
    ensures r <= MaxZoom && r <= z * ZoomFactor
    ensures r == z * ZoomFactor || r == MaxZoom
    ensures MinZoom <= z ==> MinZoom <= r
    ensures 0.0 < z <= MaxZoom ==> z <= r
  {
    MinReal(z * ZoomFactor, MaxZoom)
  }

  /** `zoomOut`: 1.2 times smaller, floored at 0.5; from a zoom in range it stays in range. */
  function ZoomedOut(z: real): (r: real)
    ensures MinZoom <= r && z / ZoomFactor <= r
    ensures r == z / ZoomFactor || r == MinZoom
    ensures z <= MaxZoom ==> r <= MaxZoom
    ensures MinZoom <= z ==> r <= z
  {
    MaxReal(z / ZoomFactor, MinZoom)
  }

  // ---------------------------------------------------------------------------
  // The state table
  // ---------------------------------------------------------------------------

  /** Whether the event belongs to the page and zoom controls. */
  predicate IsViewEvent(e: Event) {
    e.SetPage? || e.SetZoom? || e.ZoomIn? || e.ZoomOut? || e.FitToContainer?
  }

  function Step(m: Machine, e: Event): (r: Machine)
    ensures r.ctx.totalPages == m.ctx.totalPages
    ensures m.state != Ready && IsViewEvent(e) ==> r == m
    ensures m.state == Generating && !(e.PreviewDone? && e.task == m.invocation) ==> r == m
    ensures m.state == Idle && e.GeneratePreview? ==>
      r == Machine(Generating, m.ctx.(file := Some(e.file), config := Some(e.config)), m.invocation + 1)
    ensures m.state == Ready && e.GeneratePreview? ==>
      r == Machine(Generating, m.ctx, m.invocation + 1)
    ensures m.state == Generating && e.PreviewDone? && e.task == m.invocation ==>
      r == Machine(Ready, m.ctx.(previewData := Some(e.output)), m.invocation)
    ensures e.PreviewDone? && !(m.state == Generating && e.task == m.invocation) ==> r == m
    ensures m.state == Ready && IsViewEvent(e) ==>
      && r.state == Ready && r.invocation == m.invocation
      && r.ctx.previewData == m.ctx.previewData && r.ctx.file == m.ctx.file && r.ctx.config == m.ctx.config
      && (e.SetPage? ==> r.ctx == m.ctx.(currentPage := ClampPage(e.page)))
      && (!e.SetPage? ==> r.ctx.currentPage == m.ctx.currentPage)
      && (e.SetZoom? ==> r.ctx.zoom == ClampZoom(e.zoom))
      && (e.ZoomIn? ==> r.ctx.zoom == ZoomedIn(m.ctx.zoom))
      && (e.ZoomOut? ==> r.ctx.zoom == ZoomedOut(m.ctx.zoom))
      && (e.FitToContainer? ==> r.ctx.zoom == 1.0)
  {
    match m.state
    case Idle =>
      if e.GeneratePreview? then
        // saveFileAndConfig, then the preview task starts
        Machine(Generating, m.ctx.(file := Some(e.file), config := Some(e.config)), m.invocation + 1)
      else m
    case Generating =>
      if e.PreviewDone? && e.task == m.invocation then
        // setPreviewData
        Machine(Ready, m.ctx.(previewData := Some(e.output)), m.invocation)
      else m
    case Ready =>
      match e
      case SetPage(page) => m.(ctx := m.ctx.(currentPage := ClampPage(page)))
      case SetZoom(z) => m.(ctx := m.ctx.(zoom := ClampZoom(z)))
      case ZoomIn => m.(ctx := m.ctx.(zoom := ZoomedIn(m.ctx.zoom)))
      case ZoomOut => m.(ctx := m.ctx.(zoom := ZoomedOut(m.ctx.zoom)))
      case FitToContainer => m.(ctx := m.ctx.(zoom := 1.0))
      // no actions: the stored file and configuration are reused
      case GeneratePreview(_, _) => Machine(Generating, m.ctx, m.invocation + 1)
      case PreviewDone(_, _) => m
  }

  function Run(m: Machine, es: seq<Event>): Machine
    decreases |es|
  {
    if es == [] then m else Run(Step(m, es[0]), es[1..])
  }

  // ---------------------------------------------------------------------------
  // Properties
  // ---------------------------------------------------------------------------

  /** What every reachable machine satisfies. */
  predicate Inv(m: Machine) {
    && 1 <= m.ctx.currentPage <= PageLimit
    && MinZoom <= m.ctx.zoom <= MaxZoom
    && m.ctx.totalPages == 0
    && (m.state != Idle ==> m.ctx.file.Some? && m.ctx.config.Some?)
    && (m.state == Ready ==> m.ctx.previewData.Some?)
  }

  /** The machine starts in `idle` on page 1 at zoom 1 with no page count, inside the bounds. */
  lemma InitialSatisfiesInv()
    ensures Initial().state == Idle && Initial().invocation == 0
    ensures Initial().ctx.currentPage == 1 && Initial().ctx.zoom == 1.0 && Initial().ctx.totalPages == 0
    ensures Initial().ctx.previewData.None? && Initial().ctx.file.None? && Initial().ctx.config.None?
    ensures Inv(Initial())
  {
  }

  /** Every event keeps the page in 1..10, the zoom in [0.5, 3] and the page count at 0. */
  lemma {:induction false} StepPreservesInv(m: Machine, e: Event)
    requires Inv(m)
    ensures Inv(Step(m, e))
  {
    var r := Step(m, e);
    if m.state == Ready {
      match e
      case ZoomIn => assert MinZoom <= ZoomedIn(m.ctx.zoom) <= MaxZoom;
      case ZoomOut => assert MinZoom <= ZoomedOut(m.ctx.zoom) <= MaxZoom;
      case _ =>
    }
  }

  /** The bounds hold after any sequence of events, zoom events included. */
  lemma {:induction false} RunPreservesInv(m: Machine, es: seq<Event>)
    requires Inv(m)
    ensures Inv(Run(m, es))
    ensures MinZoom <= Run(m, es).ctx.zoom <= MaxZoom
    ensures Run(m, es).ctx.totalPages == 0
    decreases |es|
  {
    if es != [] {
      StepPreservesInv(m, es[0]);
      RunPreservesInv(Step(m, es[0]), es[1..]);
    }
  }

  /** Zoom in then zoom out from a zoom at most 2.5 returns to it (in exact arithmetic). */
  lemma ZoomInOutRoundTrip(m: Machine)
    requires m.state == Ready && MinZoom <= m.ctx.zoom <= MaxZoom / ZoomFactor
    ensures Step(Step(m, ZoomIn), ZoomOut) == m
  {
    assert ZoomedIn(m.ctx.zoom) == m.ctx.zoom * ZoomFactor;
    assert ZoomedOut(m.ctx.zoom * ZoomFactor) == m.ctx.zoom;
  }
}
