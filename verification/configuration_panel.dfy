/**
 * The configuration panel's event producers: the handlers that turn a
 * partial configuration chosen in the form into a `configManager.UPDATE_CONFIG`
 * event, and the two numeric inputs that fall back to a default when the
 * typed text does not parse to a non-zero integer. Composed with the
 * workflow, they give the path from a form edit to the configuration child.
 */
module ConfigurationPanel {
  import opened Wrappers
  import CM = ConfigManager
  import FM = FileManager
  import O = Orchestrator
  import W = Workflow

  /** A handler's argument, `Partial<typeof config>`: `None` is an undefined field. */
  datatype Updates = Updates(
    cornerVertical: Option<CM.VerticalCorner>,
    cornerHorizontal: Option<CM.HorizontalCorner>,
    positionX: Option<real>,
    positionY: Option<real>,
    rotation: Option<real>,
    randomnessX: Option<real>,
    randomnessY: Option<real>,
    randomnessRotation: Option<real>,
    color: Option<string>,
    transparency: Option<real>,
    fontSize: Option<real>,
    startNumber: Option<real>,
    direction: Option<CM.NumberingDirection>,
    numberingType: Option<CM.NumberingStyle>,
    zeroPadding: Option<real>)

  const NoUpdates := Updates(None, None, None, None, None, None, None, None,
                             None, None, None, None, None, None, None)

  /** The value the argument defines for a key, if it defines one. */
  function UpdateEntry(u: Updates, k: CM.Key): Option<CM.Value> {
    match k
    case CornerVertical => if u.cornerVertical.Some? then Some(CM.Vertical(u.cornerVertical.value)) else None
    case CornerHorizontal =>
      if u.cornerHorizontal.Some? then Some(CM.Horizontal(u.cornerHorizontal.value)) else None
    case PositionX => CM.NumberEntry(u.positionX)
    case PositionY => CM.NumberEntry(u.positionY)
    case Rotation => CM.NumberEntry(u.rotation)
    case RandomnessX => CM.NumberEntry(u.randomnessX)
    case RandomnessY => CM.NumberEntry(u.randomnessY)
    case RandomnessRotation => CM.NumberEntry(u.randomnessRotation)
    case Color => if u.color.Some? then Some(CM.Text(u.color.value)) else None
    case Transparency => CM.NumberEntry(u.transparency)
    case FontSize => CM.NumberEntry(u.fontSize)
    case StartNumber => CM.NumberEntry(u.startNumber)
    case Direction => if u.direction.Some? then Some(CM.Order(u.direction.value)) else None
    case NumberingType => if u.numberingType.Some? then Some(CM.Style(u.numberingType.value)) else None
    case ZeroPadding => CM.NumberEntry(u.zeroPadding)
  }

  /** A request carrying one section and nothing else. */
  predicate OnlyPosition(e: O.Event) {
    e.UpdateConfig? && !e.config.reset && e.config.position.Some?
    && e.config.appearance.None? && e.config.numbering.None?
  }

  predicate OnlyAppearance(e: O.Event) {
    e.UpdateConfig? && !e.config.reset && e.config.appearance.Some?
    && e.config.position.None? && e.config.numbering.None?
  }

  predicate OnlyNumbering(e: O.Event) {
    e.UpdateConfig? && !e.config.reset && e.config.numbering.Some?
    && e.config.position.None? && e.config.appearance.None?
  }

  // ---------------------------------------------------------------------------
  // The handlers
  // ---------------------------------------------------------------------------

  /**
   * `handlePositionUpdate`: a request with only a position section, holding
   * exactly the position keys the argument defines, with the same values.
   */
  function HandlePositionUpdate(u: Updates): (e: O.Event)
    ensures OnlyPosition(e)
    ensures forall k :: CM.PositionEntry(e.config.position.value, k)
                        == (if k in CM.PositionKeys then UpdateEntry(u, k) else None)
  {
    var section := CM.PositionPatch(
      u.cornerVertical, u.cornerHorizontal, u.positionX, u.positionY,
      u.rotation, u.randomnessX, u.randomnessY, u.randomnessRotation);
    O.UpdateConfig(O.ConfigRequest(false, Some(section), None, None))
  }

  /** `handleAppearanceUpdate`: only an appearance section, with the defined appearance keys. */
  function HandleAppearanceUpdate(u: Updates): (e: O.Event)
    ensures OnlyAppearance(e)
    ensures forall k :: CM.AppearanceEntry(e.config.appearance.value, k)
                        == (if k in CM.AppearanceKeys then UpdateEntry(u, k) else None)
  {
    var section := CM.AppearancePatch(u.color, u.transparency, u.fontSize);
    O.UpdateConfig(O.ConfigRequest(false, None, Some(section), None))
  }

  /** `handleNumberingUpdate`: only a numbering section, with the defined numbering keys. */
  function HandleNumberingUpdate(u: Updates): (e: O.Event)
    ensures OnlyNumbering(e)
    ensures forall k :: CM.NumberingEntry(e.config.numbering.value, k)
                        == (if k in CM.NumberingKeys then UpdateEntry(u, k) else None)
  {
    var section := CM.NumberingPatch(u.startNumber, u.direction, u.numberingType, u.zeroPadding);
    O.UpdateConfig(O.ConfigRequest(false, None, None, Some(section)))
  }

  /** `handleReset`: a request whose only content is `reset: true`. */
  function HandleReset(): (e: O.Event)
    ensures e.UpdateConfig? && e.config.reset
    ensures e.config.position.None? && e.config.appearance.None? && e.config.numbering.None?
    ensures O.RouteConfig(e.config) == [CM.ResetConfig]
  {
    O.UpdateConfig(O.ConfigRequest(true, None, None, None))
  }

  // ---------------------------------------------------------------------------
  // The two numeric inputs
  // ---------------------------------------------------------------------------

  /** The result of `parseInt` on the typed text. */
  datatype Parsed = NaN | Int(n: int)

  /** `parseInt(text) || fallback`: NaN and 0 are falsy, every other integer is kept. */
  function OrFallback(p: Parsed, fallback: int): (r: int)
    ensures p.NaN? ==> r == fallback
    ensures p.Int? && p.n == 0 ==> r == fallback
    ensures p.Int? && p.n != 0 ==> r == p.n
  {
    match p
    case NaN => fallback
    case Int(n) => if n == 0 then fallback else n
  }

  /** The start-number input's change: NaN or 0 becomes 1; negatives pass through. */
  function StartNumberChanged(p: Parsed): (e: O.Event)
    ensures OnlyNumbering(e)
    ensures var section := e.config.numbering.value;
      && section.direction.None? && section.numberingType.None? && section.zeroPadding.None?
      && section.startNumber.Some?
      && section.startNumber.value != 0.0
      && (p.NaN? || p == Int(0) ==> section.startNumber.value == 1.0)
      && (p.Int? && p.n != 0 ==> section.startNumber.value == p.n as real)
  {
    HandleNumberingUpdate(NoUpdates.(startNumber := Some(OrFallback(p, 1) as real)))
  }

  /** The zero-padding input's change: NaN or 0 becomes 6; negatives pass through. */
  function ZeroPaddingChanged(p: Parsed): (e: O.Event)
    ensures OnlyNumbering(e)
    ensures var section := e.config.numbering.value;
      && section.startNumber.None? && section.direction.None? && section.numberingType.None?
      && section.zeroPadding.Some?
      && section.zeroPadding.value != 0.0
      && (p.NaN? || p == Int(0) ==> section.zeroPadding.value == 6.0)
      && (p.Int? && p.n != 0 ==> section.zeroPadding.value == p.n as real)
  {
    HandleNumberingUpdate(NoUpdates.(zeroPadding := Some(OrFallback(p, 6) as real)))
  }

  // ---------------------------------------------------------------------------
  // From a form edit to the configuration child
  // ---------------------------------------------------------------------------

  /**
   * In `ready`, a request that supplies, for the keys of one section, exactly
   * the values the argument defines (and nothing for other keys) sets those
   * keys, leaves every other key as it was, and ends in `ready` again.
   */
  lemma SectionEditEndToEnd(sys: W.System, e: O.Event, section: set<CM.Key>, u: Updates, react: FM.Reaction)
    requires W.Inv(sys) && sys.state == O.Ready
    requires e.UpdateConfig? && !e.config.reset
    requires forall k :: W.RequestEntry(e.config, k) == (if k in section then UpdateEntry(u, k) else None)
    ensures var r := W.Step(sys, W.Send(e), react);
      && r.state == O.Ready
      && forall k :: CM.Get(r.configManager.ctx, k)
                     == (if k in section then UpdateEntry(u, k).GetOr(CM.Get(sys.configManager.ctx, k))
                         else CM.Get(sys.configManager.ctx, k))
  {
    W.UpdateConfigApplies(sys, e.config, react);
  }

  /** The request `handlePositionUpdate` builds supplies exactly the defined position keys. */
  lemma PositionRequestEntries(u: Updates)
    ensures forall k :: W.RequestEntry(HandlePositionUpdate(u).config, k)
                        == (if k in CM.PositionKeys then UpdateEntry(u, k) else None)
  {
    var req := HandlePositionUpdate(u).config;
    forall k ensures W.RequestEntry(req, k) == (if k in CM.PositionKeys then UpdateEntry(u, k) else None) {
    }
  }

  /** The request `handleAppearanceUpdate` builds supplies exactly the defined appearance keys. */
  lemma AppearanceRequestEntries(u: Updates)
    ensures forall k :: W.RequestEntry(HandleAppearanceUpdate(u).config, k)
                        == (if k in CM.AppearanceKeys then UpdateEntry(u, k) else None)
  {
    var req := HandleAppearanceUpdate(u).config;
    forall k ensures W.RequestEntry(req, k) == (if k in CM.AppearanceKeys then UpdateEntry(u, k) else None) {
    }
  }

  /** The request `handleNumberingUpdate` builds supplies exactly the defined numbering keys. */
  lemma NumberingRequestEntries(u: Updates)
    ensures forall k :: W.RequestEntry(HandleNumberingUpdate(u).config, k)
                        == (if k in CM.NumberingKeys then UpdateEntry(u, k) else None)
  {
    var req := HandleNumberingUpdate(u).config;
    forall k ensures W.RequestEntry(req, k) == (if k in CM.NumberingKeys then UpdateEntry(u, k) else None) {
    }
  }

  /**
   * In `ready`, a position edit sets exactly the position keys the argument
   * defines and leaves every other key, including every appearance and
   * numbering key, as it was; the orchestrator ends in `ready` again.
   */
  lemma PositionEditEndToEnd(sys: W.System, u: Updates, react: FM.Reaction)
    requires W.Inv(sys) && sys.state == O.Ready
    ensures var r := W.Step(sys, W.Send(HandlePositionUpdate(u)), react);
      && r.state == O.Ready
      && forall k :: CM.Get(r.configManager.ctx, k)
                     == (if k in CM.PositionKeys then UpdateEntry(u, k).GetOr(CM.Get(sys.configManager.ctx, k))
                         else CM.Get(sys.configManager.ctx, k))
  {
    PositionRequestEntries(u);
    SectionEditEndToEnd(sys, HandlePositionUpdate(u), CM.PositionKeys, u, react);
  }

  /** In `ready`, an appearance edit sets exactly the appearance keys the argument defines. */
  lemma AppearanceEditEndToEnd(sys: W.System, u: Updates, react: FM.Reaction)
    requires W.Inv(sys) && sys.state == O.Ready
    ensures var r := W.Step(sys, W.Send(HandleAppearanceUpdate(u)), react);
      && r.state == O.Ready
      && forall k :: CM.Get(r.configManager.ctx, k)
                     == (if k in CM.AppearanceKeys then UpdateEntry(u, k).GetOr(CM.Get(sys.configManager.ctx, k))
                         else CM.Get(sys.configManager.ctx, k))
  {
    AppearanceRequestEntries(u);
    SectionEditEndToEnd(sys, HandleAppearanceUpdate(u), CM.AppearanceKeys, u, react);
  }

  /** In `ready`, a numbering edit sets exactly the numbering keys the argument defines. */
  lemma NumberingEditEndToEnd(sys: W.System, u: Updates, react: FM.Reaction)
    requires W.Inv(sys) && sys.state == O.Ready
    ensures var r := W.Step(sys, W.Send(HandleNumberingUpdate(u)), react);
      && r.state == O.Ready
      && forall k :: CM.Get(r.configManager.ctx, k)
                     == (if k in CM.NumberingKeys then UpdateEntry(u, k).GetOr(CM.Get(sys.configManager.ctx, k))
                         else CM.Get(sys.configManager.ctx, k))
  {
    NumberingRequestEntries(u);
    SectionEditEndToEnd(sys, HandleNumberingUpdate(u), CM.NumberingKeys, u, react);
  }

  /** In `ready`, the reset button restores the default configuration. */
  lemma ResetButtonEndToEnd(sys: W.System, react: FM.Reaction)
    requires W.Inv(sys) && sys.state == O.Ready
    ensures var r := W.Step(sys, W.Send(HandleReset()), react);
      r.state == O.Ready && r.configManager.ctx == CM.Defaults
  {
    W.UpdateConfigApplies(sys, HandleReset().config, react);
  }

  /**
   * A handler called with no field of its section defined builds an empty
   * section, which the orchestrator drops: no event reaches the
   * configuration child.
   */
  lemma {:induction false} EmptyPositionEditSendsNothing(u: Updates)
    requires forall k :: k in CM.PositionKeys ==> UpdateEntry(u, k).None?
    ensures O.RouteConfig(HandlePositionUpdate(u).config) == []
  {
    var p := HandlePositionUpdate(u).config.position.value;
    forall k ensures CM.PositionEntry(p, k).None? {
      if k in CM.PositionKeys {
        assert UpdateEntry(u, k).None?;
      }
    }
    assert CM.PositionKeysOf(p) == {};
  }

  lemma {:induction false} EmptyAppearanceEditSendsNothing(u: Updates)
    requires forall k :: k in CM.AppearanceKeys ==> UpdateEntry(u, k).None?
    ensures O.RouteConfig(HandleAppearanceUpdate(u).config) == []
  {
    var a := HandleAppearanceUpdate(u).config.appearance.value;
    forall k ensures CM.AppearanceEntry(a, k).None? {
      if k in CM.AppearanceKeys {
        assert UpdateEntry(u, k).None?;
      }
    }
    assert CM.AppearanceKeysOf(a) == {};
  }

  lemma {:induction false} EmptyNumberingEditSendsNothing(u: Updates)
    requires forall k :: k in CM.NumberingKeys ==> UpdateEntry(u, k).None?
    ensures O.RouteConfig(HandleNumberingUpdate(u).config) == []
  {
    var n := HandleNumberingUpdate(u).config.numbering.value;
    forall k ensures CM.NumberingEntry(n, k).None? {
      if k in CM.NumberingKeys {
        assert UpdateEntry(u, k).None?;
      }
    }
    assert CM.NumberingKeysOf(n) == {};
  }
}
