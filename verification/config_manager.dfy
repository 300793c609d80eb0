/**
 * The configuration child: a machine with the single state `ready` whose
 * context is the fifteen-field folio configuration. Three events merge a
 * partial section into the context key by key; a fourth restores the
 * defaults. Numbers are assigned verbatim: the reducer neither clamps nor
 * validates.
 */
module ConfigManager {
  import opened Wrappers

  datatype VerticalCorner = Top | Bottom
  datatype HorizontalCorner = Left | Right
  datatype NumberingDirection = First | Last
  datatype NumberingStyle = Numbers | Letters | Mixed

  /** The machine's context. JavaScript numbers are modelled as reals. */
  datatype Config = Config(
    // position
    cornerVertical: VerticalCorner,
    cornerHorizontal: HorizontalCorner,
    positionX: real,
    positionY: real,
    rotation: real,
    randomnessX: real,
    randomnessY: real,
    randomnessRotation: real,
    // appearance
    color: string,
    transparency: real,
    fontSize: real,
    // numbering
    startNumber: real,
    direction: NumberingDirection,
    numberingType: NumberingStyle,
    zeroPadding: real)

  /** `Partial<PositionConfig>`: `None` is a key that is absent (or undefined). */
  datatype PositionPatch = PositionPatch(
    cornerVertical: Option<VerticalCorner>,
    cornerHorizontal: Option<HorizontalCorner>,
    positionX: Option<real>,
    positionY: Option<real>,
    rotation: Option<real>,
    randomnessX: Option<real>,
    randomnessY: Option<real>,
    randomnessRotation: Option<real>)

  /** `Partial<AppearanceConfig>`. */
  datatype AppearancePatch = AppearancePatch(
    color: Option<string>,
    transparency: Option<real>,
    fontSize: Option<real>)

  /** `Partial<NumberingConfig>`. */
  datatype NumberingPatch = NumberingPatch(
    startNumber: Option<real>,
    direction: Option<NumberingDirection>,
    numberingType: Option<NumberingStyle>,
    zeroPadding: Option<real>)

  const EmptyPosition := PositionPatch(None, None, None, None, None, None, None, None)
  const EmptyAppearance := AppearancePatch(None, None, None)
  const EmptyNumbering := NumberingPatch(None, None, None, None)

  // ---------------------------------------------------------------------------
  // A key-by-key view of configurations and patches, in which the frame
  // properties of the reducer are stated.
  // ---------------------------------------------------------------------------

  /** The names of the fifteen context fields. */
  datatype Key =
    | CornerVertical | CornerHorizontal | PositionX | PositionY | Rotation
    | RandomnessX | RandomnessY | RandomnessRotation
    | Color | Transparency | FontSize
    | StartNumber | Direction | NumberingType | ZeroPadding

  /** The value stored under a key. */
  datatype Value =
    | Vertical(vertical: VerticalCorner)
    | Horizontal(horizontal: HorizontalCorner)
    | Number(number: real)
    | Text(text: string)
    | Order(order: NumberingDirection)
    | Style(style: NumberingStyle)

  const PositionKeys: set<Key> :=
    {CornerVertical, CornerHorizontal, PositionX, PositionY, Rotation,
     RandomnessX, RandomnessY, RandomnessRotation}
  const AppearanceKeys: set<Key> := {Color, Transparency, FontSize}
  const NumberingKeys: set<Key> := {StartNumber, Direction, NumberingType, ZeroPadding}
  const AllKeys: set<Key> := PositionKeys + AppearanceKeys + NumberingKeys

  /** Reads one field of a configuration. */
  function Get(c: Config, k: Key): Value {
    match k
    case CornerVertical => Vertical(c.cornerVertical)
    case CornerHorizontal => Horizontal(c.cornerHorizontal)
    case PositionX => Number(c.positionX)
    case PositionY => Number(c.positionY)
    case Rotation => Number(c.rotation)
    case RandomnessX => Number(c.randomnessX)
    case RandomnessY => Number(c.randomnessY)
    case RandomnessRotation => Number(c.randomnessRotation)
    case Color => Text(c.color)
    case Transparency => Number(c.transparency)
    case FontSize => Number(c.fontSize)
    case StartNumber => Number(c.startNumber)
    case Direction => Order(c.direction)
    case NumberingType => Style(c.numberingType)
    case ZeroPadding => Number(c.zeroPadding)
  }

  function NumberEntry(o: Option<real>): Option<Value> {
    if o.Some? then Some(Number(o.value)) else None
  }

  /** The value a position patch supplies for a key; `None` for keys of other sections. */
  function PositionEntry(p: PositionPatch, k: Key): Option<Value> {
    match k
    case CornerVertical =>
      if p.cornerVertical.Some? then Some(Vertical(p.cornerVertical.value)) else None
    case CornerHorizontal =>
      if p.cornerHorizontal.Some? then Some(Horizontal(p.cornerHorizontal.value)) else None
    case PositionX => NumberEntry(p.positionX)
    case PositionY => NumberEntry(p.positionY)
    case Rotation => NumberEntry(p.rotation)
    case RandomnessX => NumberEntry(p.randomnessX)
    case RandomnessY => NumberEntry(p.randomnessY)
    case RandomnessRotation => NumberEntry(p.randomnessRotation)
    case _ => None
  }

  /** The value an appearance patch supplies for a key. */
  function AppearanceEntry(p: AppearancePatch, k: Key): Option<Value> {
    match k
    case Color => if p.color.Some? then Some(Text(p.color.value)) else None
    case Transparency => NumberEntry(p.transparency)
    case FontSize => NumberEntry(p.fontSize)
    case _ => None
  }

  /** The value a numbering patch supplies for a key. */
  function NumberingEntry(p: NumberingPatch, k: Key): Option<Value> {
    match k
    case StartNumber => NumberEntry(p.startNumber)
    case Direction => if p.direction.Some? then Some(Order(p.direction.value)) else None
    case NumberingType =>
      if p.numberingType.Some? then Some(Style(p.numberingType.value)) else None
    case ZeroPadding => NumberEntry(p.zeroPadding)
    case _ => None
  }

  /** `Object.keys` of a position patch. */
  function PositionKeysOf(p: PositionPatch): (ks: set<Key>)
    ensures ks <= PositionKeys
    ensures forall k :: k in ks <==> PositionEntry(p, k).Some?
  {
    set k | k in PositionKeys && PositionEntry(p, k).Some?
  }

  /** `Object.keys` of an appearance patch. */
  function AppearanceKeysOf(p: AppearancePatch): (ks: set<Key>)
    ensures ks <= AppearanceKeys
    ensures forall k :: k in ks <==> AppearanceEntry(p, k).Some?
  {
    set k | k in AppearanceKeys && AppearanceEntry(p, k).Some?
  }

  /** `Object.keys` of a numbering patch. */
  function NumberingKeysOf(p: NumberingPatch): (ks: set<Key>)
    ensures ks <= NumberingKeys
    ensures forall k :: k in ks <==> NumberingEntry(p, k).Some?
  {
    set k | k in NumberingKeys && NumberingEntry(p, k).Some?
  }

  /** Two configurations that agree on every key are equal. */
  lemma {:induction false} Extensionality(a: Config, b: Config)
    requires forall k :: Get(a, k) == Get(b, k)
    ensures a == b
  {
    assert Get(a, CornerVertical) == Get(b, CornerVertical);
    assert Get(a, CornerHorizontal) == Get(b, CornerHorizontal);
    assert Get(a, PositionX) == Get(b, PositionX);
    assert Get(a, PositionY) == Get(b, PositionY);
    assert Get(a, Rotation) == Get(b, Rotation);
    assert Get(a, RandomnessX) == Get(b, RandomnessX);
    assert Get(a, RandomnessY) == Get(b, RandomnessY);
    assert Get(a, RandomnessRotation) == Get(b, RandomnessRotation);
    assert Get(a, Color) == Get(b, Color);
    assert Get(a, Transparency) == Get(b, Transparency);
    assert Get(a, FontSize) == Get(b, FontSize);
    assert Get(a, StartNumber) == Get(b, StartNumber);
    assert Get(a, Direction) == Get(b, Direction);
    assert Get(a, NumberingType) == Get(b, NumberingType);
    assert Get(a, ZeroPadding) == Get(b, ZeroPadding);
  }

  // ---------------------------------------------------------------------------
  // The actions
  // ---------------------------------------------------------------------------

  /**
   * `updatePosition`: every position key the patch supplies takes the
   * supplied value verbatim, every other key keeps its value.
   */
  function MergePosition(c: Config, p: PositionPatch): (r: Config)
    ensures forall k :: Get(r, k) == PositionEntry(p, k).GetOr(Get(c, k))
    ensures forall k :: k !in PositionKeys ==> Get(r, k) == Get(c, k)
  {
    c.(cornerVertical := p.cornerVertical.GetOr(c.cornerVertical),
       cornerHorizontal := p.cornerHorizontal.GetOr(c.cornerHorizontal),
       positionX := p.positionX.GetOr(c.positionX),
       positionY := p.positionY.GetOr(c.positionY),
       rotation := p.rotation.GetOr(c.rotation),
       randomnessX := p.randomnessX.GetOr(c.randomnessX),
       randomnessY := p.randomnessY.GetOr(c.randomnessY),
       randomnessRotation := p.randomnessRotation.GetOr(c.randomnessRotation))
  }

  /** `updateAppearance`: only the supplied keys among color, transparency and font size change. */
  function MergeAppearance(c: Config, p: AppearancePatch): (r: Config)
    ensures forall k :: Get(r, k) == AppearanceEntry(p, k).GetOr(Get(c, k))
    ensures forall k :: k !in AppearanceKeys ==> Get(r, k) == Get(c, k)
  {
    c.(color := p.color.GetOr(c.color),
       transparency := p.transparency.GetOr(c.transparency),
       fontSize := p.fontSize.GetOr(c.fontSize))
  }

  /** `updateNumbering`: only the supplied keys among the four numbering fields change. */
  function MergeNumbering(c: Config, p: NumberingPatch): (r: Config)
    ensures forall k :: Get(r, k) == NumberingEntry(p, k).GetOr(Get(c, k))
    ensures forall k :: k !in NumberingKeys ==> Get(r, k) == Get(c, k)
  {
    c.(startNumber := p.startNumber.GetOr(c.startNumber),
       direction := p.direction.GetOr(c.direction),
       numberingType := p.numberingType.GetOr(c.numberingType),
       zeroPadding := p.zeroPadding.GetOr(c.zeroPadding))
  }

  /** The tuple `resetConfig` assigns. */
  const Defaults: Config := Config(
    cornerVertical := Bottom,
    cornerHorizontal := Right,
    positionX := 0.0,
    positionY := 0.0,
    rotation := 0.0,
    randomnessX := 0.0,
    randomnessY := 0.0,
    randomnessRotation := 0.0,
    color := "#000000",
    transparency := 100.0,
    fontSize := 12.0,
    startNumber := 1.0,
    direction := First,
    numberingType := Numbers,
    zeroPadding := 6.0)

  /** The context the machine is created with (declared separately from the reset tuple). */
  const InitialContext: Config := Config(
    Bottom, Right, 0.0, 0.0, 0.0, 0.0, 0.0, 0.0, "#000000", 100.0, 12.0, 1.0, First, Numbers, 6.0)

  // ---------------------------------------------------------------------------
  // The machine
  // ---------------------------------------------------------------------------

  /** The machine's only state. */
  datatype State = Ready

  datatype Machine = Machine(state: State, ctx: Config)

  datatype Event =
    | UpdatePosition(position: PositionPatch)
    | UpdateAppearance(appearance: AppearancePatch)
    | UpdateNumbering(numbering: NumberingPatch)
    | ResetConfig

  function Initial(): Machine {
    Machine(Ready, InitialContext)
  }

  /** The value an event writes under a key, if it writes one. */
  function Entry(e: Event, k: Key): Option<Value> {
    match e
    case UpdatePosition(p) => PositionEntry(p, k)
    case UpdateAppearance(p) => AppearanceEntry(p, k)
    case UpdateNumbering(p) => NumberingEntry(p, k)
    case ResetConfig => Some(Get(Defaults, k))
  }

  /** The keys an event writes. */
  function Writes(e: Event): (ks: set<Key>)
    ensures forall k :: k in ks <==> Entry(e, k).Some?
  {
    set k | k in AllKeys && Entry(e, k).Some?
  }

  /** One event handled in `ready`; every event is handled and none leaves `ready`. */
  function Step(m: Machine, e: Event): (r: Machine)
    ensures forall k :: Get(r.ctx, k) == Entry(e, k).GetOr(Get(m.ctx, k))
    ensures forall k :: k !in Writes(e) ==> Get(r.ctx, k) == Get(m.ctx, k)
    ensures e.ResetConfig? ==> r.ctx == InitialContext
  {
    match e
    case UpdatePosition(p) => Machine(Ready, MergePosition(m.ctx, p))
    case UpdateAppearance(p) => Machine(Ready, MergeAppearance(m.ctx, p))
    case UpdateNumbering(p) => Machine(Ready, MergeNumbering(m.ctx, p))
    case ResetConfig => Machine(Ready, Defaults)
  }

  /** Events handled one after the other. */
  function Run(m: Machine, es: seq<Event>): Machine
    decreases |es|
  {
    if es == [] then m else Run(Step(m, es[0]), es[1..])
  }

  // ---------------------------------------------------------------------------
  // Properties
  // ---------------------------------------------------------------------------

  /** The reset tuple and the initial context are the same configuration. */
  lemma ResetTupleIsInitialContext()
    ensures Defaults == InitialContext
    ensures Initial().ctx == Defaults
  {
  }

  /** A merge is a map override: the patch's entries replace the configuration's. */
  lemma {:induction false} StepIsOverride(m: Machine, e: Event)
    ensures AsMap(Step(m, e).ctx) == AsMap(m.ctx) + EntryMap(e)
  {
    var r := Step(m, e).ctx;
    forall k | k in AllKeys
      ensures AsMap(r)[k] == (AsMap(m.ctx) + EntryMap(e))[k]
    {
      if Entry(e, k).Some? {
        assert k in EntryMap(e);
      }
    }
  }

  /** The configuration as a map from all fifteen keys to their values. */
  function AsMap(c: Config): (m: map<Key, Value>)
    ensures m.Keys == AllKeys
  {
    map k | k in AllKeys :: Get(c, k)
  }

  /** The entries an event supplies, as a map from the keys it writes. */
  function EntryMap(e: Event): (m: map<Key, Value>)
    ensures m.Keys == Writes(e)
  {
    map k | k in AllKeys && Entry(e, k).Some? :: Entry(e, k).value
  }

  /** An update whose patch supplies no key leaves the machine as it was. */
  lemma {:induction false} EmptyUpdateIsIdentity(m: Machine, e: Event)
    requires Writes(e) == {}
    ensures Step(m, e) == m
  {
    var r := Step(m, e);
    forall k ensures Get(r.ctx, k) == Get(m.ctx, k) {
      assert k !in Writes(e);
    }
    Extensionality(r.ctx, m.ctx);
  }

  /** Handling the same event twice is handling it once. */
  lemma {:induction false} StepIdempotent(m: Machine, e: Event)
    ensures Step(Step(m, e), e) == Step(m, e)
  {
    var once := Step(m, e);
    var twice := Step(once, e);
    forall k ensures Get(twice.ctx, k) == Get(once.ctx, k) {
    }
    Extensionality(twice.ctx, once.ctx);
  }

  /** A reset yields the initial context whatever happened before it. */
  lemma {:induction false} ResetForgetsHistory(m: Machine, es: seq<Event>)
    ensures Run(m, es + [ResetConfig]) == Initial()
  {
    RunAppend(m, es, [ResetConfig]);
  }

  /** Running two batches is running their concatenation. */
  lemma {:induction false} RunAppend(m: Machine, xs: seq<Event>, ys: seq<Event>)
    ensures Run(m, xs + ys) == Run(Run(m, xs), ys)
    decreases |xs|
  {
    if xs == [] {
      assert xs + ys == ys;
    } else {
      assert (xs + ys)[0] == xs[0];
      assert (xs + ys)[1..] == xs[1..] + ys;
      RunAppend(Step(m, xs[0]), xs[1..], ys);
    }
  }

  /** A key that no event of the run writes keeps its value: updates never reset other fields. */
  lemma {:induction false} UntouchedKeyKeepsValue(m: Machine, es: seq<Event>, k: Key)
    requires forall i :: 0 <= i < |es| ==> k !in Writes(es[i])
    ensures Get(Run(m, es).ctx, k) == Get(m.ctx, k)
    decreases |es|
  {
    if es != [] {
      assert k !in Writes(es[0]);
      UntouchedKeyKeepsValue(Step(m, es[0]), es[1..], k);
    }
  }

  /** A key holds the value of the last event of the run that wrote it. */
  lemma {:induction false} LastWriterWins(m: Machine, es: seq<Event>, k: Key, i: nat)
    requires i < |es| && k in Writes(es[i])
    requires forall j :: i < j < |es| ==> k !in Writes(es[j])
    ensures Get(Run(m, es).ctx, k) == Entry(es[i], k).value
  {
    var before, rest := es[..i], es[i + 1..];
    assert es == before + [es[i]] + rest;
    RunAppend(m, before + [es[i]], rest);
    RunAppend(m, before, [es[i]]);
    forall j | 0 <= j < |rest| ensures k !in Writes(rest[j]) {
      assert rest[j] == es[i + 1 + j];
    }
    UntouchedKeyKeepsValue(Run(m, before + [es[i]]), rest, k);
  }
}
