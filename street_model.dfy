/**
 * The state of the street widget's controller, and every operation of the
 * controller as a function from the state before to the state after.
 *
 * Incomes and pixel positions are reals.  The logarithmic scale is opaque: a
 * pair of functions, pixel position of an income and income at a pixel
 * position.  Fields that JavaScript leaves `undefined` or sets to `void 0`
 * and only ever tests for truthiness are 0.0 here (drag offsets, the
 * pre-drag snapshot); cached scene elements are booleans (created or not).
 */
module StreetModel {
  import opened Optional

  /** The width of the street's margins, `streetOffset`. */
  const StreetOffset: real := 60.0
  /** What `pressedSlider` adds to `rich` when the high income overshoots it. */
  const RichEpsilon: real := 0.00002

  /** A place on the street: its identifier `_id` and its `income`. */
  datatype Place = Place(id: string, income: real)

  /** The divider configuration handed to `init`. */
  datatype Dividers = Dividers(
    poor: real, rich: real,
    low: real, medium: real, high: real,
    firstLabelName: string, secondLabelName: string,
    thirdLabelName: string, fourthLabelName: string,
    showLabels: bool)

  /** The log scale: income to pixel, and its inverse. */
  datatype Scale = Scale(toPixel: real -> real, toIncome: real -> real)

  /** One event on the `filter` subject. */
  datatype IncomeRange = IncomeRange(lowIncome: int, highIncome: int)

  /** The text of a slider's income label: empty, or a currency amount. */
  datatype Label = Blank | Amount(value: real)

  /** One level label of `isDrawLabels`: the income range it spans. */
  datatype LevelRange = LevelRange(from: real, to: real, name: string)

  /** The two kinds of pointer the handlers listen to. */
  datatype Pointer = Mouse | Touch

  /** The scene elements the controller caches (true once created). */
  datatype Handles = Handles(
    leftScroll: bool, rightScroll: bool,
    leftScrollOpacityStreet: bool, leftScrollOpacityHomes: bool, leftScrollOpacityLabels: bool,
    rightScrollOpacityStreet: bool, rightScrollOpacityHomes: bool, rightScrollOpacityLabels: bool,
    leftScrollText: bool, rightScrollText: bool)

  const NoHandles := Handles(false, false, false, false, false, false, false, false, false, false)

  /** What the controller is given: injected at construction, configured by
    * `init`, and assigned from outside through `set`. */
  datatype Config = Config(
    roundIncome: real -> real, isMobile: bool, mobileWidth: int, mobileSize: int,
    thingname: string, countries: Option<string>, regions: Option<string>,
    axisLabel: seq<real>, levelLabels: seq<string>, dividersData: Dividers,
    minIncome: real, maxIncome: real, width: real, windowInnerWidth: int, scale: Scale,
    leftPoint: real, rightPoint: real, currencyValue: real)

  /** The drag session: which part is grabbed, the grab offsets of a track
    * drag and the range before the drag. */
  datatype Session = Session(
    sliderLeftMove: bool, sliderRightMove: bool, draggingSliders: bool,
    distanceDraggingLeftSlider: real, distanceDraggingRightSlider: real,
    currentLowIncome: real, currentHighIncome: real)

  const Idle := Session(false, false, false, 0.0, 0.0, 0.0, 0.0)

  /** What the controller has drawn: the cached elements, the shades' geometry
    * and the labels' texts. */
  datatype Scene = Scene(
    handles: Handles,
    leftShadeWidth: real, rightStreetShadeX: real, rightHomesShadeX: real, rightShadeWidth: real,
    leftScrollLabel: Label, rightScrollLabel: Label)

  /** All fields of the controller that its operations read or write.  A
    * handle's border is `None` while it is still `undefined`: until the
    * first `drawLeftSlider` / `drawRightSlider` that gets past its pin test. */
  datatype Street = Street(
    config: Config,
    lowIncome: real, highIncome: real, sliderLeftBorder: Option<real>, sliderRightBorder: Option<real>,
    session: Session, scene: Scene,
    chosenPlaces: seq<Place>, placesArray: seq<Place>)

  /** JavaScript's `Math.round`: halves round towards +infinity. */
  function Round(x: real): (r: int)
    ensures r as real <= x + 0.5 < r as real + 1.0
  {
    (x + 0.5).Floor
  }

  /** The scale is strictly increasing and `toIncome` inverts `toPixel`. */
  ghost predicate IsLogScale(sc: Scale) {
    && (forall a: real, b: real :: a < b ==> sc.toPixel(a) < sc.toPixel(b))
    && (forall v: real :: sc.toIncome(sc.toPixel(v)) == v)
  }

  // ---------------------------------------------------------------------
  // Predicates the handlers branch on

  /** The filtered-page test as grouped at lines 670, 951, 964 and 1063. */
  predicate Filtered(c: Config) {
    (c.thingname != "Families" || c.countries != Some("World") || c.regions != Some("World"))
    && !c.isMobile
  }

  /** The same test as written at line 775: `&&` binds only the regions term. */
  predicate RightFilteredAsWritten(c: Config) {
    c.thingname != "Families" || c.countries != Some("World")
    || (c.regions != Some("World") && !c.isMobile)
  }

  /** A narrow viewport pins the low handle at `poor` (breakpoint 568). */
  predicate LeftPinned(s: Street) {
    s.config.windowInnerWidth <= 568 && Round(s.lowIncome) as real == s.config.dividersData.poor
  }

  /** A narrow viewport pins the high handle at `rich` (breakpoint 566). */
  predicate RightPinned(s: Street) {
    s.config.windowInnerWidth <= 566 && Round(s.highIncome) as real == s.config.dividersData.rich
  }

  predicate Active(d: Session) {
    d.sliderLeftMove || d.sliderRightMove || d.draggingSliders
  }

  /** The whole track is grabbed, neither handle is. */
  predicate TrackDrag(d: Session) {
    d.draggingSliders && !d.sliderLeftMove && !d.sliderRightMove
  }

  // ---------------------------------------------------------------------
  // init

  /** `init`: the configuration, the range (falsy arguments fall back to the
    * divider bounds) and the log scale built for `[poor, rich]`. */
  function Initialized(s: Street, lowIncome: real, highIncome: real, d: Dividers,
                       regions: seq<string>, countries: seq<string>, thing: string,
                       svgWidth: int, innerWidth: int, scale: Scale): (r: Street)
    ensures r.session == s.session && r.scene == s.scene
    ensures r.placesArray == s.placesArray && r.chosenPlaces == s.chosenPlaces
  {
    s.(config := s.config.(
         thingname := thing, countries := First(countries), regions := First(regions),
         axisLabel := [d.low, d.medium, d.high],
         levelLabels := [d.firstLabelName, d.secondLabelName, d.thirdLabelName, d.fourthLabelName],
         dividersData := d, minIncome := d.poor, maxIncome := d.rich,
         width := svgWidth as real - StreetOffset, windowInnerWidth := innerWidth, scale := scale),
       lowIncome := if lowIncome != 0.0 then lowIncome else d.poor,
       highIncome := if highIncome != 0.0 then highIncome else d.rich)
  }

  // ---------------------------------------------------------------------
  // drawScale: uniqBy('_id') then sortBy('income')

  predicate HasId(ps: seq<Place>, id: string) {
    exists i :: 0 <= i < |ps| && ps[i].id == id
  }

  /** `ps[i]` is the first place in `ps` with its identifier. */
  ghost predicate FirstOccurrence(ps: seq<Place>, i: int) {
    0 <= i < |ps| && !HasId(ps[..i], ps[i].id)
  }

  predicate UniqueIds(ps: seq<Place>) {
    forall i, j :: 0 <= i < j < |ps| ==> ps[i].id != ps[j].id
  }

  /** `_.uniqBy(places, '_id')`: keeps a place when no earlier kept place has
    * its identifier.  Its properties are the lemmas `UniqById*`. */
  function UniqById(ps: seq<Place>): (r: seq<Place>)
    ensures |r| <= |ps|
  {
    if |ps| == 0 then []
    else
      var front := UniqById(ps[..|ps| - 1]);
      var last := ps[|ps| - 1];
      if HasId(front, last.id) then front else front + [last]
  }

  predicate SortedByIncome(ps: seq<Place>) {
    forall i, j :: 0 <= i < j < |ps| ==> ps[i].income <= ps[j].income
  }

  /** Places `p` after every trailing place of `sorted` whose income exceeds
    * its own. */
  function InsertByIncome(sorted: seq<Place>, p: Place): (r: seq<Place>)
    ensures multiset(r) == multiset(sorted) + multiset{p}
  {
    if |sorted| == 0 then [p]
    else
      var last := sorted[|sorted| - 1];
      if last.income <= p.income then sorted + [p]
      else
        var front := sorted[..|sorted| - 1];
        assert sorted == front + [last];
        InsertByIncome(front, p) + [last]
  }

  /** Inserting into a sorted sequence keeps it sorted. */
  lemma {:induction false} InsertByIncomeSorted(sorted: seq<Place>, p: Place)
    requires SortedByIncome(sorted)
    ensures SortedByIncome(InsertByIncome(sorted, p))
  {
    if |sorted| > 0 {
      var last := sorted[|sorted| - 1];
      if last.income > p.income {
        var front := sorted[..|sorted| - 1];
        var r' := InsertByIncome(front, p);
        InsertByIncomeSorted(front, p);
        forall i | 0 <= i < |r'| ensures r'[i].income <= last.income {
          assert r'[i] in multiset(r');
          assert r'[i] in front || r'[i] == p;
        }
      }
    }
  }

  /** `_.sortBy(ps, 'income')`: an insertion sort by income. */
  function SortByIncome(ps: seq<Place>): (r: seq<Place>)
    ensures SortedByIncome(r)
    ensures multiset(r) == multiset(ps)
  {
    if |ps| == 0 then []
    else
      var front := SortByIncome(ps[..|ps| - 1]);
      assert ps == ps[..|ps| - 1] + [ps[|ps| - 1]];
      InsertByIncomeSorted(front, ps[|ps| - 1]);
      InsertByIncome(front, ps[|ps| - 1])
  }

  // ---------------------------------------------------------------------
  // isDrawLabels: the income range of each level label

  /** The ranges `isDrawLabels` hands to the scene, or `None` when the
    * configuration hides the level labels. */
  function LevelRanges(d: Dividers, axisLabel: seq<real>, levelLabels: seq<string>)
    : (r: Option<seq<LevelRange>>)
    requires |levelLabels| <= |axisLabel| + 1
    ensures r.None? <==> !d.showLabels
    ensures r.Some? ==> |r.value| == |levelLabels|
  {
    if !d.showLabels then None
    else Some(seq(|levelLabels|, i requires 0 <= i < |levelLabels| =>
      LevelRange(if i == 0 then d.poor else axisLabel[i - 1],
                 if i == |levelLabels| - 1 then d.rich else axisLabel[i],
                 levelLabels[i])))
  }

  // ---------------------------------------------------------------------
  // drawScrollLabel, drawLeftSlider, drawRightSlider

  /** The income under the right label: the rounded high income (or `rich`
    * when it is unset), never more than `rich`. */
  function RightLabelIncome(highIncome: real, rich: real): (r: real)
    ensures r <= rich
    ensures r == rich || r == Round(if highIncome != 0.0 then highIncome else rich) as real
    ensures Round(if highIncome != 0.0 then highIncome else rich) as real <= rich ==>
              r == Round(if highIncome != 0.0 then highIncome else rich) as real
  {
    var incomeR := Round(if highIncome != 0.0 then highIncome else rich) as real;
    if incomeR > rich then rich else incomeR
  }

  /** The low label shows `minIncome` when the low handle lies left of the
    * filtered range's left point (line 953). */
  predicate LeftLabelOnMin(c: Config, xL: real) {
    Round(c.leftPoint + StreetOffset / 2.0) > Round(xL + StreetOffset / 2.0 + 4.0) && Filtered(c)
  }

  /** The high label shows `maxIncome` when the high handle lies right of the
    * filtered range's right point (line 964). */
  predicate RightLabelOnMax(c: Config, xR: real) {
    Round(c.rightPoint + StreetOffset / 2.0) < Round(xR + StreetOffset / 2.0 - 1.0) && Filtered(c)
  }

  /** An income as a label shows it: in the page's currency, through `roundIncome`. */
  function Shown(c: Config, income: real): real {
    c.roundIncome(income * c.currencyValue)
  }

  /** A bound of the filtered range as a label shows it: rounded in the
    * page's currency, then through `roundIncome`. */
  function ShownBound(c: Config, bound: real): real {
    c.roundIncome(Round(bound * c.currencyValue) as real)
  }

  /** `drawScrollLabel`: creates the two labels if needed and writes the
    * currency amounts of the range into them. */
  function ScrollLabelDrawn(c: Config, low: real, high: real, sc: Scene): (r: Scene)
    ensures r.handles.leftScrollText && r.handles.rightScrollText
    ensures r.leftScrollLabel.Amount? && r.rightScrollLabel.Amount?
    ensures r.leftShadeWidth == sc.leftShadeWidth && r.rightShadeWidth == sc.rightShadeWidth
    ensures r.rightStreetShadeX == sc.rightStreetShadeX && r.rightHomesShadeX == sc.rightHomesShadeX
  {
    // `+lowIncome ? +lowIncome : 0` only guards against NaN
    var incomeL := Round(low) as real;
    var incomeR := RightLabelIncome(high, c.dividersData.rich);
    var shownL :=
      if LeftLabelOnMin(c, c.scale.toPixel(incomeL))
      then ShownBound(c, c.minIncome)
      else Shown(c, incomeL);
    var shownR :=
      if RightLabelOnMax(c, c.scale.toPixel(incomeR))
      then ShownBound(c, c.maxIncome)
      else Shown(c, incomeR);
    sc.(handles := sc.handles.(leftScrollText := true, rightScrollText := true),
        leftScrollLabel := Amount(shownL), rightScrollLabel := Amount(shownR))
  }

  /** On a filtered desktop page the low handle snaps to the filter's left
    * point when it is dragged past it (lines 670-672). */
  predicate LeftSnaps(c: Config, x: real) {
    Filtered(c) && Round(c.leftPoint + StreetOffset / 2.0) > Round(x + StreetOffset / 2.0 + 4.0)
    && !c.isMobile
  }

  /** The high handle's snap, under the grouping of line 775 (lines 775-777). */
  predicate RightSnaps(c: Config, x: real) {
    RightFilteredAsWritten(c) && Round(c.rightPoint + StreetOffset / 2.0) < Round(x + StreetOffset / 2.0 - 1.0)
    && !c.isMobile
  }

  /** The low handle moved to `x` (snapped on a filtered page) and the low
    * income read back through the scale; the label is not yet redrawn. */
  function LeftPlaced(s: Street, x: real): (r: Street)
    ensures r.config == s.config && r.session == s.session
    ensures r.highIncome == s.highIncome && r.sliderRightBorder == s.sliderRightBorder
    ensures r.chosenPlaces == s.chosenPlaces && r.placesArray == s.placesArray
    ensures r.lowIncome == s.config.scale.toIncome(x)
    ensures r.sliderLeftBorder == Some(if LeftSnaps(s.config, x) then s.config.leftPoint - 12.0 else x)
  {
    var c := s.config;
    var border := if LeftSnaps(c, x) then c.leftPoint - 12.0 else x;
    s.(sliderLeftBorder := Some(border), lowIncome := c.scale.toIncome(x),
       scene := s.scene.(
         handles := s.scene.handles.(leftScrollOpacityHomes := true, leftScrollOpacityStreet := true,
                                     leftScrollOpacityLabels := true, leftScroll := true),
         leftShadeWidth := border + StreetOffset / 2.0))
  }

  /** Both labels redrawn for the current range. */
  function LabelDrawn(s: Street): (r: Street)
    ensures r.scene == ScrollLabelDrawn(s.config, s.lowIncome, s.highIncome, s.scene)
  {
    s.(scene := ScrollLabelDrawn(s.config, s.lowIncome, s.highIncome, s.scene))
  }

  /** `drawLeftSlider(x, init)`. */
  function LeftSliderDrawn(s: Street, x: real, init: bool): (r: Street)
    ensures r.config == s.config && r.session == s.session
    ensures r.highIncome == s.highIncome && r.sliderRightBorder == s.sliderRightBorder
    ensures r.chosenPlaces == s.chosenPlaces && r.placesArray == s.placesArray
  {
    if LeftPinned(s) then s
    else if init then LeftPlaced(s, x)
    else LabelDrawn(LeftPlaced(s, x))
  }

  /** The high handle moved to `x`, with the snap and the homes shade offset
    * that the grouping of line 775 gives; the label is not yet redrawn. */
  function RightPlaced(s: Street, x: real): (r: Street)
    ensures r.config == s.config && r.session == s.session
    ensures r.lowIncome == s.lowIncome && r.sliderLeftBorder == s.sliderLeftBorder
    ensures r.chosenPlaces == s.chosenPlaces && r.placesArray == s.placesArray
    ensures r.highIncome == s.config.scale.toIncome(x)
    ensures r.sliderRightBorder == Some(if RightSnaps(s.config, x) then s.config.rightPoint + 12.0 else x)
  {
    var c := s.config;
    var snap := RightSnaps(c, x);
    s.(sliderRightBorder := Some(if snap then c.rightPoint + 12.0 else x), highIncome := c.scale.toIncome(x),
       scene := s.scene.(
         handles := s.scene.handles.(rightScrollOpacityHomes := true, rightScrollOpacityStreet := true,
                                     rightScrollOpacityLabels := true, rightScroll := true),
         rightStreetShadeX :=
           if snap then c.rightPoint + StreetOffset / 2.0 + 12.0 else x + StreetOffset / 2.0,
         rightHomesShadeX :=
           if snap then c.rightPoint + StreetOffset / 2.0 + 12.0
           else if RightFilteredAsWritten(c) then x + StreetOffset / 2.0 + 1.5
           else x + StreetOffset / 2.0,
         rightShadeWidth :=
           if snap then c.width + StreetOffset / 2.0 else c.width + StreetOffset / 2.0 - x))
  }

  /** `drawRightSlider(x, init)`, with the grouping of line 775 as written. */
  function RightSliderDrawn(s: Street, x: real, init: bool): (r: Street)
    ensures r.config == s.config && r.session == s.session
    ensures r.lowIncome == s.lowIncome && r.sliderLeftBorder == s.sliderLeftBorder
    ensures r.chosenPlaces == s.chosenPlaces && r.placesArray == s.placesArray
  {
    if RightPinned(s) then s
    else if init then RightPlaced(s, x)
    else LabelDrawn(RightPlaced(s, x))
  }

  /** `drawScale(places, ...)` without the scene: the deduplicated, sorted
    * places and, when there are any, both handles at the current range. */
  function ScaleDrawn(s: Street, places: seq<Place>): (r: Street)
    ensures r.config == s.config && r.session == s.session
  {
    if |places| == 0 then s
    else HandlesRedrawn(s.(placesArray := SortByIncome(UniqById(places))))
  }

  /** The closing `drawLeftSlider(scale(lowIncome), true)` and
    * `drawRightSlider(scale(highIncome), true)` of `drawScale`,
    * `drawHoverHouse` and `clearAndRedraw`. */
  function HandlesRedrawn(s: Street): (r: Street)
    ensures r.config == s.config && r.session == s.session
    ensures r.placesArray == s.placesArray && r.chosenPlaces == s.chosenPlaces
  {
    var s2 := LeftSliderDrawn(s, s.config.scale.toPixel(s.lowIncome), true);
    RightSliderDrawn(s2, s2.config.scale.toPixel(s2.highIncome), true)
  }

  /** `removeSliders`: forgets both handles. */
  function SlidersRemoved(s: Street): (r: Street)
    ensures r.config == s.config && r.session == s.session
    ensures !r.scene.handles.leftScroll && !r.scene.handles.rightScroll
  {
    s.(scene := s.scene.(handles := s.scene.handles.(leftScroll := false, rightScroll := false)))
  }

  /** `clearSvg`: forgets every cached element; the scene is emptied, so the
    * labels' texts go with it. */
  function SvgCleared(s: Street): (r: Street)
    ensures r.config == s.config && r.session == s.session && r.scene.handles == NoHandles
  {
    s.(scene := s.scene.(handles := NoHandles, leftScrollLabel := Blank, rightScrollLabel := Blank))
  }

  /** `drawHouses(places)`: of the state modelled here it only empties
    * `placesArray`; the house icons it appends are SVG. */
  function HousesDrawn(s: Street): (r: Street)
    ensures r.placesArray == [] && r.config == s.config && r.session == s.session
    ensures r.scene == s.scene && r.chosenPlaces == s.chosenPlaces
    ensures r.lowIncome == s.lowIncome && r.highIncome == s.highIncome
    ensures r.sliderLeftBorder == s.sliderLeftBorder && r.sliderRightBorder == s.sliderRightBorder
  {
    s.(placesArray := [])
  }

  /** `drawHoverHouse(place)`: nothing without a place; otherwise the handles
    * are removed and redrawn at the current range around the hover icon. */
  function HoverHouseDrawn(s: Street, hasPlace: bool): (r: Street)
    ensures r.config == s.config && r.session == s.session
    ensures r.placesArray == s.placesArray && r.chosenPlaces == s.chosenPlaces
  {
    if !hasPlace then s else HandlesRedrawn(SlidersRemoved(s))
  }

  /** `clearAndRedraw(places)`: nothing without places; otherwise the handles
    * are removed, the houses drawn, the hover house of `hoverPlace` drawn
    * (`hasHoverPlace` says whether it is set), and the handles redrawn. */
  function ClearedAndRedrawn(s: Street, places: seq<Place>, hasHoverPlace: bool): (r: Street)
    ensures r.config == s.config && r.session == s.session && r.chosenPlaces == s.chosenPlaces
  {
    if |places| == 0 then s
    else HandlesRedrawn(HoverHouseDrawn(HousesDrawn(SlidersRemoved(s)), hasHoverPlace))
  }

  // ---------------------------------------------------------------------
  // mousedown / touchstart on the track and on the handles

  function TrackPressed(d: Session): (r: Session)
    ensures r.draggingSliders
  { d.(draggingSliders := true) }

  function LeftHandlePressed(d: Session): (r: Session)
    ensures r.sliderLeftMove
  { d.(sliderLeftMove := true) }

  function RightHandlePressed(d: Session): (r: Session)
    ensures r.sliderRightMove
  { d.(sliderRightMove := true) }

  // ---------------------------------------------------------------------
  // mousemove / touchmove

  /** The pixel constants of one pointer kind's move handler. */
  datatype MoveRules = MoveRules(
    grabLeft: real, grabRight: real, filteredRightReach: real,
    trackMin: real, trackRightReach: real, trackLeftShift: real, trackRightShift: real,
    leftReach: real, leftMin: real, leftShift: real,
    rightGap: real, rightReach: real, rightShift: real)

  /** Lines 405-439 for the mouse, lines 463-497 for touch. */
  function Rules(p: Pointer): MoveRules {
    match p
    case Mouse => MoveRules(45.0, 56.0, 76.0, 50.0, 60.0, 47.0, 57.0, 17.0, 52.0, 47.0, 87.0, 57.0, 57.0)
    case Touch => MoveRules(35.0, 45.0, 75.0, 35.0, 50.0, 30.0, 40.0, -25.0, 35.0, 30.0, 102.0, 50.0, 40.0)
  }

  /** Below this viewport width the move handler ignores the event. */
  function Breakpoint(c: Config, p: Pointer): int {
    match p
    case Mouse => c.mobileWidth
    case Touch => c.mobileSize
  }

  /** The pre-drag snapshot, taken when either half of it is unset. */
  function Snapshotted(s: Street): (r: Street)
    ensures r.session.currentLowIncome == (if s.session.currentHighIncome == 0.0 || s.session.currentLowIncome == 0.0
                                           then s.lowIncome else s.session.currentLowIncome)
    ensures r.session.currentHighIncome == (if s.session.currentHighIncome == 0.0 || s.session.currentLowIncome == 0.0
                                            then s.highIncome else s.session.currentHighIncome)
  {
    if s.session.currentHighIncome == 0.0 || s.session.currentLowIncome == 0.0 then
      s.(session := s.session.(currentLowIncome := s.lowIncome, currentHighIncome := s.highIncome))
    else s
  }

  /** The grab offsets of a track drag, captured at the first move.  Against
    * an `undefined` border the offset is `NaN`, which is falsy like an unset
    * offset, is recomputed at the next move like one, and fails every
    * comparison (the test `BordersSet` in `TrackMoved`): it is 0.0 here. */
  function Grabbed(s: Street, k: MoveRules, x: real): (r: Session)
    ensures r.draggingSliders == s.session.draggingSliders
    ensures r.sliderLeftMove == s.session.sliderLeftMove && r.sliderRightMove == s.session.sliderRightMove
    ensures r.currentLowIncome == s.session.currentLowIncome
    ensures r.currentHighIncome == s.session.currentHighIncome
    ensures s.session.distanceDraggingLeftSlider != 0.0 ==>
              r.distanceDraggingLeftSlider == s.session.distanceDraggingLeftSlider
    ensures s.session.distanceDraggingRightSlider != 0.0 ==>
              r.distanceDraggingRightSlider == s.session.distanceDraggingRightSlider
  {
    var d := s.session;
    d.(distanceDraggingLeftSlider :=
         if d.distanceDraggingLeftSlider != 0.0 then d.distanceDraggingLeftSlider
         else if s.sliderLeftBorder.Some? then x - k.grabLeft - s.sliderLeftBorder.value
         else 0.0,
       distanceDraggingRightSlider :=
         if d.distanceDraggingRightSlider != 0.0 then d.distanceDraggingRightSlider
         else if s.sliderRightBorder.Some? then s.sliderRightBorder.value - (x - k.grabRight)
         else 0.0)
  }

  /** Both borders are defined, so the grab offsets are numbers. */
  predicate BordersSet(s: Street) {
    s.sliderLeftBorder.Some? && s.sliderRightBorder.Some?
  }

  /** Whether both handles, offset by the grab offsets `dl` and `dr`, stay
    * inside the street (or the filter's points on a filtered page). */
  predicate TrackInBounds(c: Config, k: MoveRules, x: real, dl: real, dr: real) {
    if Filtered(c) then x - dl >= c.leftPoint + 40.0 && x + dr <= c.rightPoint + k.filteredRightReach
    else x - dl >= k.trackMin && x + dr <= c.width + k.trackRightReach
  }

  /** Where a track drag puts the low handle. */
  function TrackLeftX(c: Config, k: MoveRules, x: real, dl: real): real {
    if Filtered(c) then x - 57.0 - dl else x - k.trackLeftShift - dl
  }

  /** Where a track drag puts the high handle. */
  function TrackRightX(c: Config, k: MoveRules, x: real, dr: real): real {
    if Filtered(c) then x - 57.0 + dr else x - k.trackRightShift + dr
  }

  /** Both handles redrawn as a track drag moves them. */
  function BothDrawn(s: Street, leftX: real, rightX: real): (r: Street)
    ensures r.config == s.config && r.session == s.session
  {
    RightSliderDrawn(LeftSliderDrawn(s.(chosenPlaces := []), leftX, false), rightX, false)
  }

  /** A move while the whole track is dragged: the grab offsets are taken
    * once, then both handles follow the pointer while they stay in bounds. */
  function TrackMoved(s: Street, k: MoveRules, x: real): (r: Street)
    ensures r.session == Grabbed(s, k, x) && r.config == s.config
  {
    var s2 := s.(session := Grabbed(s, k, x));
    var dl := s2.session.distanceDraggingLeftSlider;
    var dr := s2.session.distanceDraggingRightSlider;
    if BordersSet(s) && TrackInBounds(s.config, k, x, dl, dr) then
      BothDrawn(s2, TrackLeftX(s.config, k, x, dl), TrackRightX(s.config, k, x, dr))
    else s2
  }

  /** Inside the window in which a grabbed low handle follows the pointer. */
  predicate InLeftWindow(s: Street, k: MoveRules, x: real) {
    s.sliderRightBorder.Some? && x <= s.sliderRightBorder.value + k.leftReach && x >= k.leftMin
  }

  /** Inside the window in which a grabbed high handle follows the pointer. */
  predicate InRightWindow(s: Street, k: MoveRules, x: real) {
    s.sliderLeftBorder.Some? && s.sliderLeftBorder.value + k.rightGap <= x && x <= s.config.width + k.rightReach
  }

  /** What an effective move does once the snapshot is taken: a track drag
    * moves both handles, a grabbed handle follows the pointer inside its
    * window, and anything else leaves the state as it is. */
  function Dragged(s: Street, k: MoveRules, x: real): (r: Street)
    ensures r.config == s.config
  {
    if TrackDrag(s.session) then TrackMoved(s, k, x)
    else if s.session.sliderLeftMove && InLeftWindow(s, k, x) then LeftSliderDrawn(s, x - k.leftShift, false)
    else if s.session.sliderRightMove && InRightWindow(s, k, x) then RightSliderDrawn(s, x - k.rightShift, false)
    else s
  }

  /** The move handler of pointer kind `p` at page position `x`. */
  function Moved(s: Street, p: Pointer, x: real): (r: Street)
    ensures r.config == s.config
  {
    if s.config.windowInnerWidth < Breakpoint(s.config, p) || !Active(s.session) then s
    else Dragged(Snapshotted(s), Rules(p), x)
  }

  // ---------------------------------------------------------------------
  // mouseup / touchend and pressedSlider

  /** A track press with no captured grab offset. */
  predicate QuietTrack(d: Session) {
    d.draggingSliders && d.distanceDraggingLeftSlider == 0.0 && d.distanceDraggingRightSlider == 0.0
  }

  /** A low-handle release that did not change the low income. */
  predicate QuietLeft(s: Street) {
    s.session.sliderLeftMove
    && (s.session.currentLowIncome == 0.0 || s.session.currentLowIncome == s.lowIncome)
  }

  /** A high-handle release that did not change the high income. */
  predicate QuietRight(s: Street) {
    s.session.sliderRightMove
    && (s.session.currentHighIncome == 0.0 || s.session.currentHighIncome == s.highIncome)
  }

  predicate Quiet(s: Street) {
    QuietTrack(s.session) || QuietLeft(s) || QuietRight(s)
  }

  /** Empties both labels when either exists. */
  function LabelsCleared(sc: Scene): (r: Scene)
    ensures r.handles == sc.handles
    ensures sc.handles.leftScrollText || sc.handles.rightScrollText ==>
              r.leftScrollLabel == Blank && r.rightScrollLabel == Blank
  {
    if sc.handles.leftScrollText || sc.handles.rightScrollText then
      sc.(leftScrollLabel := Blank, rightScrollLabel := Blank)
    else sc
  }

  /** The high income after release: overshooting `rich` is capped just above it. */
  function CappedHigh(highIncome: real, rich: real): (r: real)
    ensures highIncome > rich ==> r == rich + RichEpsilon
    ensures highIncome <= rich ==> r == highIncome
  {
    if highIncome > rich then rich + RichEpsilon else highIncome
  }

  /** `pressedSlider` on the state. */
  function Released(s: Street): (r: Street)
    ensures r.config == s.config && r.lowIncome == s.lowIncome
  {
    var d := s.session;
    if QuietTrack(d) then
      s.(session := d.(draggingSliders := false,
                       distanceDraggingLeftSlider := 0.0, distanceDraggingRightSlider := 0.0),
         scene := LabelsCleared(s.scene))
    else if QuietLeft(s) then
      s.(session := d.(sliderLeftMove := false, currentLowIncome := 0.0, currentHighIncome := 0.0),
         scene := LabelsCleared(s.scene))
    else if QuietRight(s) then
      s.(session := d.(sliderRightMove := false, currentLowIncome := 0.0, currentHighIncome := 0.0),
         scene := LabelsCleared(s.scene))
    else
      s.(session := Idle, highIncome := CappedHigh(s.highIncome, s.config.dividersData.rich))
  }

  /** The events a non-quiet release sends, from the capped range. */
  function Emissions(low: real, high: real, minIncome: real, maxIncome: real, filtered: bool)
    : seq<IncomeRange>
  {
    if filtered then
      (if low < minIncome then [IncomeRange(Round(minIncome - 3.0), Round(high))] else [])
      + (if high > maxIncome then [IncomeRange(Round(low), Round(maxIncome + 5.0))] else [])
      + (if high <= maxIncome && low >= minIncome then [IncomeRange(Round(low), Round(high))] else [])
    else [IncomeRange(Round(low), Round(high))]
  }

  /** The events `pressedSlider` sends on the `filter` subject. */
  function ReleaseEvents(s: Street): seq<IncomeRange> {
    if Quiet(s) then []
    else Emissions(s.lowIncome, CappedHigh(s.highIncome, s.config.dividersData.rich),
                   s.config.minIncome, s.config.maxIncome, Filtered(s.config))
  }

  /** The mouseup / touchend handler: ignored on a narrow viewport or with no drag. */
  predicate UpIgnored(s: Street) {
    s.config.windowInnerWidth < s.config.mobileSize || !Active(s.session)
  }

  function Up(s: Street): (r: Street)
    ensures r.config == s.config
  {
    if UpIgnored(s) then s else Released(s)
  }

  function UpEvents(s: Street): seq<IncomeRange> {
    if UpIgnored(s) then [] else ReleaseEvents(s)
  }

  // ---------------------------------------------------------------------
  // The invariant the handlers keep

  /** Both labels exist or neither does, and a label shows an amount only
    * while it exists. */
  ghost predicate SceneConsistent(sc: Scene) {
    && (sc.handles.leftScrollText <==> sc.handles.rightScrollText)
    && (sc.leftScrollLabel.Amount? ==> sc.handles.leftScrollText)
    && (sc.rightScrollLabel.Amount? ==> sc.handles.rightScrollText)
  }

  /** Grab offsets are captured only during a track drag. */
  ghost predicate SessionConsistent(d: Session) {
    (d.distanceDraggingLeftSlider != 0.0 || d.distanceDraggingRightSlider != 0.0) ==> d.draggingSliders
  }

  ghost predicate Consistent(s: Street) {
    SceneConsistent(s.scene) && SessionConsistent(s.session)
  }
}
