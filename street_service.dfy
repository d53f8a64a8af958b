/**
 * The street controller as an object whose handlers update its fields in
 * place.  Each method is proved to leave the object in the state the
 * matching function of `StreetModel` computes, so every lemma of
 * `StreetProperties` applies to it; `emitted` records what the controller
 * sends on its `filter` subject.
 */
module StreetService {
  import opened Optional
  import opened StreetModel
  import StreetProperties

  class StreetDrawService {
    /** What `init` configures, the injected `roundIncome`, device and
      * breakpoints, and the values assigned from outside through `set`. */
    var config: Config

    // the range and the handles' borders (`None` while `undefined`)
    var lowIncome: real
    var highIncome: real
    var sliderLeftBorder: Option<real>
    var sliderRightBorder: Option<real>

    // the drag session
    var sliderLeftMove: bool
    var sliderRightMove: bool
    var draggingSliders: bool
    var distanceDraggingLeftSlider: real
    var distanceDraggingRightSlider: real
    var currentLowIncome: real
    var currentHighIncome: real

    /** The cached scene elements, the shades' geometry and the labels' texts. */
    var scene: Scene

    var chosenPlaces: seq<Place>
    var placesArray: seq<Place>

    /** Every event sent on `filter`, oldest first. */
    ghost var emitted: seq<IncomeRange>

    function Session(): Session
      reads this
    {
      StreetModel.Session(sliderLeftMove, sliderRightMove, draggingSliders,
                          distanceDraggingLeftSlider, distanceDraggingRightSlider,
                          currentLowIncome, currentHighIncome)
    }

    /** The whole controller as a value of the model. */
    function State(): Street
      reads this
    {
      Street(config, lowIncome, highIncome, sliderLeftBorder, sliderRightBorder,
             Session(), scene, chosenPlaces, placesArray)
    }

    ghost predicate Valid()
      reads this
    {
      Consistent(State())
    }

    /** A controller with nothing configured, nothing drawn and no drag. */
    constructor(roundIncome: real -> real, isMobile: bool, mobileWidth: int, mobileSize: int,
                innerWidth: int)
      ensures Valid()
      ensures Session() == Idle && scene.handles == NoHandles
      ensures config.roundIncome == roundIncome && config.isMobile == isMobile
      ensures config.mobileWidth == mobileWidth && config.mobileSize == mobileSize
      ensures config.windowInnerWidth == innerWidth && placesArray == [] && emitted == []
      ensures sliderLeftBorder == None && sliderRightBorder == None
    {
      config := StreetModel.Config(
        roundIncome, isMobile, mobileWidth, mobileSize, "", None, None, [], [],
        Dividers(0.0, 0.0, 0.0, 0.0, 0.0, "", "", "", "", false),
        0.0, 0.0, 0.0, innerWidth, Scale(v => v, v => v), 0.0, 0.0, 0.0);
      lowIncome, highIncome, sliderLeftBorder, sliderRightBorder := 0.0, 0.0, None, None;
      sliderLeftMove, sliderRightMove, draggingSliders := false, false, false;
      distanceDraggingLeftSlider, distanceDraggingRightSlider := 0.0, 0.0;
      currentLowIncome, currentHighIncome := 0.0, 0.0;
      scene := StreetModel.Scene(NoHandles, 0.0, 0.0, 0.0, 0.0, Blank, Blank);
      chosenPlaces, placesArray := [], [];
      emitted := [];
    }

    /** `init`; the SVG's measured width, `window.innerWidth` and the log
      * scale over `[poor, rich]` are passed in. */
    method Init(lowIncome: real, highIncome: real, drawDividers: Dividers,
                regions: seq<string>, countries: seq<string>, thing: string,
                svgWidth: int, innerWidth: int, scale: Scale)
      requires Valid()
      modifies this
      ensures State() == Initialized(old(State()), lowIncome, highIncome, drawDividers,
                                     regions, countries, thing, svgWidth, innerWidth, scale)
      ensures emitted == old(emitted) && Valid()
    {
      config := config.(
        thingname := thing, countries := First(countries), regions := First(regions),
        axisLabel := [drawDividers.low, drawDividers.medium, drawDividers.high],
        levelLabels := [drawDividers.firstLabelName, drawDividers.secondLabelName,
                        drawDividers.thirdLabelName, drawDividers.fourthLabelName],
        dividersData := drawDividers, minIncome := drawDividers.poor, maxIncome := drawDividers.rich);
      this.lowIncome := if lowIncome != 0.0 then lowIncome else drawDividers.poor;
      this.highIncome := if highIncome != 0.0 then highIncome else drawDividers.rich;
      config := config.(width := svgWidth as real - StreetOffset, windowInnerWidth := innerWidth,
                        scale := scale);
    }

    /** `drawScrollLabel`: writes both labels for the current range. */
    method DrawScrollLabel()
      modifies this`scene
      ensures scene == ScrollLabelDrawn(config, lowIncome, highIncome, old(scene))
    {
      var c := config;
      var incomeL := Round(lowIncome) as real;
      var incomeR := RightLabelIncome(highIncome, c.dividersData.rich);
      var xL := c.scale.toPixel(incomeL);
      var xR := c.scale.toPixel(incomeR);
      var shownL := Shown(c, incomeL);
      var shownR := Shown(c, incomeR);
      if LeftLabelOnMin(c, xL) {
        shownL := ShownBound(c, c.minIncome);
      }
      if RightLabelOnMax(c, xR) {
        shownR := ShownBound(c, c.maxIncome);
      }
      scene := scene.(handles := scene.handles.(leftScrollText := true, rightScrollText := true),
                      leftScrollLabel := Amount(shownL), rightScrollLabel := Amount(shownR));
    }

    /** The part of `drawLeftSlider` that moves the low handle and its shade. */
    method PlaceLeftHandle(x: real)
      modifies this`sliderLeftBorder, this`scene, this`lowIncome
      ensures State() == LeftPlaced(old(State()), x)
    {
      var c := config;
      sliderLeftBorder := Some(x);
      var handles := scene.handles.(leftScrollOpacityHomes := true, leftScrollOpacityStreet := true,
                                    leftScrollOpacityLabels := true, leftScroll := true);
      var shadeWidth := x + StreetOffset / 2.0;
      if LeftSnaps(c, x) {
        sliderLeftBorder := Some(c.leftPoint - 12.0);
        shadeWidth := c.leftPoint - 12.0 + StreetOffset / 2.0;
      }
      scene := scene.(handles := handles, leftShadeWidth := shadeWidth);
      lowIncome := c.scale.toIncome(x);
    }

    /** `drawLeftSlider(x, init)`. */
    method DrawLeftSlider(x: real, init: bool)
      requires Valid()
      modifies this
      ensures State() == LeftSliderDrawn(old(State()), x, init)
      ensures emitted == old(emitted) && Valid()
    {
      StreetProperties.SlidersConsistent(State(), x, init);
      if config.windowInnerWidth <= 568 && Round(lowIncome) as real == config.dividersData.poor {
        return;
      }
      PlaceLeftHandle(x);
      if init {
        return;
      }
      DrawScrollLabel();
    }

    /** The part of `drawRightSlider` that moves the high handle and its
      * shades, with the test of line 775 as written. */
    method PlaceRightHandle(x: real)
      modifies this`sliderRightBorder, this`scene, this`highIncome
      ensures State() == RightPlaced(old(State()), x)
    {
      var c := config;
      sliderRightBorder := Some(x);
      var handles := scene.handles.(rightScrollOpacityHomes := true, rightScrollOpacityStreet := true,
                                    rightScrollOpacityLabels := true, rightScroll := true);
      var streetX, homesX, shadeWidth := x + StreetOffset / 2.0, x + StreetOffset / 2.0, c.width + StreetOffset / 2.0 - x;
      if RightFilteredAsWritten(c) {
        if RightSnaps(c, x) {
          sliderRightBorder := Some(c.rightPoint + 12.0);
          streetX, shadeWidth := c.rightPoint + StreetOffset / 2.0 + 12.0, c.width + StreetOffset / 2.0;
          homesX := c.rightPoint + StreetOffset / 2.0 + 12.0;
        } else {
          homesX := x + StreetOffset / 2.0 + 1.5;
        }
      }
      scene := scene.(handles := handles, rightStreetShadeX := streetX, rightHomesShadeX := homesX,
                      rightShadeWidth := shadeWidth);
      highIncome := c.scale.toIncome(x);
    }

    /** `drawRightSlider(x, init)`. */
    method DrawRightSlider(x: real, init: bool)
      requires Valid()
      modifies this
      ensures State() == RightSliderDrawn(old(State()), x, init)
      ensures emitted == old(emitted) && Valid()
    {
      StreetProperties.SlidersConsistent(State(), x, init);
      if config.windowInnerWidth <= 566 && Round(highIncome) as real == config.dividersData.rich {
        return;
      }
      PlaceRightHandle(x);
      if init {
        return;
      }
      DrawScrollLabel();
    }

    /** `drawScale(places, ...)`: stores the deduplicated, sorted places and,
      * when there are any, draws both handles at the current range. */
    method DrawScale(places: seq<Place>)
      requires Valid()
      modifies this
      ensures State() == ScaleDrawn(old(State()), places)
      ensures emitted == old(emitted) && Valid()
    {
      if |places| == 0 {
        return;
      }
      placesArray := SortByIncome(UniqById(places));
      DrawLeftSlider(config.scale.toPixel(lowIncome), true);
      DrawRightSlider(config.scale.toPixel(highIncome), true);
    }

    /** `removeSliders`. */
    method RemoveSliders()
      requires Valid()
      modifies this
      ensures State() == SlidersRemoved(old(State()))
      ensures emitted == old(emitted) && Valid()
    {
      scene := scene.(handles := scene.handles.(leftScroll := false, rightScroll := false));
    }

    /** `drawHouses(places)`: empties `placesArray` before drawing the icons. */
    method DrawHouses()
      requires Valid()
      modifies this`placesArray
      ensures State() == HousesDrawn(old(State()))
      ensures Valid()
    {
      placesArray := [];
    }

    /** `drawHoverHouse(place)`; `hasPlace` says whether a place is given. */
    method DrawHoverHouse(hasPlace: bool)
      requires Valid()
      modifies this
      ensures State() == HoverHouseDrawn(old(State()), hasPlace)
      ensures emitted == old(emitted) && Valid()
    {
      if !hasPlace {
        return;
      }
      RemoveSliders();
      DrawLeftSlider(config.scale.toPixel(lowIncome), true);
      DrawRightSlider(config.scale.toPixel(highIncome), true);
    }

    /** `clearAndRedraw(places)`; `hasHoverPlace` says whether `hoverPlace`
      * is set. */
    method ClearAndRedraw(places: seq<Place>, hasHoverPlace: bool)
      requires Valid()
      modifies this
      ensures State() == ClearedAndRedrawn(old(State()), places, hasHoverPlace)
      ensures emitted == old(emitted) && Valid()
    {
      if |places| == 0 {
        return;
      }
      RemoveSliders();
      DrawHouses();
      DrawHoverHouse(hasHoverPlace);
      DrawLeftSlider(config.scale.toPixel(lowIncome), true);
      DrawRightSlider(config.scale.toPixel(highIncome), true);
    }

    /** `clearSvg`: every cached element is forgotten and the scene emptied. */
    method ClearSvg()
      requires Valid()
      modifies this
      ensures State() == SvgCleared(old(State()))
      ensures emitted == old(emitted) && Valid()
    {
      scene := scene.(handles := NoHandles, leftScrollLabel := Blank, rightScrollLabel := Blank);
    }

    /** mousedown / touchstart on the street, the axis or the dashes. */
    method PressTrack()
      requires Valid()
      modifies this
      ensures State() == old(State()).(session := TrackPressed(old(Session())))
      ensures emitted == old(emitted) && Valid()
    {
      draggingSliders := true;
    }

    /** mousedown / touchstart on the low handle, which exists once drawn. */
    method PressLeftHandle()
      requires Valid() && scene.handles.leftScroll
      modifies this
      ensures State() == old(State()).(session := LeftHandlePressed(old(Session())))
      ensures emitted == old(emitted) && Valid()
    {
      sliderLeftMove := true;
    }

    /** mousedown / touchstart on the high handle, which exists once drawn. */
    method PressRightHandle()
      requires Valid() && scene.handles.rightScroll
      modifies this
      ensures State() == old(State()).(session := RightHandlePressed(old(Session())))
      ensures emitted == old(emitted) && Valid()
    {
      sliderRightMove := true;
    }

    /** Takes the pre-drag snapshot of the range when either half is unset. */
    method TakeSnapshot()
      modifies this`currentLowIncome, this`currentHighIncome
      ensures Session() == Snapshotted(old(State())).session
    {
      if currentHighIncome == 0.0 || currentLowIncome == 0.0 {
        currentLowIncome := lowIncome;
        currentHighIncome := highIncome;
      }
    }

    /** Captures each grab offset of a track drag that is still unset; one
      * taken from an `undefined` border is `NaN`, held as 0.0. */
    method Grab(k: MoveRules, x: real)
      modifies this`distanceDraggingLeftSlider, this`distanceDraggingRightSlider
      ensures Session() == Grabbed(old(State()), k, x)
    {
      if distanceDraggingLeftSlider == 0.0 {
        distanceDraggingLeftSlider := if sliderLeftBorder.Some? then x - k.grabLeft - sliderLeftBorder.value else 0.0;
      }
      if distanceDraggingRightSlider == 0.0 {
        distanceDraggingRightSlider := if sliderRightBorder.Some? then sliderRightBorder.value - (x - k.grabRight) else 0.0;
      }
    }

    /** A move while the whole track is dragged. */
    method DragTrack(k: MoveRules, x: real)
      requires Valid() && draggingSliders
      modifies this
      ensures State() == TrackMoved(old(State()), k, x)
      ensures emitted == old(emitted) && Valid()
    {
      ghost var s := State();
      StreetProperties.TrackMovedConsistent(s, k, x);
      Grab(k, x);
      assert State() == s.(session := Grabbed(s, k, x));
      var c := config;
      var dl, dr := distanceDraggingLeftSlider, distanceDraggingRightSlider;
      var inBounds, leftX, rightX;
      if Filtered(c) {
        inBounds := x - dl >= c.leftPoint + 40.0 && x + dr <= c.rightPoint + k.filteredRightReach;
        leftX, rightX := x - 57.0 - dl, x - 57.0 + dr;
      } else {
        inBounds := x - dl >= k.trackMin && x + dr <= c.width + k.trackRightReach;
        leftX, rightX := x - k.trackLeftShift - dl, x - k.trackRightShift + dr;
      }
      // a `NaN` offset fails both comparisons
      inBounds := inBounds && sliderLeftBorder.Some? && sliderRightBorder.Some?;
      assert inBounds == (BordersSet(s) && TrackInBounds(c, k, x, dl, dr));
      assert leftX == TrackLeftX(c, k, x, dl) && rightX == TrackRightX(c, k, x, dr);
      if inBounds {
        ghost var s2 := State();
        chosenPlaces := [];
        DrawLeftSlider(leftX, false);
        DrawRightSlider(rightX, false);
        assert State() == BothDrawn(s2, leftX, rightX);
      }
    }

    /** An effective move after the snapshot is taken. */
    method Drag(k: MoveRules, x: real)
      requires Valid()
      modifies this
      ensures State() == Dragged(old(State()), k, x)
      ensures emitted == old(emitted) && Valid()
    {
      ghost var s := State();
      if draggingSliders && !sliderLeftMove && !sliderRightMove {
        DragTrack(k, x);
      } else if sliderLeftMove && sliderRightBorder.Some? && x <= sliderRightBorder.value + k.leftReach
                && x >= k.leftMin {
        assert !TrackDrag(s.session) && InLeftWindow(s, k, x);
        DrawLeftSlider(x - k.leftShift, false);
      } else if sliderRightMove && sliderLeftBorder.Some? && sliderLeftBorder.value + k.rightGap <= x
                && x <= config.width + k.rightReach {
        assert !TrackDrag(s.session) && !(s.session.sliderLeftMove && InLeftWindow(s, k, x));
        assert InRightWindow(s, k, x);
        DrawRightSlider(x - k.rightShift, false);
      }
    }

    /** The mousemove handler (`p == Mouse`, `x` is `pageX`) and the
      * touchmove handler (`p == Touch`, `x` is the first touch's `pageX`). */
    method PointerMove(p: Pointer, x: real)
      requires Valid()
      modifies this
      ensures State() == Moved(old(State()), p, x)
      ensures emitted == old(emitted) && Valid()
    {
      var breakpoint := if p == Mouse then config.mobileWidth else config.mobileSize;
      if config.windowInnerWidth < breakpoint || (!sliderLeftMove && !sliderRightMove && !draggingSliders) {
        return;
      }
      ghost var s := State();
      TakeSnapshot();
      assert State() == Snapshotted(s);
      StreetProperties.MoveConsistent(s, p, x);
      Drag(Rules(p), x);
    }

    /** Empties both scroll labels when either of them exists. */
    method ClearScrollLabels()
      modifies this`scene
      ensures scene == LabelsCleared(old(scene))
    {
      if scene.handles.leftScrollText || scene.handles.rightScrollText {
        scene := scene.(leftScrollLabel := Blank, rightScrollLabel := Blank);
      }
    }

    /** Sends the range on `filter` once the drag is over: with an active
      * filter, an income beyond the data's bounds is replaced by a rounded
      * bound just outside them, one event per crossed bound. */
    ghost method SendRange()
      modifies this`emitted
      ensures emitted == old(emitted) + Emissions(lowIncome, highIncome, config.minIncome,
                                                  config.maxIncome, Filtered(config))
    {
      var c := config;
      if Filtered(c) {
        var sent := [];
        if lowIncome < c.minIncome {
          sent := sent + [IncomeRange(Round(c.minIncome - 3.0), Round(highIncome))];
        }
        if highIncome > c.maxIncome {
          sent := sent + [IncomeRange(Round(lowIncome), Round(c.maxIncome + 5.0))];
        }
        if highIncome <= c.maxIncome && lowIncome >= c.minIncome {
          sent := sent + [IncomeRange(Round(lowIncome), Round(highIncome))];
        }
        emitted := emitted + sent;
      } else {
        emitted := emitted + [IncomeRange(Round(lowIncome), Round(highIncome))];
      }
    }

    /** Ends a drag that changed the range: every flag, offset and snapshot
      * is cleared and a high income beyond `rich` is capped just above it. */
    method EndDrag()
      modifies this`draggingSliders, this`sliderLeftMove, this`sliderRightMove
      modifies this`distanceDraggingLeftSlider, this`distanceDraggingRightSlider
      modifies this`currentLowIncome, this`currentHighIncome, this`highIncome
      ensures Session() == Idle
      ensures highIncome == CappedHigh(old(highIncome), config.dividersData.rich)
    {
      draggingSliders, sliderLeftMove, sliderRightMove := false, false, false;
      distanceDraggingLeftSlider, distanceDraggingRightSlider := 0.0, 0.0;
      currentLowIncome, currentHighIncome := 0.0, 0.0;
      if highIncome > config.dividersData.rich {
        highIncome := config.dividersData.rich + RichEpsilon;
      }
    }

    /** Release of a track press that never moved: only the track flag and
      * the (unset) offsets are reset. */
    method ReleaseUnmovedTrack()
      requires QuietTrack(Session())
      modifies this`draggingSliders, this`distanceDraggingLeftSlider
      modifies this`distanceDraggingRightSlider, this`scene
      ensures State() == Released(old(State())) && emitted == old(emitted)
    {
      draggingSliders := false;
      distanceDraggingLeftSlider, distanceDraggingRightSlider := 0.0, 0.0;
      ClearScrollLabels();
      assert Session() == old(Session()).(draggingSliders := false, distanceDraggingLeftSlider := 0.0,
                                      distanceDraggingRightSlider := 0.0);
    }

    /** Release of the low handle where the low income did not change. */
    method ReleaseUnchangedLeft()
      requires !QuietTrack(Session()) && QuietLeft(State())
      modifies this`sliderLeftMove, this`currentLowIncome, this`currentHighIncome, this`scene
      ensures State() == Released(old(State())) && emitted == old(emitted)
    {
      sliderLeftMove := false;
      currentLowIncome, currentHighIncome := 0.0, 0.0;
      ClearScrollLabels();
      assert Session() == old(Session()).(sliderLeftMove := false, currentLowIncome := 0.0,
                                      currentHighIncome := 0.0);
    }

    /** Release of the high handle where the high income did not change. */
    method ReleaseUnchangedRight()
      requires !QuietTrack(Session()) && !QuietLeft(State()) && QuietRight(State())
      modifies this`sliderRightMove, this`currentLowIncome, this`currentHighIncome, this`scene
      ensures State() == Released(old(State())) && emitted == old(emitted)
    {
      sliderRightMove := false;
      currentLowIncome, currentHighIncome := 0.0, 0.0;
      ClearScrollLabels();
      assert Session() == old(Session()).(sliderRightMove := false, currentLowIncome := 0.0,
                                      currentHighIncome := 0.0);
    }

    /** Release after a drag that changed the range: the drag ends and the
      * range is sent. */
    method ReleaseChanged()
      requires !Quiet(State())
      modifies this`draggingSliders, this`sliderLeftMove, this`sliderRightMove
      modifies this`distanceDraggingLeftSlider, this`distanceDraggingRightSlider
      modifies this`currentLowIncome, this`currentHighIncome, this`highIncome, this`emitted
      ensures State() == Released(old(State()))
      ensures emitted == old(emitted) + ReleaseEvents(old(State()))
    {
      EndDrag();
      SendRange();
    }

    /** `pressedSlider`. */
    method PressedSlider()
      requires Valid()
      modifies this
      ensures State() == Released(old(State()))
      ensures emitted == old(emitted) + ReleaseEvents(old(State()))
      ensures Valid()
    {
      StreetProperties.UpConsistent(State());
      if draggingSliders && distanceDraggingLeftSlider == 0.0 && distanceDraggingRightSlider == 0.0 {
        ReleaseUnmovedTrack();
      } else if sliderLeftMove && (currentLowIncome == 0.0 || currentLowIncome == lowIncome) {
        ReleaseUnchangedLeft();
      } else if sliderRightMove && (currentHighIncome == 0.0 || currentHighIncome == highIncome) {
        ReleaseUnchangedRight();
      } else {
        ReleaseChanged();
      }
    }

    /** The mouseup and touchend handlers. */
    method PointerUp()
      requires Valid()
      modifies this
      ensures State() == Up(old(State()))
      ensures emitted == old(emitted) + UpEvents(old(State()))
      ensures Valid()
    {
      if config.windowInnerWidth < config.mobileSize || (!sliderLeftMove && !sliderRightMove && !draggingSliders) {
        return;
      }
      PressedSlider();
    }
  }
}
