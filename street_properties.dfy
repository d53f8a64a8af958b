/**
 * What the street controller's operations guarantee, stated over the
 * functions of `StreetModel`.
 */
module StreetProperties {
  import opened Optional
  import opened StreetModel

  // ---------------------------------------------------------------------
  // drawScale: uniqBy('_id') and sortBy('income')

  lemma HasIdAppend(a: seq<Place>, p: Place, id: string)
    ensures HasId(a + [p], id) <==> HasId(a, id) || p.id == id
  {
    if HasId(a, id) {
      var k :| 0 <= k < |a| && a[k].id == id;
      assert (a + [p])[k].id == id;
    }
    if p.id == id { assert (a + [p])[|a|].id == id; }
    if HasId(a + [p], id) {
      var k :| 0 <= k < |a + [p]| && (a + [p])[k].id == id;
      if k < |a| { assert a[k].id == id; }
    }
  }

  /** uniqBy keeps every identifier of its input and invents none. */
  lemma {:induction false} UniqByIdKeepsIds(ps: seq<Place>, id: string)
    ensures HasId(UniqById(ps), id) <==> HasId(ps, id)
  {
    if |ps| > 0 {
      var front, last := ps[..|ps| - 1], ps[|ps| - 1];
      assert ps == front + [last];
      UniqByIdKeepsIds(front, id);
      HasIdAppend(front, last, id);
      HasIdAppend(UniqById(front), last, id);
    }
  }

  /** No two places that uniqBy keeps share an identifier. */
  lemma {:induction false} UniqByIdUnique(ps: seq<Place>)
    ensures UniqueIds(UniqById(ps))
  {
    if |ps| > 0 {
      var front, last := ps[..|ps| - 1], ps[|ps| - 1];
      var f := UniqById(front);
      UniqByIdUnique(front);
      if !HasId(f, last.id) {
        var r := f + [last];
        forall i, j | 0 <= i < j < |r| ensures r[i].id != r[j].id {
          if j == |r| - 1 {
            assert r[i] == f[i];
          } else {
            assert f[i] == r[i] && f[j] == r[j];
          }
        }
      }
    }
  }

  lemma FirstOccurrencePrefix(ps: seq<Place>, i: int)
    requires 0 <= i < |ps| - 1
    ensures FirstOccurrence(ps[..|ps| - 1], i) <==> FirstOccurrence(ps, i)
  {
    assert ps[..|ps| - 1][..i] == ps[..i];
  }

  /** `q` is the first place of `ps` with its identifier. */
  ghost predicate IsFirstOf(ps: seq<Place>, q: Place) {
    exists i :: FirstOccurrence(ps, i) && ps[i] == q
  }

  /** One kept place of `UniqById(ps)`, given the claim for the list
    * without its last place. */
  lemma KeptIsFirstStep(ps: seq<Place>, front: seq<Place>, j: int)
    requires |ps| > 0 && front == ps[..|ps| - 1] && 0 <= j < |UniqById(ps)|
    requires forall j' :: 0 <= j' < |UniqById(front)| ==> IsFirstOf(front, UniqById(front)[j'])
    ensures IsFirstOf(ps, UniqById(ps)[j])
  {
    var last := ps[|ps| - 1];
    var f := UniqById(front);
    var r := UniqById(ps);
    if j < |f| {
      assert r[j] == f[j];
      assert IsFirstOf(front, f[j]);
      var i :| FirstOccurrence(front, i) && front[i] == f[j];
      FirstOccurrencePrefix(ps, i);
      assert FirstOccurrence(ps, i) && ps[i] == r[j];
    } else {
      assert !HasId(f, last.id) && r[j] == last;
      UniqByIdKeepsIds(front, last.id);
      assert !HasId(front, last.id);
      assert FirstOccurrence(ps, |ps| - 1);
    }
  }

  /** Every place uniqBy keeps is the first one in the input with its identifier. */
  lemma {:induction false} UniqByIdKeepsOnlyFirst(ps: seq<Place>)
    ensures forall j :: 0 <= j < |UniqById(ps)| ==> IsFirstOf(ps, UniqById(ps)[j])
  {
    if |ps| > 0 {
      UniqByIdKeepsOnlyFirst(ps[..|ps| - 1]);
      forall j | 0 <= j < |UniqById(ps)| ensures IsFirstOf(ps, UniqById(ps)[j]) {
        KeptIsFirstStep(ps, ps[..|ps| - 1], j);
      }
    } else {
      assert UniqById(ps) == [];
    }
  }

  /** The first place of every identifier survives uniqBy. */
  lemma {:induction false} UniqByIdKeepsEveryFirst(ps: seq<Place>)
    ensures forall i :: FirstOccurrence(ps, i) ==> ps[i] in UniqById(ps)
  {
    if |ps| > 0 {
      var front, last := ps[..|ps| - 1], ps[|ps| - 1];
      var f := UniqById(front);
      UniqByIdKeepsEveryFirst(front);
      forall i | FirstOccurrence(ps, i) ensures ps[i] in UniqById(ps) {
        if i < |ps| - 1 {
          FirstOccurrencePrefix(ps, i);
          assert front[i] == ps[i];
        } else {
          assert ps[..i] == front;
          UniqByIdKeepsIds(front, last.id);
        }
      }
    }
  }

  /** With unique identifiers no place occurs twice. */
  lemma {:induction false} UniqueIdsOccurOnce(u: seq<Place>, p: Place)
    requires UniqueIds(u)
    ensures multiset(u)[p] <= 1
  {
    if |u| > 0 {
      var front, last := u[..|u| - 1], u[|u| - 1];
      assert u == front + [last];
      assert UniqueIds(front) by {
        forall i, j | 0 <= i < j < |front| ensures front[i].id != front[j].id {
          assert front[i] == u[i] && front[j] == u[j];
        }
      }
      UniqueIdsOccurOnce(front, p);
      if last == p {
        assert p !in front by {
          forall k | 0 <= k < |front| ensures front[k] != p {
            assert front[k] == u[k];
          }
        }
      }
    }
  }

  lemma RepeatedOccursTwice(r: seq<Place>, i: int, j: int)
    requires 0 <= i < j < |r| && r[i] == r[j]
    ensures multiset(r)[r[i]] >= 2
  {
    assert r == r[..j] + [r[j]] + r[j + 1..];
    assert r[..j][i] == r[i];
    assert multiset(r[..j])[r[i]] >= 1;
  }

  /** Reordering keeps identifiers unique. */
  lemma UniqueIdsPermutation(u: seq<Place>, r: seq<Place>)
    requires UniqueIds(u) && multiset(r) == multiset(u)
    ensures UniqueIds(r)
  {
    forall i, j | 0 <= i < j < |r| ensures r[i].id != r[j].id {
      if r[i] == r[j] {
        RepeatedOccursTwice(r, i, j);
        UniqueIdsOccurOnce(u, r[i]);
      } else {
        assert r[i] in multiset(u) && r[j] in multiset(u);
        var a :| 0 <= a < |u| && u[a] == r[i];
        var b :| 0 <= b < |u| && u[b] == r[j];
        assert a != b;
        if a < b { assert u[a].id != u[b].id; } else { assert u[b].id != u[a].id; }
      }
    }
  }

  /** After `drawScale` with places, `placesArray` holds the first place of
    * each identifier and nothing else, once each, ascending by income. */
  lemma DrawScalePlaces(s: Street, places: seq<Place>)
    requires |places| > 0
    ensures UniqueIds(ScaleDrawn(s, places).placesArray)
    ensures SortedByIncome(ScaleDrawn(s, places).placesArray)
    ensures forall p :: p in ScaleDrawn(s, places).placesArray <==>
              exists i :: FirstOccurrence(places, i) && places[i] == p
  {
    var u := UniqById(places);
    var r := ScaleDrawn(s, places).placesArray;
    assert r == SortByIncome(u);
    UniqByIdUnique(places);
    UniqueIdsPermutation(u, r);
    UniqByIdKeepsOnlyFirst(places);
    UniqByIdKeepsEveryFirst(places);
    forall p ensures p in r <==> exists i :: FirstOccurrence(places, i) && places[i] == p {
      assert p in r <==> p in multiset(r);
      assert p in u <==> p in multiset(u);
      if p in u {
        var j :| 0 <= j < |u| && u[j] == p;
      }
    }
  }

  // ---------------------------------------------------------------------
  // isDrawLabels

  /** The level ranges run from `poor` to `rich` without gaps: each range ends
    * where the next begins, at the divider between them. */
  lemma LevelRangesContiguous(d: Dividers, axisLabel: seq<real>, levelLabels: seq<string>)
    requires |levelLabels| <= |axisLabel| + 1
    requires d.showLabels && |levelLabels| > 0
    ensures var r := LevelRanges(d, axisLabel, levelLabels).value;
      && r[0].from == d.poor && r[|r| - 1].to == d.rich
      && (forall i :: 0 <= i < |r| - 1 ==> r[i].to == axisLabel[i] == r[i + 1].from)
      && (forall i :: 0 <= i < |r| ==> r[i].name == levelLabels[i])
  {
  }

  /** With the labels `init` sets up, the four levels are poor..low,
    * low..medium, medium..high, high..rich. */
  lemma InitLevelRanges(s: Street, lowIncome: real, highIncome: real, d: Dividers,
                        regions: seq<string>, countries: seq<string>, thing: string,
                        svgWidth: int, innerWidth: int, scale: Scale)
    requires d.showLabels
    ensures var c := Initialized(s, lowIncome, highIncome, d, regions, countries, thing,
                                 svgWidth, innerWidth, scale).config;
      LevelRanges(d, c.axisLabel, c.levelLabels) == Some([
        LevelRange(d.poor, d.low, d.firstLabelName), LevelRange(d.low, d.medium, d.secondLabelName),
        LevelRange(d.medium, d.high, d.thirdLabelName), LevelRange(d.high, d.rich, d.fourthLabelName)])
  {
    var c := Initialized(s, lowIncome, highIncome, d, regions, countries, thing,
                         svgWidth, innerWidth, scale).config;
    assert c.axisLabel == [d.low, d.medium, d.high];
    assert c.levelLabels == [d.firstLabelName, d.secondLabelName, d.thirdLabelName, d.fourthLabelName];
    var r := LevelRanges(d, c.axisLabel, c.levelLabels).value;
    assert |r| == 4;
    assert r[0] == LevelRange(d.poor, d.low, d.firstLabelName);
    assert r[1] == LevelRange(d.low, d.medium, d.secondLabelName);
    assert r[2] == LevelRange(d.medium, d.high, d.thirdLabelName);
    assert r[3] == LevelRange(d.high, d.rich, d.fourthLabelName);
    assert r == [r[0], r[1], r[2], r[3]];
  }

  // ---------------------------------------------------------------------
  // init

  /** `init` keeps truthy bounds and falls back to `poor` / `rich` for falsy
    * ones; the first country and region become the page's filter. */
  lemma InitDefaults(s: Street, lowIncome: real, highIncome: real, d: Dividers,
                     regions: seq<string>, countries: seq<string>, thing: string,
                     svgWidth: int, innerWidth: int, scale: Scale)
    ensures var t := Initialized(s, lowIncome, highIncome, d, regions, countries, thing,
                                 svgWidth, innerWidth, scale);
      && (lowIncome == 0.0 ==> t.lowIncome == d.poor)
      && (lowIncome != 0.0 ==> t.lowIncome == lowIncome)
      && (highIncome == 0.0 ==> t.highIncome == d.rich)
      && (highIncome != 0.0 ==> t.highIncome == highIncome)
      && t.config.minIncome == d.poor && t.config.maxIncome == d.rich
      && t.config.width == svgWidth as real - 60.0
      && (|countries| > 0 ==> t.config.countries == Some(countries[0]))
      && (|regions| == 0 ==> t.config.regions == None)
  {
  }

  /** Drawing the handles at the pixels of the current range leaves the range
    * as it was: `scale.invert` undoes `scale`. */
  lemma DrawScaleKeepsRange(s: Street, places: seq<Place>)
    requires IsLogScale(s.config.scale)
    ensures ScaleDrawn(s, places).lowIncome == s.lowIncome
    ensures ScaleDrawn(s, places).highIncome == s.highIncome
  {
  }

  /** `clearAndRedraw` with places empties `placesArray`, so the places
    * `drawScale` stored no longer hold after it; under a log scale it keeps
    * the range. */
  lemma ClearAndRedrawEmptiesPlaces(s: Street, places: seq<Place>, hasHoverPlace: bool)
    requires |places| > 0
    ensures ClearedAndRedrawn(s, places, hasHoverPlace).placesArray == []
    ensures IsLogScale(s.config.scale) ==>
      ClearedAndRedrawn(s, places, hasHoverPlace).lowIncome == s.lowIncome
      && ClearedAndRedrawn(s, places, hasHoverPlace).highIncome == s.highIncome
  {
  }

  /** A hover house removes both handles and redraws them, so afterwards a
    * handle is drawn exactly when it is not pinned: a pinned handle's redraw
    * returns early and leaves it removed.  Under a log scale the range is
    * kept. */
  lemma HoverHouseRedrawsHandles(s: Street)
    ensures var r := HoverHouseDrawn(s, true);
      && (r.scene.handles.leftScroll <==> !LeftPinned(s))
      && (r.scene.handles.rightScroll <==> !RightPinned(s))
    ensures IsLogScale(s.config.scale) ==>
      var r := HoverHouseDrawn(s, true);
      r.lowIncome == s.lowIncome && r.highIncome == s.highIncome
    ensures HoverHouseDrawn(s, false) == s
  {
  }

  // ---------------------------------------------------------------------
  // The narrow-viewport guards

  /** A pinned handle ignores every redraw, whatever the position. */
  lemma PinnedHandlesIgnoreRedraw(s: Street, x: real, init: bool)
    ensures LeftPinned(s) ==> LeftSliderDrawn(s, x, init) == s
    ensures RightPinned(s) ==> RightSliderDrawn(s, x, init) == s
  {
  }

  /** The two breakpoints differ: at 567 pixels a low handle at `poor` is
    * pinned while a high handle at `rich` still moves. */
  lemma BreakpointsDiffer(s: Street, x: real)
    requires s.config.windowInnerWidth == 567
    requires Round(s.lowIncome) as real == s.config.dividersData.poor
    requires Round(s.highIncome) as real == s.config.dividersData.rich
    ensures LeftSliderDrawn(s, x, true) == s
    ensures RightSliderDrawn(s, x, true).highIncome == s.config.scale.toIncome(x)
  {
  }

  /** Line 775 groups its test differently from line 670: on a mobile device
    * viewing a filtered thing, the low handle takes the unfiltered branch
    * while the high one takes the filtered branch, which shifts the right
    * homes shade by 1.5 pixels. */
  lemma RightGroupingAsWritten(s: Street, x: real, init: bool)
    requires s.config.isMobile && s.config.thingname != "Families"
    requires !RightPinned(s)
    ensures !Filtered(s.config) && RightFilteredAsWritten(s.config)
    ensures RightSliderDrawn(s, x, init).scene.rightHomesShadeX == x + 31.5
    ensures RightSliderDrawn(s, x, init).scene.rightStreetShadeX == x + 30.0
    ensures RightSliderDrawn(s, x, init).sliderRightBorder == Some(x)
  {
  }

  /** Without the filter both tests agree, and the homes shade sits on the
    * street shade. */
  lemma RightGroupingAgrees(s: Street, x: real, init: bool)
    requires !s.config.isMobile || (s.config.thingname == "Families" && s.config.countries == Some("World"))
    requires !RightPinned(s)
    ensures Filtered(s.config) <==> RightFilteredAsWritten(s.config)
    ensures !Filtered(s.config) ==>
      RightSliderDrawn(s, x, init).scene.rightHomesShadeX == RightSliderDrawn(s, x, init).scene.rightStreetShadeX
  {
  }

  // ---------------------------------------------------------------------
  // The move handlers

  /** A move is ignored below the breakpoint and when nothing is grabbed. */
  lemma MoveIgnored(s: Street, p: Pointer, x: real)
    requires s.config.windowInnerWidth < Breakpoint(s.config, p) || !Active(s.session)
    ensures Moved(s, p, x) == s
  {
  }

  /** An effective move takes the pre-drag snapshot from the range, but only
    * when the snapshot is unset; later moves keep it. */
  lemma MoveSnapshot(s: Street, p: Pointer, x: real)
    requires s.config.windowInnerWidth >= Breakpoint(s.config, p) && Active(s.session)
    ensures var d := s.session; var r := Moved(s, p, x).session;
      && (d.currentHighIncome == 0.0 || d.currentLowIncome == 0.0 ==>
            r.currentLowIncome == s.lowIncome && r.currentHighIncome == s.highIncome)
      && (d.currentHighIncome != 0.0 && d.currentLowIncome != 0.0 ==>
            r.currentLowIncome == d.currentLowIncome && r.currentHighIncome == d.currentHighIncome)
  {
  }

  /** A move never changes which part is grabbed, and a grab offset, once
    * captured, survives every later move. */
  lemma MoveKeepsSession(s: Street, p: Pointer, x: real)
    ensures var d := s.session; var r := Moved(s, p, x).session;
      && r.sliderLeftMove == d.sliderLeftMove && r.sliderRightMove == d.sliderRightMove
      && r.draggingSliders == d.draggingSliders
      && (d.distanceDraggingLeftSlider != 0.0 ==> r.distanceDraggingLeftSlider == d.distanceDraggingLeftSlider)
      && (d.distanceDraggingRightSlider != 0.0 ==> r.distanceDraggingRightSlider == d.distanceDraggingRightSlider)
  {
  }

  /** Only a track drag captures grab offsets: at its first move they are
    * the pointer's distances from the two borders, and against a border
    * still `undefined` the offset stays unset. */
  lemma TrackDragCapturesOffsets(s: Street, p: Pointer, x: real)
    requires s.config.windowInnerWidth >= Breakpoint(s.config, p) && TrackDrag(s.session)
    requires s.session.distanceDraggingLeftSlider == 0.0 && s.session.distanceDraggingRightSlider == 0.0
    ensures var r := Moved(s, p, x).session;
      && r.distanceDraggingLeftSlider == (if s.sliderLeftBorder.Some?
                                          then x - Rules(p).grabLeft - s.sliderLeftBorder.value else 0.0)
      && r.distanceDraggingRightSlider == (if s.sliderRightBorder.Some?
                                           then s.sliderRightBorder.value - (x - Rules(p).grabRight) else 0.0)
  {
  }

  /** A track drag out of bounds (or with a border still `undefined`) moves
    * nothing: the range, the borders, the drawing and the chosen places stay. */
  lemma TrackOutOfBoundsMovesNothing(s: Street, p: Pointer, x: real)
    requires s.config.windowInnerWidth >= Breakpoint(s.config, p) && TrackDrag(s.session)
    requires var g := Grabbed(s, Rules(p), x);
      !(BordersSet(s) && TrackInBounds(s.config, Rules(p), x, g.distanceDraggingLeftSlider, g.distanceDraggingRightSlider))
    ensures var r := Moved(s, p, x);
      && r.lowIncome == s.lowIncome && r.highIncome == s.highIncome
      && r.sliderLeftBorder == s.sliderLeftBorder && r.sliderRightBorder == s.sliderRightBorder
      && r.scene == s.scene && r.chosenPlaces == s.chosenPlaces
  {
  }

  /** A track drag in bounds drops the chosen places and redraws both
    * handles at the pointer's position less the grab offsets. */
  lemma TrackInBoundsMovesBoth(s: Street, p: Pointer, x: real)
    requires s.config.windowInnerWidth >= Breakpoint(s.config, p) && TrackDrag(s.session)
    requires var g := Grabbed(s, Rules(p), x);
      BordersSet(s) && TrackInBounds(s.config, Rules(p), x, g.distanceDraggingLeftSlider, g.distanceDraggingRightSlider)
    ensures var g := Grabbed(s, Rules(p), x); var r := Moved(s, p, x);
      && r.chosenPlaces == []
      && r == BothDrawn(Snapshotted(s).(session := r.session),
                        TrackLeftX(s.config, Rules(p), x, g.distanceDraggingLeftSlider),
                        TrackRightX(s.config, Rules(p), x, g.distanceDraggingRightSlider))
  {
  }

  /** With the grab offsets fixed, the handles of a track drag keep their
    * distance and move exactly as far as the pointer. */
  lemma TrackKeepsGap(c: Config, k: MoveRules, x1: real, x2: real, dl: real, dr: real)
    ensures TrackRightX(c, k, x2, dr) - TrackLeftX(c, k, x2, dl) == TrackRightX(c, k, x1, dr) - TrackLeftX(c, k, x1, dl)
    ensures TrackLeftX(c, k, x2, dl) - TrackLeftX(c, k, x1, dl) == x2 - x1
    ensures TrackRightX(c, k, x2, dr) - TrackRightX(c, k, x1, dr) == x2 - x1
  {
  }

  /** Before a handle is first drawn its border is `undefined`, and every
    * test against it fails: the other handle's window is empty, and a
    * track drag moves nothing. */
  lemma UnsetBorderBlocksDrag(s: Street, p: Pointer, x: real)
    requires s.config.windowInnerWidth >= Breakpoint(s.config, p) && Active(s.session)
    requires s.sliderLeftBorder.None? || s.sliderRightBorder.None?
    ensures s.sliderLeftBorder.None? ==> !InRightWindow(s, Rules(p), x)
    ensures s.sliderRightBorder.None? ==> !InLeftWindow(s, Rules(p), x)
    ensures TrackDrag(s.session) ==>
      var r := Moved(s, p, x);
      r.lowIncome == s.lowIncome && r.highIncome == s.highIncome && r.scene == s.scene
    ensures s.sliderLeftBorder.None? && !TrackDrag(s.session) && !s.session.sliderLeftMove ==>
      Moved(s, p, x) == Snapshotted(s)
  {
  }

  lemma HandleDragKeepsOffsets(s: Street, p: Pointer, x: real)
    requires !TrackDrag(s.session)
    ensures Moved(s, p, x).session.distanceDraggingLeftSlider == s.session.distanceDraggingLeftSlider
    ensures Moved(s, p, x).session.distanceDraggingRightSlider == s.session.distanceDraggingRightSlider
  {
  }

  /** A single grabbed handle moves only inside its window; outside it the
    * move takes the snapshot and changes nothing else. */
  lemma SingleHandleWindow(s: Street, p: Pointer, x: real)
    requires s.config.windowInnerWidth >= Breakpoint(s.config, p) && !TrackDrag(s.session)
    requires s.session.sliderLeftMove || s.session.sliderRightMove
    requires s.session.sliderLeftMove ==> !InLeftWindow(s, Rules(p), x)
    requires s.session.sliderRightMove ==> !InRightWindow(s, Rules(p), x)
    ensures Moved(s, p, x) == Snapshotted(s)
  {
  }

  /** Inside its window the low handle is redrawn under the pointer. */
  lemma LeftHandleFollows(s: Street, p: Pointer, x: real)
    requires s.config.windowInnerWidth >= Breakpoint(s.config, p) && !TrackDrag(s.session)
    requires s.session.sliderLeftMove && InLeftWindow(s, Rules(p), x)
    requires !LeftPinned(s)
    ensures Moved(s, p, x).lowIncome == s.config.scale.toIncome(x - Rules(p).leftShift)
    ensures Moved(s, p, x).highIncome == s.highIncome
  {
  }

  /** Inside its window, unless a grabbed low handle moved first, the high
    * handle is redrawn under the pointer. */
  lemma RightHandleFollows(s: Street, p: Pointer, x: real)
    requires s.config.windowInnerWidth >= Breakpoint(s.config, p) && !TrackDrag(s.session)
    requires s.session.sliderLeftMove ==> !InLeftWindow(s, Rules(p), x)
    requires s.session.sliderRightMove && InRightWindow(s, Rules(p), x)
    requires !RightPinned(s)
    ensures Moved(s, p, x).highIncome == s.config.scale.toIncome(x - Rules(p).rightShift)
    ensures Moved(s, p, x).lowIncome == s.lowIncome
  {
  }

  /** The windows of the two pointer kinds; each is empty while the other
    * handle's border is `undefined`. */
  lemma Windows(s: Street, x: real)
    ensures InLeftWindow(s, Rules(Mouse), x) <==>
              s.sliderRightBorder.Some? && 52.0 <= x <= s.sliderRightBorder.value + 17.0
    ensures InRightWindow(s, Rules(Mouse), x) <==>
              s.sliderLeftBorder.Some? && s.sliderLeftBorder.value + 87.0 <= x <= s.config.width + 57.0
    ensures InLeftWindow(s, Rules(Touch), x) <==>
              s.sliderRightBorder.Some? && 35.0 <= x <= s.sliderRightBorder.value - 25.0
    ensures InRightWindow(s, Rules(Touch), x) <==>
              s.sliderLeftBorder.Some? && s.sliderLeftBorder.value + 102.0 <= x <= s.config.width + 50.0
  {
  }

  // ---------------------------------------------------------------------
  // Release

  /** A track press without captured offsets is released quietly. */
  lemma ReleaseQuietTrack(s: Street)
    requires QuietTrack(s.session)
    ensures ReleaseEvents(s) == []
    ensures var r := Released(s); var d := r.session;
      && !d.draggingSliders && d.distanceDraggingLeftSlider == 0.0 && d.distanceDraggingRightSlider == 0.0
      && d.sliderLeftMove == s.session.sliderLeftMove && d.sliderRightMove == s.session.sliderRightMove
      && d.currentLowIncome == s.session.currentLowIncome && d.currentHighIncome == s.session.currentHighIncome
      && r.highIncome == s.highIncome
  {
  }

  /** A single-handle release that leaves the value at its snapshot (or with
    * no snapshot) is quiet: the handle's flag and the snapshot are cleared. */
  lemma ReleaseQuietHandle(s: Street)
    requires !QuietTrack(s.session) && (QuietLeft(s) || QuietRight(s))
    ensures ReleaseEvents(s) == []
    ensures var r := Released(s); var d := r.session;
      && d.currentLowIncome == 0.0 && d.currentHighIncome == 0.0
      && (QuietLeft(s) ==> !d.sliderLeftMove && d.sliderRightMove == s.session.sliderRightMove)
      && (!QuietLeft(s) ==> !d.sliderRightMove && d.sliderLeftMove == s.session.sliderLeftMove)
      && d.draggingSliders == s.session.draggingSliders
      && d.distanceDraggingLeftSlider == s.session.distanceDraggingLeftSlider
      && d.distanceDraggingRightSlider == s.session.distanceDraggingRightSlider
      && r.highIncome == s.highIncome
  {
  }

  /** A quiet release empties the labels, when they exist. */
  lemma QuietReleaseClearsLabels(s: Street)
    requires Quiet(s) && s.scene.handles.leftScrollText
    ensures Released(s).scene.leftScrollLabel == Blank && Released(s).scene.rightScrollLabel == Blank
  {
  }

  /** Any other release ends the session and caps the high income. */
  lemma ReleaseEndsSession(s: Street)
    requires !Quiet(s)
    ensures Released(s).session == Idle && Released(s).scene == s.scene
    ensures Released(s).highIncome == (if s.highIncome > s.config.dividersData.rich
                                       then s.config.dividersData.rich + 0.00002 else s.highIncome)
  {
  }

  /** Outside a filtered page a release sends exactly the rounded range. */
  lemma UnfilteredReleaseEmitsOnce(s: Street)
    requires !Quiet(s) && !Filtered(s.config)
    ensures ReleaseEvents(s) == [IncomeRange(Round(s.lowIncome), Round(Released(s).highIncome))]
  {
  }

  /** On a filtered page a release sends one event, or two when the low
    * income is below `minIncome` and the high one above `maxIncome`. */
  lemma FilteredReleaseCount(s: Street)
    requires !Quiet(s) && Filtered(s.config)
    ensures var high := Released(s).highIncome;
      |ReleaseEvents(s)| == if s.lowIncome < s.config.minIncome && high > s.config.maxIncome then 2 else 1
  {
  }

  /** The events of a filtered release substitute `minIncome - 3` for a low
    * income below `minIncome` and `maxIncome + 5` for a high income above
    * `maxIncome`; in range they carry the range itself. */
  lemma FilteredReleaseSubstitutes(s: Street)
    requires !Quiet(s) && Filtered(s.config)
    ensures var high := Released(s).highIncome; var c := s.config;
      var events := ReleaseEvents(s);
      && (s.lowIncome < c.minIncome ==>
            events[0] == IncomeRange(Round(c.minIncome - 3.0), Round(high)))
      && (high > c.maxIncome ==>
            events[|events| - 1] == IncomeRange(Round(s.lowIncome), Round(c.maxIncome + 5.0)))
      && (c.minIncome <= s.lowIncome && high <= c.maxIncome ==>
            events == [IncomeRange(Round(s.lowIncome), Round(high))])
  {
  }

  /** With an integral `rich`, an unfiltered release never sends a high
    * income above `rich`, however far the handle went. */
  lemma UnfilteredHighAtMostRich(s: Street)
    requires !Quiet(s) && !Filtered(s.config)
    requires s.config.dividersData.rich == s.config.dividersData.rich.Floor as real
    ensures forall e :: e in ReleaseEvents(s) ==> e.highIncome as real <= s.config.dividersData.rich
  {
    var rich := s.config.dividersData.rich;
    var high := CappedHigh(s.highIncome, rich);
    var n := Round(high);
    assert n as real < rich + 1.0;
    assert n <= rich.Floor;
    assert ReleaseEvents(s) == [IncomeRange(Round(s.lowIncome), n)];
  }

  /** `init` keeps any truthy low income (line 112), so an unfiltered release
    * after it can send a low income below `poor`. */
  lemma UnfilteredLowBelowPoorSent(s: Street, low: real, high: real, d: Dividers,
                                   regions: seq<string>, countries: seq<string>, thing: string,
                                   svgWidth: int, innerWidth: int, scale: Scale)
    requires low != 0.0 && low + 1.0 <= d.poor
    requires var t := Initialized(s, low, high, d, regions, countries, thing, svgWidth, innerWidth, scale);
      !Quiet(t) && !Filtered(t.config)
    ensures var t := Initialized(s, low, high, d, regions, countries, thing, svgWidth, innerWidth, scale);
      |ReleaseEvents(t)| == 1 && (ReleaseEvents(t)[0].lowIncome as real) < d.poor
  {
  }

  /** Nor does `init` order the two bounds: given a low income above the high
    * one, an unfiltered release sends them in that order. */
  lemma UnfilteredInvertedRangeSent(s: Street, low: real, high: real, d: Dividers,
                                    regions: seq<string>, countries: seq<string>, thing: string,
                                    svgWidth: int, innerWidth: int, scale: Scale)
    requires low != 0.0 && high != 0.0 && high <= d.rich && low >= high + 1.0
    requires var t := Initialized(s, low, high, d, regions, countries, thing, svgWidth, innerWidth, scale);
      !Quiet(t) && !Filtered(t.config)
    ensures var t := Initialized(s, low, high, d, regions, countries, thing, svgWidth, innerWidth, scale);
      |ReleaseEvents(t)| == 1 && ReleaseEvents(t)[0].lowIncome > ReleaseEvents(t)[0].highIncome
  {
    var t := Initialized(s, low, high, d, regions, countries, thing, svgWidth, innerWidth, scale);
    assert t.lowIncome == low && t.highIncome == high;
    assert CappedHigh(t.highIncome, t.config.dividersData.rich) == high;
    assert Round(low) >= Round(high) + 1;
    assert ReleaseEvents(t) == [IncomeRange(Round(low), Round(high))];
  }

  /** The filtered branch keeps no such bound: with `maxIncome` at an
    * integral `rich`, a release past `rich` sends `rich + 5` as its high
    * income. */
  lemma FilteredHighAboveRich(s: Street)
    requires !Quiet(s) && Filtered(s.config)
    requires s.config.dividersData.rich == s.config.dividersData.rich.Floor as real
    requires s.config.maxIncome == s.config.dividersData.rich
    requires s.highIncome > s.config.dividersData.rich
    ensures var events := ReleaseEvents(s);
      && |events| > 0
      && events[|events| - 1].highIncome as real == s.config.dividersData.rich + 5.0
      && events[|events| - 1].highIncome as real > s.config.dividersData.rich
  {
    var rich := s.config.dividersData.rich;
    assert Round(rich + 5.0) == rich.Floor + 5;
  }

  /** A mouseup with nothing grabbed, or on a narrow viewport, does nothing. */
  lemma UpIgnoredChangesNothing(s: Street)
    requires UpIgnored(s)
    ensures Up(s) == s && UpEvents(s) == []
  {
  }

  /** Grabbing a handle and letting go before any move is a click: quiet. */
  lemma ClickIsQuiet(s: Street)
    requires s.session == Idle
    ensures UpEvents(s.(session := LeftHandlePressed(s.session))) == []
    ensures UpEvents(s.(session := RightHandlePressed(s.session))) == []
    ensures UpEvents(s.(session := TrackPressed(s.session))) == []
    ensures s.config.windowInnerWidth >= s.config.mobileSize ==>
              Up(s.(session := TrackPressed(s.session))).session == Idle
  {
  }

  /** A whole low-handle drag on a wide, unfiltered page: one move inside the
    * window to a new income, then release, sends exactly one event. */
  lemma LeftDragEmitsOnce(s: Street, x: real)
    requires s.session == Idle && s.lowIncome != 0.0
    requires s.config.windowInnerWidth >= s.config.mobileWidth
    requires s.config.windowInnerWidth >= s.config.mobileSize
    requires !Filtered(s.config) && !LeftPinned(s)
    requires InLeftWindow(s, Rules(Mouse), x)
    requires s.config.scale.toIncome(x - 47.0) != s.lowIncome
    ensures var m := Moved(s.(session := LeftHandlePressed(s.session)), Mouse, x);
      && m.lowIncome == s.config.scale.toIncome(x - 47.0)
      && UpEvents(m) == [IncomeRange(Round(m.lowIncome), Round(CappedHigh(s.highIncome, s.config.dividersData.rich)))]
      && Up(m).session == Idle
  {
    var p := s.(session := LeftHandlePressed(s.session));
    assert Snapshotted(p).session.currentLowIncome == s.lowIncome;
  }

  // ---------------------------------------------------------------------
  // The invariant

  /** The amounts the labels show: the rounded low income and the capped
    * high income in the page's currency, except that on a filtered page a
    * handle beyond the filter's point shows the range's bound instead. */
  lemma ScrollLabelAmounts(c: Config, low: real, high: real, sc: Scene)
    ensures var r := ScrollLabelDrawn(c, low, high, sc);
      var incomeL := Round(low) as real;
      var incomeR := RightLabelIncome(high, c.dividersData.rich);
      && r.leftScrollLabel == Amount(if LeftLabelOnMin(c, c.scale.toPixel(incomeL))
                                     then ShownBound(c, c.minIncome) else Shown(c, incomeL))
      && r.rightScrollLabel == Amount(if RightLabelOnMax(c, c.scale.toPixel(incomeR))
                                      then ShownBound(c, c.maxIncome) else Shown(c, incomeR))
      && (!Filtered(c) ==> r.leftScrollLabel == Amount(Shown(c, incomeL))
                           && r.rightScrollLabel == Amount(Shown(c, incomeR)))
  {
  }

  /** A label shows the rich bound's amount, never more, when the high income
    * is unset or beyond `rich`. */
  lemma RightLabelAtMostRich(c: Config, low: real, high: real, sc: Scene)
    requires !Filtered(c)
    requires c.dividersData.rich == c.dividersData.rich.Floor as real
    requires high == 0.0 || high >= c.dividersData.rich
    ensures ScrollLabelDrawn(c, low, high, sc).rightScrollLabel == Amount(Shown(c, c.dividersData.rich))
  {
    var rich := c.dividersData.rich;
    var h := if high != 0.0 then high else rich;
    assert Round(h) >= rich.Floor;
  }

  lemma ScrollLabelConsistent(c: Config, low: real, high: real, sc: Scene)
    requires SceneConsistent(sc)
    ensures SceneConsistent(ScrollLabelDrawn(c, low, high, sc))
  {
  }

  lemma SlidersConsistent(s: Street, x: real, init: bool)
    requires Consistent(s)
    ensures Consistent(LeftSliderDrawn(s, x, init))
    ensures Consistent(RightSliderDrawn(s, x, init))
  {
  }

  lemma TrackMovedConsistent(s: Street, k: MoveRules, x: real)
    requires Consistent(s) && s.session.draggingSliders
    ensures Consistent(TrackMoved(s, k, x))
  {
    var s2 := s.(session := Grabbed(s, k, x));
    var dl := s2.session.distanceDraggingLeftSlider;
    var dr := s2.session.distanceDraggingRightSlider;
    var s3 := s2.(chosenPlaces := []);
    assert Consistent(s3);
    if Filtered(s.config) {
      SlidersConsistent(s3, x - 57.0 - dl, false);
      SlidersConsistent(LeftSliderDrawn(s3, x - 57.0 - dl, false), x - 57.0 + dr, false);
    } else {
      SlidersConsistent(s3, x - k.trackLeftShift - dl, false);
      SlidersConsistent(LeftSliderDrawn(s3, x - k.trackLeftShift - dl, false), x - k.trackRightShift + dr, false);
    }
  }

  lemma MoveConsistent(s: Street, p: Pointer, x: real)
    requires Consistent(s)
    ensures Consistent(Moved(s, p, x))
  {
    if s.config.windowInnerWidth >= Breakpoint(s.config, p) && Active(s.session) {
      var s1 := Snapshotted(s);
      var k := Rules(p);
      assert Consistent(s1);
      if TrackDrag(s1.session) {
        TrackMovedConsistent(s1, k, x);
      } else {
        SlidersConsistent(s1, x - k.leftShift, false);
        SlidersConsistent(s1, x - k.rightShift, false);
      }
    }
  }

  lemma UpConsistent(s: Street)
    requires Consistent(s)
    ensures Consistent(Released(s)) && Consistent(Up(s))
  {
  }

  lemma SceneOperationsConsistent(s: Street, places: seq<Place>)
    requires Consistent(s)
    ensures Consistent(ScaleDrawn(s, places))
    ensures Consistent(SlidersRemoved(s)) && Consistent(SvgCleared(s))
  {
    if |places| > 0 {
      var s1 := s.(placesArray := SortByIncome(UniqById(places)));
      assert Consistent(s1);
      var s2 := LeftSliderDrawn(s1, s1.config.scale.toPixel(s1.lowIncome), true);
      SlidersConsistent(s1, s1.config.scale.toPixel(s1.lowIncome), true);
      SlidersConsistent(s2, s2.config.scale.toPixel(s2.highIncome), true);
    }
  }

  /** Redrawing both handles keeps the invariant. */
  lemma HandlesConsistent(s: Street)
    requires Consistent(s)
    ensures Consistent(HandlesRedrawn(s))
  {
    var s1 := LeftSliderDrawn(s, s.config.scale.toPixel(s.lowIncome), true);
    SlidersConsistent(s, s.config.scale.toPixel(s.lowIncome), true);
    SlidersConsistent(s1, s1.config.scale.toPixel(s1.highIncome), true);
  }

  /** `drawHouses`, `drawHoverHouse` and `clearAndRedraw` keep the invariant. */
  lemma RedrawsConsistent(s: Street, places: seq<Place>, hasHoverPlace: bool)
    requires Consistent(s)
    ensures Consistent(HousesDrawn(s))
    ensures Consistent(HoverHouseDrawn(s, hasHoverPlace))
    ensures Consistent(ClearedAndRedrawn(s, places, hasHoverPlace))
  {
    var h := HousesDrawn(SlidersRemoved(s));
    HandlesConsistent(SlidersRemoved(s));
    HandlesConsistent(SlidersRemoved(h));
    HandlesConsistent(HoverHouseDrawn(h, hasHoverPlace));
  }

  lemma PressesConsistent(d: Session)
    requires SessionConsistent(d)
    ensures SessionConsistent(TrackPressed(d)) && SessionConsistent(LeftHandlePressed(d))
    ensures SessionConsistent(RightHandlePressed(d))
  {
  }
}
