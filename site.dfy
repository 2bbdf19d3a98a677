/** The page component of `interactive-map-website.jsx`: the static trail and
    attraction tables, the two filter projections, and the UI state its
    buttons and hover handlers update (language, filter flags, tooltip, and
    the choice of map backend). */
module Site {
  import opened Seqs
  import opened Records

  /** Half-width, in degrees, of the box around a trail coordinate inside
      which an attraction counts as on that trail (about 500 m). */
  const Tolerance: real := 0.005

  function Abs(x: real): real
  {
    if x < 0.0 then -x else x
  }

  /** `Math.abs(Δlat) < 0.005 && Math.abs(Δlng) < 0.005`: strict on both axes. */
  predicate Near(coord: LatLng, p: LatLng)
  {
    Abs(coord.lat - p.lat) < Tolerance && Abs(coord.lng - p.lng) < Tolerance
  }

  /** `trails.some(trail => trail.coordinates.some(coord => Near(coord, p)))`. */
  predicate OnSomeTrail(p: LatLng, trails: seq<Trail>)
  {
    exists i, j | 0 <= i < |trails| && 0 <= j < |trails[i].coordinates| :: Near(trails[i].coordinates[j], p)
  }

  /** `filteredTrails`: all trails, or with the family flag exactly the
      family-friendly ones, in their original order. */
  function FilteredTrails(trails: seq<Trail>, showFamilyFriendly: bool): (r: seq<Trail>)
    ensures IsSubsequence(r, trails)
    ensures !showFamilyFriendly ==> r == trails
    ensures forall t | t in r :: t in trails && (showFamilyFriendly ==> t.familyFriendly)
    ensures forall t | t in trails && (showFamilyFriendly ==> t.familyFriendly) :: t in r
  {
    var keep := (t: Trail) => if showFamilyFriendly then t.familyFriendly else true;
    FilterIsSubsequence(trails, keep);
    FilterMembers(trails, keep);
    if !showFamilyFriendly then FilterKeepsAll(trails, keep); Filter(trails, keep)
    else Filter(trails, keep)
  }

  /** The per-attraction test of `filteredAttractions`. */
  predicate KeepAttraction(a: Attraction, trails: seq<Trail>, showFamilyFriendly: bool, showTrailsOnly: bool)
  {
    if showFamilyFriendly && !a.familyFriendly then false
    else if showTrailsOnly then OnSomeTrail(a.position, trails)
    else true
  }

  /** `filteredAttractions`: an attraction is kept iff it passes the family
      flag (when set) and lies near a coordinate of some trail of `trails`
      (when the trails-only flag is set); order is preserved. */
  function FilteredAttractions(attractions: seq<Attraction>, trails: seq<Trail>,
                               showFamilyFriendly: bool, showTrailsOnly: bool): (r: seq<Attraction>)
    ensures IsSubsequence(r, attractions)
    ensures !showFamilyFriendly && !showTrailsOnly ==> r == attractions
    ensures forall a | a in r :: a in attractions
    ensures showFamilyFriendly ==> forall a | a in r :: a.familyFriendly
    ensures showTrailsOnly ==> forall a | a in r :: OnSomeTrail(a.position, trails)
    ensures forall a | a in attractions && (showFamilyFriendly ==> a.familyFriendly)
                                        && (showTrailsOnly ==> OnSomeTrail(a.position, trails)) :: a in r
  {
    var keep := (a: Attraction) => KeepAttraction(a, trails, showFamilyFriendly, showTrailsOnly);
    FilterIsSubsequence(attractions, keep);
    FilterMembers(attractions, keep);
    if !showFamilyFriendly && !showTrailsOnly then FilterKeepsAll(attractions, keep); Filter(attractions, keep)
    else Filter(attractions, keep)
  }

  /** The proximity test is strict: a latitude difference of exactly 0.005
      leaves the attraction out, 0.0049 keeps it. */
  lemma ToleranceIsStrict(trail: Trail, a: Attraction)
    requires trail.coordinates == [a.position]
    ensures var atEdge := a.(position := LatLng(a.position.lat + 0.005, a.position.lng));
            FilteredAttractions([atEdge], [trail], false, true) == []
    ensures var inside := a.(position := LatLng(a.position.lat + 0.0049, a.position.lng));
            FilteredAttractions([inside], [trail], false, true) == [inside]
  {
    var inside := a.(position := LatLng(a.position.lat + 0.0049, a.position.lng));
    assert Near(trail.coordinates[0], inside.position);
  }

  /** The proximity test looks at every trail, not only the ones the family
      flag keeps: an attraction next to a hiking-only trail stays visible with
      both flags set. */
  lemma ProximityIgnoresTrailFilter()
    ensures var family := Trail(1, Name("", ""), true, [LatLng(0.0, 0.0)]);
            var hiking := Trail(2, Name("", ""), false, [LatLng(1.0, 1.0)]);
            var a := Attraction(9, Name("", ""), LatLng(1.0, 1.0), true, 2);
            && FilteredAttractions([a], [family, hiking], true, true) == [a]
            && FilteredAttractions([a], FilteredTrails([family, hiking], true), true, true) == []
  {
    var family := Trail(1, Name("", ""), true, [LatLng(0.0, 0.0)]);
    var hiking := Trail(2, Name("", ""), false, [LatLng(1.0, 1.0)]);
    var a := Attraction(9, Name("", ""), LatLng(1.0, 1.0), true, 2);
    assert Near([family, hiking][1].coordinates[0], a.position);
    FilterCons(family, [hiking], (t: Trail) => if true then t.familyFriendly else true);
    FilterCons(hiking, [], (t: Trail) => if true then t.familyFriendly else true);
    assert [family, hiking] == [family] + [hiking] && [hiking] == [hiking] + [];
  }

  /** The page's trail table: trail 1 is family-friendly, trail 2 is not. */
  function Trails(): (r: seq<Trail>)
    ensures |r| == 2 && r[0].id == 1 && r[1].id == 2
    ensures r[0].familyFriendly && !r[1].familyFriendly
  {
    [ Trail(1, Name("親子輕鬆探索路線", "Family-friendly Exploration Route"), true,
            [LatLng(25.0, 121.618), LatLng(24.997, 121.621), LatLng(24.995, 121.625)]),
      Trail(2, Name("健行挑戰路線", "Hiking Challenge Route"), false,
            [LatLng(25.005, 121.615), LatLng(25.0, 121.618), LatLng(24.993, 121.628), LatLng(24.99, 121.632)]) ]
  }

  /** The page's attraction table: ids 1 to 7 in order; 1, 2, 3 and 7 are
      family-friendly and listed on trail 1, 4, 5 and 6 are listed on trail 2. */
  function Attractions(): (r: seq<Attraction>)
    ensures |r| == 7
    ensures forall i | 0 <= i < 7 :: r[i].id == i + 1
    ensures forall i | 0 <= i < 7 :: r[i].familyFriendly <==> (i < 3 || i == 6)
    ensures forall i | 0 <= i < 7 :: r[i].onTrail == (if i < 3 || i == 6 then 1 else 2)
  {
    [ Attraction(1, Name("向天溪階梯", "Xiangtian Creek Stairs"), LatLng(25.0, 121.618), true, 1),
      Attraction(2, Name("鎮南宮石媽祖古道", "Zhennan Temple Stone Mazu Trail"), LatLng(24.997, 121.621), true, 1),
      Attraction(3, Name("加爾默羅聖母聖衣隱修院", "Carmelite Monastery"), LatLng(24.995, 121.625), true, 1),
      Attraction(4, Name("大崎嶺步道", "Daqiling Trail"), LatLng(25.005, 121.615), false, 2),
      Attraction(5, Name("阿柔洋山", "Arouyang Mountain"), LatLng(24.993, 121.628), false, 2),
      Attraction(6, Name("猴山岳", "Houshan Mountain"), LatLng(24.99, 121.632), false, 2),
      Attraction(7, Name("深坑老街休息區", "Shenkeng Old Street Rest Area"), LatLng(25.002, 121.62), true, 1) ]
  }

  /** On the shipped tables the family flag keeps trail 1 only. */
  lemma ShippedFamilyTrails()
    ensures FilteredTrails(Trails(), true) == [Trails()[0]]
    ensures Trails()[0].id == 1
  {
  }

  /** On the shipped tables the trails-only flag alone hides nothing: every
      attraction lies near some trail coordinate. */
  lemma ShippedTrailsOnlyKeepsAll()
    ensures FilteredAttractions(Attractions(), Trails(), false, true) == Attractions()
  {
    var ts, xs := Trails(), Attractions();
    assert Near(ts[0].coordinates[0], xs[0].position);
    assert Near(ts[0].coordinates[1], xs[1].position);
    assert Near(ts[0].coordinates[2], xs[2].position);
    assert Near(ts[1].coordinates[0], xs[3].position);
    assert Near(ts[1].coordinates[2], xs[4].position);
    assert Near(ts[1].coordinates[3], xs[5].position);
    assert Near(ts[0].coordinates[0], xs[6].position);
    assert forall a | a in xs :: KeepAttraction(a, ts, false, true);
    FilterKeepsAll(xs, (a: Attraction) => KeepAttraction(a, ts, false, true));
  }

  /** `Filter` over seven elements of which the 1st, 2nd, 3rd and 7th pass. */
  lemma FilterSeven<T>(xs: seq<T>, keep: T -> bool)
    requires |xs| == 7
    requires keep(xs[0]) && keep(xs[1]) && keep(xs[2]) && !keep(xs[3]) && !keep(xs[4]) && !keep(xs[5]) && keep(xs[6])
    ensures Filter(xs, keep) == [xs[0], xs[1], xs[2], xs[6]]
  {
    var tail := xs[3..];
    assert tail == [xs[3]] + ([xs[4]] + ([xs[5]] + ([xs[6]] + [])));
    FilterCons(xs[6], [], keep);
    FilterCons(xs[5], [xs[6]], keep);
    FilterCons(xs[4], [xs[5], xs[6]], keep);
    assert [xs[5]] + [xs[6]] == [xs[5], xs[6]];
    assert [xs[4]] + [xs[5], xs[6]] == [xs[4], xs[5], xs[6]];
    FilterCons(xs[3], [xs[4], xs[5], xs[6]], keep);
    assert [xs[3]] + [xs[4], xs[5], xs[6]] == tail;
    assert Filter(tail, keep) == [xs[6]];
    FilterCons(xs[2], tail, keep);
    FilterCons(xs[1], [xs[2]] + tail, keep);
    FilterCons(xs[0], [xs[1]] + ([xs[2]] + tail), keep);
    assert xs == [xs[0]] + ([xs[1]] + ([xs[2]] + tail));
  }

  /** On the shipped tables the family flag alone keeps attractions 1, 2, 3
      and 7, in that order. */
  lemma ShippedFamilyAttractions()
    ensures var r := FilteredAttractions(Attractions(), Trails(), true, false);
            |r| == 4 && r[0].id == 1 && r[1].id == 2 && r[2].id == 3 && r[3].id == 7
  {
    FilterSeven(Attractions(), (a: Attraction) => KeepAttraction(a, Trails(), true, false));
  }

  /** Which map the page renders. */
  datatype Backend = EmbeddedView | FallbackView | GoogleView

  /** The page's UI state and the handlers that update it, each as a
      transition. */
  datatype UiState = UiState(
    language: Language,
    showFamilyFriendly: bool,
    showTrailsOnly: bool,
    activeTooltip: Option<int>,
    useFallbackMap: bool,
    useEmbeddedMap: bool)
  {
    /** `handleAttractionHover(id)`. */
    function Hover(id: int): (r: UiState)
      ensures r.activeTooltip == Some(id)
      ensures r.(activeTooltip := activeTooltip) == this
    {
      this.(activeTooltip := Some(id))
    }

    /** `handleAttractionLeave()`. */
    function Leave(): (r: UiState)
      ensures r.activeTooltip == None
      ensures r.(activeTooltip := activeTooltip) == this
    {
      this.(activeTooltip := None)
    }

    /** `toggleLanguage()`. */
    function ToggleLanguage(): (r: UiState)
      ensures r.language != language
      ensures r.(language := language) == this
    {
      this.(language := OtherLanguage(language))
    }

    /** The family-friendly button. */
    function ToggleFamilyFriendly(): (r: UiState)
      ensures r.showFamilyFriendly == !showFamilyFriendly
      ensures r.(showFamilyFriendly := showFamilyFriendly) == this
    {
      this.(showFamilyFriendly := !showFamilyFriendly)
    }

    /** The trails-only button. */
    function ToggleTrailsOnly(): (r: UiState)
      ensures r.showTrailsOnly == !showTrailsOnly
      ensures r.(showTrailsOnly := showTrailsOnly) == this
    {
      this.(showTrailsOnly := !showTrailsOnly)
    }

    /** `checkGoogleMapsApi()`, with the presence of the map API as an input. */
    function CheckGoogleMapsApi(googleAvailable: bool): (r: UiState)
      ensures r.useFallbackMap <==> !googleAvailable
      ensures r.(useFallbackMap := useFallbackMap) == this
    {
      this.(useFallbackMap := !googleAvailable)
    }

    /** `toggleMapType()`: from the fallback map, try the API; otherwise force the fallback. */
    function ToggleMapType(googleAvailable: bool): (r: UiState)
      ensures !useFallbackMap ==> r.useFallbackMap
      ensures useFallbackMap ==> (r.useFallbackMap <==> !googleAvailable)
      ensures r.(useFallbackMap := useFallbackMap) == this
    {
      if useFallbackMap then CheckGoogleMapsApi(googleAvailable) else this.(useFallbackMap := true)
    }

    /** `toggleEmbeddedMap()`. */
    function ToggleEmbeddedMap(): (r: UiState)
      ensures r.useEmbeddedMap == !useEmbeddedMap
      ensures r.(useEmbeddedMap := useEmbeddedMap) == this
    {
      this.(useEmbeddedMap := !useEmbeddedMap)
    }
  }

  function OtherLanguage(l: Language): (r: Language)
    ensures r != l
  {
    if l == Zh then En else Zh
  }

  /** The state once the page has mounted: the `useState` defaults, then the
      mount-time `checkGoogleMapsApi()`. */
  function Mounted(googleAvailable: bool): (u: UiState)
    ensures u.language == Zh && u.activeTooltip == None && u.useEmbeddedMap
    ensures !u.showFamilyFriendly && !u.showTrailsOnly
    ensures u.useFallbackMap <==> !googleAvailable
  {
    UiState(Zh, false, false, None, true, true).CheckGoogleMapsApi(googleAvailable)
  }

  /** The render choice: the embedded map if enabled, else the fallback map if
      selected, else the map-API widget. */
  function SelectBackend(u: UiState): (b: Backend)
    ensures b == EmbeddedView <==> u.useEmbeddedMap
    ensures b == FallbackView <==> !u.useEmbeddedMap && u.useFallbackMap
    ensures b == GoogleView <==> !u.useEmbeddedMap && !u.useFallbackMap
  {
    if u.useEmbeddedMap then EmbeddedView
    else if u.useFallbackMap then FallbackView
    else GoogleView
  }

  /** The trails handed to the map backend. */
  function VisibleTrails(u: UiState): seq<Trail>
  {
    FilteredTrails(Trails(), u.showFamilyFriendly)
  }

  /** The attractions handed to the map backend, filtered against the full
      trail table. */
  function VisibleAttractions(u: UiState): seq<Attraction>
  {
    FilteredAttractions(Attractions(), Trails(), u.showFamilyFriendly, u.showTrailsOnly)
  }

  /** On the shipped tables the trails-only button never hides anything, in
      any UI state: without the family flag the page shows both trails and all
      seven attractions, with it trail 1 and attractions 1, 2, 3 and 7. */
  lemma VisibleOnShippedTables(u: UiState)
    ensures !u.showFamilyFriendly ==> VisibleTrails(u) == Trails() && VisibleAttractions(u) == Attractions()
    ensures u.showFamilyFriendly ==> VisibleTrails(u) == [Trails()[0]]
    ensures u.showFamilyFriendly ==>
              var xs := Attractions();
              VisibleAttractions(u) == [xs[0], xs[1], xs[2], xs[6]]
  {
    var ts, xs := Trails(), Attractions();
    if !u.showFamilyFriendly {
      if u.showTrailsOnly {
        ShippedTrailsOnlyKeepsAll();
      }
    } else {
      ShippedFamilyTrails();
      assert Near(ts[0].coordinates[0], xs[0].position);
      assert Near(ts[0].coordinates[1], xs[1].position);
      assert Near(ts[0].coordinates[2], xs[2].position);
      assert Near(ts[0].coordinates[0], xs[6].position);
      FilterSeven(xs, (a: Attraction) => KeepAttraction(a, ts, true, u.showTrailsOnly));
    }
  }

  /** The tooltip holds the last hovered id; leaving clears it whatever it held. */
  lemma TooltipLastWriterWins(u: UiState, a: int, b: int)
    ensures u.Hover(a).Hover(b) == u.Hover(b)
    ensures u.Hover(b).activeTooltip == Some(b)
    ensures u.Hover(a).Hover(b).Leave().activeTooltip == None
    ensures u.Leave().Leave() == u.Leave()
  {
  }

  /** Toggling the language swaps zh and en; twice is the identity. */
  lemma ToggleLanguageInvolution(u: UiState)
    ensures u.ToggleLanguage().language != u.language
    ensures u.ToggleLanguage().ToggleLanguage() == u
  {
  }

  /** The embedded-map toggle negates its flag; twice is the identity. */
  lemma ToggleEmbeddedMapInvolution(u: UiState)
    ensures u.ToggleEmbeddedMap().useEmbeddedMap == !u.useEmbeddedMap
    ensures u.ToggleEmbeddedMap().ToggleEmbeddedMap() == u
  {
  }

  /** With the embedded map off, the map-type button switches from the fallback
      map to the widget exactly when the API is available, and from the widget
      always back to the fallback map. */
  lemma ToggleMapTypeSwitchesBackend(u: UiState, googleAvailable: bool)
    requires !u.useEmbeddedMap
    ensures SelectBackend(u) == FallbackView ==>
              SelectBackend(u.ToggleMapType(googleAvailable)) == (if googleAvailable then GoogleView else FallbackView)
    ensures SelectBackend(u) == GoogleView ==> SelectBackend(u.ToggleMapType(googleAvailable)) == FallbackView
  {
  }

  /** One input on the page. */
  datatype UiAction =
    | HoverOn(id: int)
    | LeaveAttraction
    | LanguageButton
    | FamilyButton
    | TrailsOnlyButton
    | MapTypeButton
    | EmbeddedButton

  function Apply(u: UiState, act: UiAction, googleAvailable: bool): UiState
  {
    match act
    case HoverOn(id) => u.Hover(id)
    case LeaveAttraction => u.Leave()
    case LanguageButton => u.ToggleLanguage()
    case FamilyButton => u.ToggleFamilyFriendly()
    case TrailsOnlyButton => u.ToggleTrailsOnly()
    case MapTypeButton => u.ToggleMapType(googleAvailable)
    case EmbeddedButton => u.ToggleEmbeddedMap()
  }

  function RunUi(u: UiState, acts: seq<UiAction>, googleAvailable: bool): UiState
    decreases |acts|
  {
    if acts == [] then u else RunUi(Apply(u, acts[0], googleAvailable), acts[1..], googleAvailable)
  }

  /** Without the map API the widget is never chosen: once on the fallback
      map, no sequence of inputs leaves it. */
  lemma {:induction false} NoWidgetWithoutApi(u: UiState, acts: seq<UiAction>)
    requires u.useFallbackMap
    ensures RunUi(u, acts, false).useFallbackMap
    ensures SelectBackend(RunUi(u, acts, false)) != GoogleView
    decreases |acts|
  {
    if acts != [] {
      NoWidgetWithoutApi(Apply(u, acts[0], false), acts[1..]);
    }
  }

  /** The page component's state, updated in place by its handlers. */
  class InteractiveMap {
    var language: Language
    var showFamilyFriendly: bool
    var showTrailsOnly: bool
    var activeTooltip: Option<int>
    var useFallbackMap: bool
    var useEmbeddedMap: bool

    function State(): UiState
      reads this
    {
      UiState(language, showFamilyFriendly, showTrailsOnly, activeTooltip, useFallbackMap, useEmbeddedMap)
    }

    /** Mounting: the initial values, then the API check. */
    constructor (googleAvailable: bool)
      ensures State() == Mounted(googleAvailable)
    {
      language := Zh;
      showFamilyFriendly := false;
      showTrailsOnly := false;
      activeTooltip := None;
      useFallbackMap := true;
      useEmbeddedMap := true;
      new;
      CheckGoogleMapsApi(googleAvailable);
    }

    method HandleAttractionHover(id: int)
      modifies this
      ensures State() == old(State()).Hover(id)
    {
      activeTooltip := Some(id);
    }

    method HandleAttractionLeave()
      modifies this
      ensures State() == old(State()).Leave()
    {
      activeTooltip := None;
    }

    method ToggleLanguage()
      modifies this
      ensures State() == old(State()).ToggleLanguage()
    {
      language := OtherLanguage(language);
    }

    method ToggleFamilyFriendly()
      modifies this
      ensures State() == old(State()).ToggleFamilyFriendly()
    {
      showFamilyFriendly := !showFamilyFriendly;
    }

    method ToggleTrailsOnly()
      modifies this
      ensures State() == old(State()).ToggleTrailsOnly()
    {
      showTrailsOnly := !showTrailsOnly;
    }

    method CheckGoogleMapsApi(googleAvailable: bool)
      modifies this
      ensures State() == old(State()).CheckGoogleMapsApi(googleAvailable)
    {
      if googleAvailable {
        useFallbackMap := false;
      } else {
        useFallbackMap := true;
      }
    }

    method ToggleMapType(googleAvailable: bool)
      modifies this
      ensures State() == old(State()).ToggleMapType(googleAvailable)
    {
      if useFallbackMap {
        CheckGoogleMapsApi(googleAvailable);
      } else {
        useFallbackMap := true;
      }
    }

    method ToggleEmbeddedMap()
      modifies this
      ensures State() == old(State()).ToggleEmbeddedMap()
    {
      useEmbeddedMap := !useEmbeddedMap;
    }
  }
}
