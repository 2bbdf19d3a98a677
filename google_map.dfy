/** The decisions of the map-API widget component (`GoogleMapComponent`, in
    its `.jsx` and `.tsx` versions, which agree line for line on everything
    modelled here): its own attraction filter, the trail stroke opacity, when
    it falls back to the fallback map, and when and where it opens the info
    window. Whether the map API is loaded and whether the map reported an
    error are inputs. */
module GoogleMap {
  import opened Seqs
  import opened Records

  /** The `find` predicate `t => t.id === id`. */
  function TrailHasId(id: int): Trail -> bool
  {
    (t: Trail) => t.id == id
  }

  /** The `find` predicate `a => a.id === id`. */
  function AttractionHasId(id: int): Attraction -> bool
  {
    (a: Attraction) => a.id == id
  }

  /** `trails.find(t => t.id === id)`. */
  function TrailById(trails: seq<Trail>, id: int): Option<Trail>
  {
    Find(trails, TrailHasId(id))
  }

  /** The attraction's listed trail does not rule it out: either no trail
      has that id, or the first one that does is family-friendly. */
  function TrailAllows(a: Attraction, trails: seq<Trail>): (r: bool)
    ensures r <==> (forall i | 0 <= i < |trails| :: trails[i].id != a.onTrail)
                   || (exists i :: IsFirstMatch(trails, TrailHasId(a.onTrail), i) && trails[i].familyFriendly)
  {
    var trail := TrailById(trails, a.onTrail);
    trail.None? || trail.value.familyFriendly
  }

  /** The per-attraction test of the component's `filteredAttractions`. */
  function KeepMarker(a: Attraction, trails: seq<Trail>, showFamilyFriendly: bool, showTrailsOnly: bool): (r: bool)
    ensures !showFamilyFriendly ==> r
    ensures r <==> (showFamilyFriendly ==> a.familyFriendly)
                   && (showFamilyFriendly && showTrailsOnly ==> TrailAllows(a, trails))
  {
    if showFamilyFriendly && !a.familyFriendly then false
    else if showTrailsOnly then
      var trail := TrailById(trails, a.onTrail);
      !(showFamilyFriendly && trail.Some? && !trail.value.familyFriendly)
    else true
  }

  /** `filteredAttractions`: without the family flag nothing is dropped (the
      trails-only branch can only drop together with it); with it only
      family-friendly attractions stay, and with both flags also only those
      whose listed trail allows them. Order is preserved. */
  function FilteredAttractions(attractions: seq<Attraction>, trails: seq<Trail>,
                               showFamilyFriendly: bool, showTrailsOnly: bool): (r: seq<Attraction>)
    ensures IsSubsequence(r, attractions)
    ensures !showFamilyFriendly ==> r == attractions
    ensures forall a | a in r :: a in attractions
    ensures showFamilyFriendly ==> forall a | a in r :: a.familyFriendly
    ensures showFamilyFriendly && showTrailsOnly ==> forall a | a in r :: TrailAllows(a, trails)
    ensures forall a | a in attractions && (showFamilyFriendly ==> a.familyFriendly)
                                        && (showFamilyFriendly && showTrailsOnly ==> TrailAllows(a, trails)) :: a in r
  {
    var keep := (a: Attraction) => KeepMarker(a, trails, showFamilyFriendly, showTrailsOnly);
    FilterIsSubsequence(attractions, keep);
    FilterMembers(attractions, keep);
    if !showFamilyFriendly then FilterKeepsAll(attractions, keep); Filter(attractions, keep)
    else Filter(attractions, keep)
  }

  /** With both flags, a family-friendly attraction whose `onTrail` matches no
      trail is kept. */
  lemma UnknownTrailIsKept(attractions: seq<Attraction>, trails: seq<Trail>, a: Attraction)
    requires a in attractions && a.familyFriendly
    requires forall i | 0 <= i < |trails| :: trails[i].id != a.onTrail
    ensures a in FilteredAttractions(attractions, trails, true, true)
  {
  }

  /** With both flags, an attraction whose listed trail exists and is not
      family-friendly is dropped. */
  lemma HikingTrailAttractionIsDropped(attractions: seq<Attraction>, trails: seq<Trail>, a: Attraction, k: nat)
    requires k < |trails| && trails[k].id == a.onTrail && !trails[k].familyFriendly
    requires forall j | 0 <= j < k :: trails[j].id != a.onTrail
    ensures a !in FilteredAttractions(attractions, trails, true, true)
  {
  }

  /** Only the first trail with a given id is consulted: a family-friendly
      duplicate listed first keeps the attraction, listed second it does not. */
  lemma FirstTrailWithIdDecides()
    ensures var a := Attraction(1, Name("", ""), LatLng(0.0, 0.0), true, 5);
            var easy := Trail(5, Name("", ""), true, []);
            var hard := Trail(5, Name("", ""), false, []);
            && FilteredAttractions([a], [easy, hard], true, true) == [a]
            && FilteredAttractions([a], [hard, easy], true, true) == []
  {
  }

  /** The Polyline `strokeOpacity`: dimmed to 0.5 exactly for a non-family
      trail while both flags are set, otherwise fully opaque. */
  function StrokeOpacity(trail: Trail, showTrailsOnly: bool, showFamilyFriendly: bool): (r: real)
    ensures r == 0.5 || r == 1.0
    ensures r == 0.5 <==> showTrailsOnly && showFamilyFriendly && !trail.familyFriendly
  {
    if showTrailsOnly && showFamilyFriendly && !trail.familyFriendly then 0.5 else 1.0
  }

  /** The info window: its anchor position and text are those of the first
      attraction with the tooltip's id, each absent (`undefined`) when none
      has it. */
  datatype InfoWindow = InfoWindow(position: Option<LatLng>, text: Option<string>)

  /** The info window, if shown: only when a tooltip id is set and the
      attraction list is non-empty, even if no attraction has that id. */
  function InfoWindowFor(attractions: seq<Attraction>, activeTooltip: Option<int>, language: Language): (w: Option<InfoWindow>)
    ensures w.Some? <==> activeTooltip.Some? && |attractions| > 0
    ensures w.Some? ==> (w.value.position.None? <==> forall i | 0 <= i < |attractions| :: attractions[i].id != activeTooltip.value)
    ensures w.Some? ==> (w.value.position.None? <==> w.value.text.None?)
    ensures w.Some? && w.value.position.Some? ==>
              exists i :: IsFirstMatch(attractions, AttractionHasId(activeTooltip.value), i)
                          && w.value.position.value == attractions[i].position
                          && w.value.text.value == NameIn(attractions[i].name, language)
  {
    if activeTooltip.Some? && |attractions| > 0 then
      var hit := Find(attractions, AttractionHasId(activeTooltip.value));
      assert hit.None? <==> forall i | 0 <= i < |attractions| :: attractions[i].id != activeTooltip.value by {
        assert forall i | 0 <= i < |attractions| ::
          AttractionHasId(activeTooltip.value)(attractions[i]) == (attractions[i].id == activeTooltip.value);
      }
      if hit.Some? then
        Some(InfoWindow(Some(hit.value.position), Some(NameIn(hit.value.name, language))))
      else
        Some(InfoWindow(None, None))
    else None
  }

  /** The component's props that the modelled logic reads. */
  datatype Props = Props(
    attractions: seq<Attraction>,
    trails: seq<Trail>,
    activeTooltip: Option<int>,
    showFamilyFriendly: bool,
    showTrailsOnly: bool,
    language: Language)

  datatype Polyline = Polyline(trailId: int, path: seq<LatLng>, strokeOpacity: real)

  /** What the component renders: the fallback map, or the widget with one
      polyline per trail, one marker per kept attraction and the info window. */
  datatype Rendered =
    | FallbackMap
    | MapWidget(polylines: seq<Polyline>, markers: seq<Attraction>, infoWindow: Option<InfoWindow>)

  /** The component's render decision. */
  function Render(props: Props, apiLoaded: bool, mapError: bool): (r: Rendered)
    ensures r.FallbackMap? <==> !apiLoaded || mapError
    ensures r.MapWidget? ==> |r.polylines| == |props.trails|
    ensures r.MapWidget? ==> forall i | 0 <= i < |props.trails| ::
              r.polylines[i] == Polyline(props.trails[i].id, props.trails[i].coordinates,
                                         StrokeOpacity(props.trails[i], props.showTrailsOnly, props.showFamilyFriendly))
    ensures r.MapWidget? ==>
              r.markers == FilteredAttractions(props.attractions, props.trails, props.showFamilyFriendly, props.showTrailsOnly)
    ensures r.MapWidget? ==> r.infoWindow == InfoWindowFor(props.attractions, props.activeTooltip, props.language)
  {
    if !apiLoaded || mapError then FallbackMap
    else
      var trails := props.trails;
      MapWidget(
        seq(|trails|, i requires 0 <= i < |trails| =>
          Polyline(trails[i].id, trails[i].coordinates,
                   StrokeOpacity(trails[i], props.showTrailsOnly, props.showFamilyFriendly))),
        FilteredAttractions(props.attractions, trails, props.showFamilyFriendly, props.showTrailsOnly),
        InfoWindowFor(props.attractions, props.activeTooltip, props.language))
  }

  /** The page renders the widget without the two filter props, so they take
      their default `false`: every attraction it is given gets a marker and
      every trail is drawn fully opaque. */
  lemma PageWiringDisablesWidgetFilters(attractions: seq<Attraction>, trails: seq<Trail>,
                                        activeTooltip: Option<int>, language: Language)
    ensures var r := Render(Props(attractions, trails, activeTooltip, false, false, language), true, false);
            && r.MapWidget?
            && r.markers == attractions
            && forall i | 0 <= i < |r.polylines| :: r.polylines[i].strokeOpacity == 1.0
  {
  }
}
