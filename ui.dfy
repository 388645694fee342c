/** The UI slice: selection, the active view, drag state, zoom and display toggles. */
module Ui {
  import opened Types

  datatype View = RosterView | RotationView | AnalyticsView | SettingsView

  const MinZoom: real := 0.5
  const MaxZoom: real := 2.0

  /** `Math.max(0.5, Math.min(2, level))`. */
  function ClampZoom(level: real): (z: real)
    ensures MinZoom <= z <= MaxZoom
    ensures MinZoom <= level <= MaxZoom ==> z == level
    ensures level < MinZoom ==> z == MinZoom
    ensures level > MaxZoom ==> z == MaxZoom
  {
    var capped := if level < MaxZoom then level else MaxZoom;
    if MinZoom < capped then capped else MinZoom
  }

  /** Clamping is monotone: a larger requested zoom never gives a smaller one. */
  lemma ClampZoomMonotone(a: real, b: real)
    requires a <= b
    ensures ClampZoom(a) <= ClampZoom(b)
  {
  }

  class UiState {
    var selectedPlayerId: Option<string>
    var selectedSegmentId: Option<string>
    var activeView: View
    var draggingItemId: Option<string>
    var zoomLevel: real
    var showFatigueIndicators: bool
    var showRecommendations: bool
    var timelineScroll: real

    /** `initialState`. */
    ghost predicate IsInitial()
      reads this
    {
      && selectedPlayerId == None
      && selectedSegmentId == None
      && activeView == RosterView
      && draggingItemId == None
      && zoomLevel == 1.0
      && showFatigueIndicators
      && showRecommendations
      && timelineScroll == 0.0
    }

    /** The zoom level stays inside `[0.5, 2]`. */
    ghost predicate Valid()
      reads this
    {
      MinZoom <= zoomLevel <= MaxZoom
    }

    constructor()
      ensures IsInitial() && Valid()
    {
      selectedPlayerId := None;
      selectedSegmentId := None;
      activeView := RosterView;
      draggingItemId := None;
      zoomLevel := 1.0;
      showFatigueIndicators := true;
      showRecommendations := true;
      timelineScroll := 0.0;
    }

    /** `selectPlayer`: selecting a player (or none) clears the selected segment. */
    method SelectPlayer(id: Option<string>)
      requires Valid()
      modifies this
      ensures selectedPlayerId == id && selectedSegmentId == None
      ensures activeView == old(activeView) && draggingItemId == old(draggingItemId)
      ensures zoomLevel == old(zoomLevel) && timelineScroll == old(timelineScroll)
      ensures showFatigueIndicators == old(showFatigueIndicators) && showRecommendations == old(showRecommendations)
      ensures Valid()
    {
      selectedPlayerId := id;
      selectedSegmentId := None;
    }

    /** `selectSegment`. */
    method SelectSegment(id: Option<string>)
      requires Valid()
      modifies this
      ensures selectedSegmentId == id
      ensures selectedPlayerId == old(selectedPlayerId)
      ensures activeView == old(activeView) && draggingItemId == old(draggingItemId)
      ensures zoomLevel == old(zoomLevel) && timelineScroll == old(timelineScroll)
      ensures showFatigueIndicators == old(showFatigueIndicators) && showRecommendations == old(showRecommendations)
      ensures Valid()
    {
      selectedSegmentId := id;
    }

    /** `setActiveView`. */
    method SetActiveView(view: View)
      requires Valid()
      modifies this
      ensures activeView == view
      ensures selectedPlayerId == old(selectedPlayerId) && selectedSegmentId == old(selectedSegmentId)
      ensures draggingItemId == old(draggingItemId)
      ensures zoomLevel == old(zoomLevel) && timelineScroll == old(timelineScroll)
      ensures showFatigueIndicators == old(showFatigueIndicators) && showRecommendations == old(showRecommendations)
      ensures Valid()
    {
      activeView := view;
    }

    /** `setDraggingItem`. */
    method SetDraggingItem(id: Option<string>)
      requires Valid()
      modifies this
      ensures draggingItemId == id
      ensures selectedPlayerId == old(selectedPlayerId) && selectedSegmentId == old(selectedSegmentId)
      ensures activeView == old(activeView)
      ensures zoomLevel == old(zoomLevel) && timelineScroll == old(timelineScroll)
      ensures showFatigueIndicators == old(showFatigueIndicators) && showRecommendations == old(showRecommendations)
      ensures Valid()
    {
      draggingItemId := id;
    }

    /** `setZoomLevel`: stores the requested level clamped to `[0.5, 2]`. */
    method SetZoomLevel(level: real)
      requires Valid()
      modifies this
      ensures zoomLevel == ClampZoom(level)
      ensures selectedPlayerId == old(selectedPlayerId) && selectedSegmentId == old(selectedSegmentId)
      ensures activeView == old(activeView) && draggingItemId == old(draggingItemId)
      ensures timelineScroll == old(timelineScroll)
      ensures showFatigueIndicators == old(showFatigueIndicators) && showRecommendations == old(showRecommendations)
      ensures Valid()
    {
      zoomLevel := ClampZoom(level);
    }

    /** `toggleFatigueIndicators`. */
    method ToggleFatigueIndicators()
      requires Valid()
      modifies this
      ensures showFatigueIndicators == !old(showFatigueIndicators)
      ensures showRecommendations == old(showRecommendations)
      ensures selectedPlayerId == old(selectedPlayerId) && selectedSegmentId == old(selectedSegmentId)
      ensures activeView == old(activeView) && draggingItemId == old(draggingItemId)
      ensures zoomLevel == old(zoomLevel) && timelineScroll == old(timelineScroll)
      ensures Valid()
    {
      showFatigueIndicators := !showFatigueIndicators;
    }

    /** `toggleRecommendations`. */
    method ToggleRecommendations()
      requires Valid()
      modifies this
      ensures showRecommendations == !old(showRecommendations)
      ensures showFatigueIndicators == old(showFatigueIndicators)
      ensures selectedPlayerId == old(selectedPlayerId) && selectedSegmentId == old(selectedSegmentId)
      ensures activeView == old(activeView) && draggingItemId == old(draggingItemId)
      ensures zoomLevel == old(zoomLevel) && timelineScroll == old(timelineScroll)
      ensures Valid()
    {
      showRecommendations := !showRecommendations;
    }

    /** `setTimelineScroll`. */
    method SetTimelineScroll(scroll: real)
      requires Valid()
      modifies this
      ensures timelineScroll == scroll
      ensures selectedPlayerId == old(selectedPlayerId) && selectedSegmentId == old(selectedSegmentId)
      ensures activeView == old(activeView) && draggingItemId == old(draggingItemId)
      ensures zoomLevel == old(zoomLevel)
      ensures showFatigueIndicators == old(showFatigueIndicators) && showRecommendations == old(showRecommendations)
      ensures Valid()
    {
      timelineScroll := scroll;
    }

    /** `resetUiState`: back to the initial state. */
    method ResetUiState()
      modifies this
      ensures IsInitial() && Valid()
    {
      selectedPlayerId := None;
      selectedSegmentId := None;
      activeView := RosterView;
      draggingItemId := None;
      zoomLevel := 1.0;
      showFatigueIndicators := true;
      showRecommendations := true;
      timelineScroll := 0.0;
    }
  }

  /** Toggling either display flag twice leaves the whole state as it was. */
  method ToggleTwiceIsIdentity(ui: UiState)
    requires ui.Valid()
    modifies ui
    ensures ui.showFatigueIndicators == old(ui.showFatigueIndicators)
    ensures ui.showRecommendations == old(ui.showRecommendations)
    ensures ui.selectedPlayerId == old(ui.selectedPlayerId) && ui.selectedSegmentId == old(ui.selectedSegmentId)
    ensures ui.activeView == old(ui.activeView) && ui.draggingItemId == old(ui.draggingItemId)
    ensures ui.zoomLevel == old(ui.zoomLevel) && ui.timelineScroll == old(ui.timelineScroll)
  {
    ui.ToggleFatigueIndicators();
    ui.ToggleFatigueIndicators();
    ui.ToggleRecommendations();
    ui.ToggleRecommendations();
  }
}
