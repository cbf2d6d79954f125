/**
 * The stand-alone interaction helper: it builds the same hit zones as the
 * panel (with its own social-icon row), and turns zone clicks into callback
 * invocations instead of redrawing the panel itself.
 */
module Interactions {
  import opened Common
  import opened JsText
  import opened Content
  import opened HitZones

  /** The panel reference the helper holds: the section recorded on it and its child zones. */
  datatype PanelRef = PanelRef(section: Option<Section>, children: seq<Zone>)

  datatype State = State(screen: Option<PanelRef>, detail: Option<Project>)

  const Initial: State := State(None, None)

  /** Which of the optional callbacks the caller supplied. */
  datatype Callbacks = Callbacks(
    onBackToScene: bool,
    onBackToProjects: bool,
    onNavigate: bool,
    onProjectSelect: bool)

  /** What a click caused outside the helper. */
  datatype Outcome =
    | CalledBackToScene
    | CalledBackToProjects
    | CalledNavigate(section: Section)
    | CalledProjectSelect(project: Project)
    | OpenedUrl(url: string)

  function SetCurrentUIScreen(st: State, screen: Option<PanelRef>): (r: State)
    ensures r.screen == screen && r.detail == st.detail
  {
    st.(screen := screen)
  }

  function SetCurrentProjectDetail(st: State, project: Option<Project>): (r: State)
    ensures r.detail == project && r.screen == st.screen
  {
    st.(detail := project)
  }

  /** The panel as the zone generator sees it through the helper's reference. */
  function ScreenView(st: State): ScreenRef {
    match st.screen
    case None => NoScreen
    case Some(p) => OnScreen(p.section)
  }

  /**
   * `createUIHitboxes(parentMesh)`: the zones for the current state, appended
   * to the children the parent mesh already has.
   */
  function CreateUIHitboxes(st: State, parentChildren: seq<Zone>): (r: (seq<Zone>, seq<Zone>))
    ensures r.1 == parentChildren + r.0
    ensures Names(r.0) == ExpectedNames(st.detail, ScreenView(st))
  {
    var zones := HitZones.CreateUIHitboxes(st.detail, ScreenView(st), HelperSocialRow);
    CreateUIHitboxesNames(st.detail, ScreenView(st), HelperSocialRow);
    (zones, parentChildren + zones)
  }

  /** `clearHitboxes()`: the current panel loses all its children. */
  function ClearHitboxes(st: State): (r: State)
    ensures st.screen.None? ==> r == st
    ensures st.screen.Some? ==> r.screen == Some(st.screen.value.(children := []))
    ensures r.detail == st.detail
  {
    match st.screen
    case None => st
    case Some(p) => st.(screen := Some(p.(children := [])))
  }

  /** `handleUIClick(object, callbacks)`: the new state and what was called or opened, in order. */
  function HandleUIClick(st: State, name: string, cb: Callbacks): (r: (State, seq<Outcome>))
    ensures r.0.screen == st.screen
    ensures |r.1| <= 1
  {
    match ClassifyName(name)
    case Back => (st, if cb.onBackToScene then [CalledBackToScene] else [])
    case BackToProjects => (st.(detail := None), if cb.onBackToProjects then [CalledBackToProjects] else [])
    case OpenLive =>
      (st, if st.detail.Some? && Truthy(st.detail.value.liveUrl) then [OpenedUrl(st.detail.value.liveUrl.text)] else [])
    case OpenGithub =>
      (st, if st.detail.Some? && Truthy(st.detail.value.githubUrl) then [OpenedUrl(st.detail.value.githubUrl.text)] else [])
    case Navigate(s) => (st.(detail := None), if cb.onNavigate then [CalledNavigate(s)] else [])
    case SocialClick(i) => (st, if SocialUrl(i).Some? then [OpenedUrl(SocialUrl(i).value)] else [])
    case ProjectClick(id) =>
      var found := if id.Some? then FindProject(Projects, id.value) else None;
      if found.Some? && cb.onProjectSelect then (st.(detail := found), [CalledProjectSelect(found.value)])
      else (st, [])
    case NoAction => (st, [])
  }

  /** `getRaycastTargets()`: the panel and its children, or nothing without a panel. */
  function GetRaycastTargets(st: State): (r: seq<SceneObject>)
    ensures st.screen.None? ==> r == []
    ensures st.screen.Some? ==> |r| == 1 + |st.screen.value.children|
    ensures st.screen.Some? ==> r[0].name == PanelName
    ensures st.screen.Some? ==> forall i :: 1 <= i < |r| ==>
              r[i] == SceneObject(st.screen.value.children[i - 1].name, Some(PanelName))
  {
    match st.screen
    case None => []
    case Some(p) =>
      [SceneObject(PanelName, Some(PanelGroupName))]
      + seq(|p.children|, i requires 0 <= i < |p.children| => SceneObject(p.children[i].name, Some(PanelName)))
  }

  /** `isClickOnElement(name, type)`: name tests per element type; unknown types never match. */
  predicate IsClickOnElement(name: string, elementType: string) {
    if elementType == "navigation" then StartsWith(name, "Nav_")
    else if elementType == "project" then StartsWith(name, "Project_")
    else if elementType == "social" then StartsWith(name, "Social_")
    else if elementType == "back" then name == "BackButton" || name == "BackToProjects"
    else if elementType == "link" then name == "LiveProject" || name == "GithubProject"
    else false
  }

  /** `reset()`: forget the panel and the project detail. */
  function Reset(st: State): (r: State)
    ensures r == Initial
  {
    State(None, None)
  }

  // Agreement between the element-type tests and the click dispatch.

  lemma StartsWithFirst(name: string, prefix: string)
    requires StartsWith(name, prefix) && |prefix| > 0
    ensures |name| > 0 && name[0] == prefix[0]
  {
  }

  /** A `Project_` name is dispatched as a project click, and only such names are. */
  lemma ProjectTypeAgrees(name: string)
    ensures IsClickOnElement(name, "project") <==> ClassifyName(name).ProjectClick?
  {
    if StartsWith(name, "Project_") {
      StartsWithFirst(name, "Project_");
      assert !StartsWith(name, "Social_") by {
        if StartsWith(name, "Social_") { StartsWithFirst(name, "Social_"); }
      }
      NotFixedByFirstLetter(name);
      ClassifyUnreserved(name);
    }
  }

  /** A `Social_` name is dispatched as a social click, and only such names are. */
  lemma SocialTypeAgrees(name: string)
    ensures IsClickOnElement(name, "social") <==> ClassifyName(name).SocialClick?
  {
    if StartsWith(name, "Social_") {
      StartsWithFirst(name, "Social_");
      NotFixedByFirstLetter(name);
      ClassifyUnreserved(name);
    }
  }

  /** The back and link types are exactly the corresponding dispatch cases. */
  lemma BackAndLinkTypesAgree(name: string)
    ensures IsClickOnElement(name, "back") <==> (ClassifyName(name).Back? || ClassifyName(name).BackToProjects?)
    ensures IsClickOnElement(name, "link") <==> (ClassifyName(name).OpenLive? || ClassifyName(name).OpenGithub?)
  {
  }

  /** Every navigation click is a `Nav_` name (the converse fails for unknown sections such as `Nav_Contact`). */
  lemma NavigationTypeAgrees(name: string)
    ensures ClassifyName(name).Navigate? ==> IsClickOnElement(name, "navigation")
    ensures !IsClickOnElement(name, "navigation") ==> !ClassifyName(name).Navigate?
  {
  }

  /** An unknown `Nav_` name is not dispatched at all. */
  lemma UnknownNavigationIgnored()
    ensures IsClickOnElement("Nav_Contact", "navigation")
    ensures ClassifyName("Nav_Contact") == NoAction
  {
    assert "Nav_Contact"[..4] == "Nav_";
    assert !StartsWith("Nav_Contact", "Social_") && !StartsWith("Nav_Contact", "Project_");
  }

  // Click behaviour.

  /** The helper offers the same zone names as the panel; only the social row differs. */
  lemma SameNamesAsPanel(st: State, parentChildren: seq<Zone>)
    ensures Names(CreateUIHitboxes(st, parentChildren).0)
         == Names(HitZones.CreateUIHitboxes(st.detail, ScreenView(st), InlineSocialRow))
  {
    CreateUIHitboxesNames(st.detail, ScreenView(st), InlineSocialRow);
  }

  /** Project selection happens only with a selection callback, and then always for a listed id. */
  lemma ProjectSelection(st: State, k: int, cb: Callbacks)
    requires 1 <= k <= 5
    ensures HandleUIClick(st, ProjectZoneName(k), cb)
         == if cb.onProjectSelect then (st.(detail := Some(Projects[k - 1])), [CalledProjectSelect(Projects[k - 1])])
            else (st, [])
  {
    ClassifyProjectZoneName(k);
    FindProjectInTable(k);
  }

  /** An id missing from the table selects nothing, whatever the callbacks. */
  lemma UnknownProjectIgnored(st: State, k: int, cb: Callbacks)
    requires !(1 <= k <= 5)
    ensures HandleUIClick(st, ProjectZoneName(k), cb) == (st, [])
  {
    ClassifyProjectZoneName(k);
    FindProjectInTable(k);
  }

  /** Navigation and back-to-projects leave the detail view even when no callback is supplied. */
  lemma LeavingDetailNeedsNoCallback(st: State, s: Section, cb: Callbacks)
    ensures HandleUIClick(st, NavZoneName(s), cb).0.detail.None?
    ensures HandleUIClick(st, "BackToProjects", cb).0.detail.None?
    ensures HandleUIClick(st, NavZoneName(s), cb).1 == if cb.onNavigate then [CalledNavigate(s)] else []
  {
    ClassifyNavZoneName(s);
  }

  /** The back button changes no state: going back to the scene is entirely the callback's job. */
  lemma BackButtonKeepsState(st: State, cb: Callbacks)
    ensures HandleUIClick(st, "BackButton", cb).0 == st
    ensures HandleUIClick(st, "BackButton", cb).1 == if cb.onBackToScene then [CalledBackToScene] else []
  {
  }

  /** `BackToProjects` clears the detail and calls `onBackToProjects` exactly when it was supplied. */
  lemma BackToProjectsCallback(st: State, cb: Callbacks)
    ensures HandleUIClick(st, "BackToProjects", cb)
         == (st.(detail := None), if cb.onBackToProjects then [CalledBackToProjects] else [])
  {
  }

  /**
   * The link zones never change the state, and open the open project's live
   * or repository URL exactly when a project is set and that field is truthy.
   */
  lemma LinkZonesOpen(st: State, cb: Callbacks)
    ensures HandleUIClick(st, "LiveProject", cb).0 == st && HandleUIClick(st, "GithubProject", cb).0 == st
    ensures HandleUIClick(st, "LiveProject", cb).1 != [] <==> st.detail.Some? && Truthy(st.detail.value.liveUrl)
    ensures HandleUIClick(st, "GithubProject", cb).1 != [] <==> st.detail.Some? && Truthy(st.detail.value.githubUrl)
    ensures st.detail.Some? && Truthy(st.detail.value.liveUrl)
            ==> HandleUIClick(st, "LiveProject", cb).1 == [OpenedUrl(st.detail.value.liveUrl.text)]
    ensures st.detail.Some? && Truthy(st.detail.value.githubUrl)
            ==> HandleUIClick(st, "GithubProject", cb).1 == [OpenedUrl(st.detail.value.githubUrl.text)]
  {
  }

  /** Social zone `i` opens social link `i`. */
  lemma SocialZoneOpens(st: State, i: nat, cb: Callbacks)
    requires i < 3
    ensures HandleUIClick(st, SocialZoneName(i), cb) == (st, [OpenedUrl(SocialMedia[i].url)])
  {
    ClassifySocialZoneName(i);
  }
}
