/**
 * The in-world panel: its lifetime (show, hide), the section it displays,
 * the project detail view, the hit zones that are rebuilt on every content
 * update, click handling by zone name, and the experience-list scroll offset.
 *
 * The panel manager class and the page script's global functions implement
 * the same machine; both are this module. The only behavioural difference,
 * what happens after the back button, is the `backCallback` flag: the class
 * calls its optional callback, the page script always resets the camera.
 */
module Panel {
  import opened Common
  import opened JsText
  import opened Content
  import opened HitZones

  /** The `content` object the panel texture is drawn from. */
  datatype PanelContent = PanelContent(
    activeNav: Section,
    title: string,
    projectDetail: Option<Project>,
    kind: Option<Section>)

  /**
   * The panel mesh: the section recorded on it (unset until the first content
   * update), the content its texture was last drawn from (`None`: the
   * default texture of a fresh panel), its child hit zones, and the opacity
   * of its material (the fade tweens that change it run outside the model).
   */
  datatype Screen = Screen(section: Option<Section>, content: Option<PanelContent>, zones: seq<Zone>, opacity: real)

  datatype State = State(
    screen: Option<Screen>,
    detail: Option<Project>,
    scrollY: real,
    backCallback: bool)

  /** What an operation asks of the outside world. */
  datatype Effect =
    | OpenUrl(url: string)   // window.open in a new tab
    | FadeIn                 // opacity tween 0 -> 1 of the new panel
    | FadeOut                // opacity tween to 0, then disposal of the old panel
    | BackToScene            // camera reset requested by the back button

  datatype Step = Step(state: State, effects: seq<Effect>)

  const Initial: State := State(None, None, 0.0, false)

  function SetBackToSceneCallback(st: State): (r: State)
    ensures r.backCallback
    ensures r.(backCallback := st.backCallback) == st
  {
    st.(backCallback := true)
  }

  /** The heading of a section page when no project is open. */
  function SectionTitle(s: Section): string {
    match s
    case About => "About Me"
    case Skills => "My Skills"
    case Experience => "Experience"
  }

  /** The content of a section page, or of the detail page when a project is open. */
  function ContentFor(detail: Option<Project>, s: Section): PanelContent {
    match detail
    case Some(p) => PanelContent(s, p.title, Some(p), None)
    case None => PanelContent(s, SectionTitle(s), None, Some(s))
  }

  /**
   * The panel shows what its state says: a recorded section, the content
   * drawn for it, and exactly the zones the generator yields for it.
   */
  predicate Consistent(st: State) {
    st.screen.Some? ==>
      var sc := st.screen.value;
      sc.section.Some?
      && sc.content == Some(ContentFor(st.detail, sc.section.value))
      && sc.zones == CreateUIHitboxes(st.detail, OnScreen(sc.section), InlineSocialRow)
  }

  /** `updateUIContent(section)`: record the section, redraw, rebuild the zones. */
  function UpdateUIContent(st: State, s: Section): (r: State)
    ensures st.screen.None? ==> r == st
    ensures st.screen.Some? ==> r.screen.Some? && r.screen.value.section == Some(s) && Consistent(r)
    ensures st.screen.Some? ==> Names(r.screen.value.zones) == ExpectedNames(st.detail, OnScreen(Some(s)))
    ensures st.screen.Some? ==> r.screen.value.opacity == st.screen.value.opacity
    ensures r.detail == st.detail && r.scrollY == st.scrollY && r.backCallback == st.backCallback
  {
    match st.screen
    case None => st
    case Some(sc) =>
      CreateUIHitboxesNames(st.detail, OnScreen(Some(s)), InlineSocialRow);
      st.(screen := Some(Screen(Some(s), Some(ContentFor(st.detail, s)),
                                CreateUIHitboxes(st.detail, OnScreen(Some(s)), InlineSocialRow), sc.opacity)))
  }

  /**
   * `show3DUI`: when no panel is open, create one (its first zones are built
   * before it is registered, so they see no panel), switch it to the about
   * section and start the fade-in from opacity 0. The open project, if any,
   * is kept.
   */
  function Show3DUI(st: State): (r: Step)
    ensures st.screen.Some? ==> r == Step(st, [])
    ensures st.screen.None? ==> r.state.screen.Some? && r.state.screen.value.section == Some(About)
    ensures st.screen.None? ==> r.state.screen.value.opacity == 0.0
    ensures st.screen.None? ==> r.effects == [FadeIn] && Consistent(r.state)
    ensures r.state.detail == st.detail && r.state.scrollY == st.scrollY
  {
    if st.screen.Some? then Step(st, [])
    else
      var created := Screen(None, None, CreateUIHitboxes(st.detail, NoScreen, InlineSocialRow), 0.0);
      Step(UpdateUIContent(st.(screen := Some(created)), About), [FadeIn])
  }

  /** `hide3DUI`: forget the panel at once and fade the old one out. */
  function Hide3DUI(st: State): (r: Step)
    ensures r.state.screen.None?
    ensures r.effects == if st.screen.Some? then [FadeOut] else []
    ensures r.state.detail == st.detail && r.state.scrollY == st.scrollY && r.state.backCallback == st.backCallback
  {
    Step(st.(screen := None), if st.screen.Some? then [FadeOut] else [])
  }

  /** `isUIActive`. */
  predicate IsUIActive(st: State) {
    st.screen.Some?
  }

  /** The URL a link field opens, when the field is truthy. */
  function LinkEffects(detail: Option<Project>, live: bool): (r: seq<Effect>)
    ensures |r| <= 1
    ensures |r| == 1 <==> detail.Some? && Truthy(if live then detail.value.liveUrl else detail.value.githubUrl)
    ensures |r| == 1 ==> r[0] == OpenUrl((if live then detail.value.liveUrl else detail.value.githubUrl).text)
  {
    match detail
    case None => []
    case Some(p) =>
      var f := if live then p.liveUrl else p.githubUrl;
      if Truthy(f) then [OpenUrl(f.text)] else []
  }

  /** The `Project_<id>` branch: open the project with that id, when the table has one. */
  function SelectProject(st: State, id: Option<int>): (r: Step)
    ensures r.effects == []
    ensures (id.Some? && FindProject(Projects, id.value).Some?)
         ==> r.state == UpdateUIContent(st.(detail := FindProject(Projects, id.value)), Experience)
    ensures !(id.Some? && FindProject(Projects, id.value).Some?) ==> r.state == st
  {
    if id.Some? && FindProject(Projects, id.value).Some? then
      Step(UpdateUIContent(st.(detail := FindProject(Projects, id.value)), Experience), [])
    else
      Step(st, [])
  }

  /** `handleUIClick(object)`: apply the action a zone name stands for. */
  function HandleUIClick(st: State, name: string): (r: Step)
    ensures r.state.scrollY == st.scrollY && r.state.backCallback == st.backCallback
    ensures Consistent(st) ==> Consistent(r.state)
  {
    match ClassifyName(name)
    case Back =>
      var h := Hide3DUI(st);
      Step(h.state, h.effects + (if st.backCallback then [BackToScene] else []))
    case BackToProjects => Step(UpdateUIContent(st.(detail := None), Experience), [])
    case OpenLive => Step(st, LinkEffects(st.detail, true))
    case OpenGithub => Step(st, LinkEffects(st.detail, false))
    case Navigate(s) => Step(UpdateUIContent(st.(detail := None), s), [])
    case SocialClick(i) => Step(st, if SocialUrl(i).Some? then [OpenUrl(SocialUrl(i).value)] else [])
    case ProjectClick(id) => SelectProject(st, id)
    case NoAction => Step(st, [])
  }

  // Scrolling of the experience list.

  const ProjectRowHeight: real := 220.0
  const VisibleListHeight: real := 1500.0

  /** `projectsData.length * 220 - 1500`. */
  const MaxScroll: real := |Projects| as real * ProjectRowHeight - VisibleListHeight

  /** The two clamps, in the order the code applies them: first at 0, then at `maxScroll`. */
  function ClampScroll(v: real, maxScroll: real): (r: real)
    ensures r <= maxScroll
    ensures maxScroll >= 0.0 ==> 0.0 <= r
    ensures 0.0 <= v <= maxScroll ==> r == v
  {
    var atLeastZero := if v < 0.0 then 0.0 else v;
    if atLeastZero > maxScroll then maxScroll else atLeastZero
  }

  /**
   * `handleScroll(event)`: only on an open experience page without a project
   * detail; moves by half the wheel delta, clamps and redraws.
   */
  function HandleScroll(st: State, deltaY: real): (r: (bool, State))
    ensures r.0 <==> st.screen.Some? && st.screen.value.section == Some(Experience) && st.detail.None?
    ensures !r.0 ==> r.1 == st
    ensures r.0 ==> r.1.scrollY == ClampScroll(st.scrollY + deltaY * 0.5, MaxScroll)
    ensures r.1.detail == st.detail
    ensures Consistent(st) ==> Consistent(r.1)
  {
    if st.screen.None? || st.screen.value.section != Some(Experience) || st.detail.Some? then (false, st)
    else
      var moved := st.(scrollY := ClampScroll(st.scrollY + deltaY * 0.5, MaxScroll));
      (true, UpdateUIContent(moved, Experience))
  }

  /** `getRaycastTargets()`: the panel and its zones, or nothing without a panel. */
  function GetRaycastTargets(st: State): (r: seq<SceneObject>)
    ensures st.screen.None? ==> r == []
    ensures st.screen.Some? ==> |r| == 1 + |st.screen.value.zones|
    ensures st.screen.Some? ==> r[0] == SceneObject(PanelName, Some(PanelGroupName))
    ensures st.screen.Some? ==> forall i :: 1 <= i < |r| ==>
              r[i] == SceneObject(st.screen.value.zones[i - 1].name, Some(PanelName))
  {
    match st.screen
    case None => []
    case Some(sc) =>
      [SceneObject(PanelName, Some(PanelGroupName))]
      + seq(|sc.zones|, i requires 0 <= i < |sc.zones| => SceneObject(sc.zones[i].name, Some(PanelName)))
  }

  // The panel invariant across operations.

  /**
   * A consistent panel whose project detail is only ever set while a panel
   * is open (the detail view is reached by clicking a project card).
   */
  predicate Coherent(st: State) {
    Consistent(st) && (st.detail.Some? ==> st.screen.Some?)
  }

  /** The zone names a click can hit in this state. */
  function OfferedNames(st: State): seq<string> {
    match st.screen
    case None => []
    case Some(sc) => Names(sc.zones)
  }

  lemma InitialCoherent()
    ensures Coherent(Initial) && !IsUIActive(Initial)
  {
  }

  lemma ShowKeepsCoherent(st: State)
    requires Coherent(st)
    ensures Coherent(Show3DUI(st).state)
    ensures IsUIActive(Show3DUI(st).state)
  {
  }

  lemma ScrollKeepsCoherent(st: State, deltaY: real)
    requires Coherent(st)
    ensures Coherent(HandleScroll(st, deltaY).1)
  {
  }

  /** The back button is offered exactly on the main view. */
  lemma BackButtonOnlyInMainView(detail: Option<Project>, screen: ScreenRef)
    ensures "BackButton" in ExpectedNames(detail, screen) <==> detail.None?
  {
    if detail.Some? {
      var ns := ExpectedNames(detail, screen);
      forall i | 0 <= i < |ns| ensures ns[i] != "BackButton" {
        assert ns[i][0] != 'B' || |ns[i]| != 10;
      }
    } else {
      assert ExpectedNames(detail, screen)[0] == "BackButton";
    }
  }

  /** Only the back button closes an open panel. */
  lemma OnlyBackCloses(st: State, name: string)
    requires st.screen.Some?
    ensures HandleUIClick(st, name).state.screen.None? ==> ClassifyName(name) == Back
  {
    match ClassifyName(name)
    case Back =>
    case BackToProjects =>
    case OpenLive =>
    case OpenGithub =>
    case Navigate(_) =>
    case SocialClick(_) =>
    case ProjectClick(id) =>
    case NoAction =>
  }

  /** Clicking any zone the panel offers keeps the panel coherent. */
  lemma ClickKeepsCoherent(st: State, name: string)
    requires Coherent(st)
    requires name in OfferedNames(st)
    ensures Coherent(HandleUIClick(st, name).state)
  {
    var r := HandleUIClick(st, name).state;
    OnlyBackCloses(st, name);
    if r.screen.None? {
      assert name == "BackButton";
      var sc := st.screen.value;
      CreateUIHitboxesNames(st.detail, OnScreen(sc.section), InlineSocialRow);
      BackButtonOnlyInMainView(st.detail, OnScreen(sc.section));
      assert st.detail.None?;
    }
  }

  /** Hiding the panel makes it inactive, and the back button hides it and asks for the camera reset. */
  lemma BackButtonCloses(st: State)
    requires st.screen.Some?
    ensures !IsUIActive(HandleUIClick(st, "BackButton").state)
    ensures HandleUIClick(st, "BackButton").effects
         == [FadeOut] + (if st.backCallback then [BackToScene] else [])
    ensures HandleUIClick(st, "BackButton").state.detail == st.detail
  {
  }

  /** The `k`-th project card zone of the experience page is `Project_<k>`. */
  lemma ProjectZoneNameListed(k: int)
    requires 1 <= k <= 5
    ensures ProjectZoneName(k) == ExpectedNames(None, OnScreen(Some(Experience)))[3 + k]
  {
    var ns := ExpectedNames(None, OnScreen(Some(Experience)));
    assert IntToString(k) == [DigitChar(k)];
    if k == 1 { assert ns[4] == "Project_1"; }
    else if k == 2 { assert ns[5] == "Project_2"; }
    else if k == 3 { assert ns[6] == "Project_3"; }
    else if k == 4 { assert ns[7] == "Project_4"; }
    else { assert ns[8] == "Project_5"; }
  }

  /** On the experience list every card zone is offered. */
  lemma ProjectCardOffered(st: State, k: int)
    requires Coherent(st) && st.screen.Some? && st.screen.value.section == Some(Experience) && st.detail.None?
    requires 1 <= k <= 5
    ensures ProjectZoneName(k) in OfferedNames(st)
  {
    var ns := ExpectedNames(None, OnScreen(Some(Experience)));
    CreateUIHitboxesNames(None, OnScreen(Some(Experience)), InlineSocialRow);
    assert OfferedNames(st) == ns;
    ProjectZoneNameListed(k);
  }

  /** A click on `Project_<k>` for a listed project redraws the experience page with that project open. */
  lemma ClickProjectZone(st: State, k: int)
    requires 1 <= k <= 5
    ensures HandleUIClick(st, ProjectZoneName(k))
         == Step(UpdateUIContent(st.(detail := Some(Projects[k - 1])), Experience), [])
  {
    ClassifyProjectZoneName(k);
    FindProjectInTable(k);
    assert HandleUIClick(st, ProjectZoneName(k)) == SelectProject(st, Some(k));
  }

  /** On the experience page, clicking card `Project_<k>` opens the detail page of project `k`. */
  lemma OpenProjectFromList(st: State, k: int)
    requires Coherent(st) && st.screen.Some? && st.screen.value.section == Some(Experience) && st.detail.None?
    requires 1 <= k <= 5
    ensures ProjectZoneName(k) in OfferedNames(st)
    ensures HandleUIClick(st, ProjectZoneName(k)).state.detail == Some(Projects[k - 1])
    ensures HandleUIClick(st, ProjectZoneName(k)).effects == []
    ensures OfferedNames(HandleUIClick(st, ProjectZoneName(k)).state)
         == ExpectedNames(Some(Projects[k - 1]), OnScreen(Some(Experience)))
  {
    ProjectCardOffered(st, k);
    ClickProjectZone(st, k);
    var chosen := st.(detail := Some(Projects[k - 1]));
    assert chosen.screen.Some?;
    var r := UpdateUIContent(chosen, Experience);
    assert Names(r.screen.value.zones) == ExpectedNames(Some(Projects[k - 1]), OnScreen(Some(Experience)));
  }

  /** A detail page always offers the way back to the project list. */
  lemma BackToProjectsOffered(st: State)
    requires Coherent(st) && st.detail.Some?
    ensures "BackToProjects" in OfferedNames(st)
  {
    var sc := st.screen.value;
    CreateUIHitboxesNames(st.detail, OnScreen(sc.section), InlineSocialRow);
    assert OfferedNames(st)[0] == "BackToProjects";
  }

  /**
   * On a detail page, `BackToProjects` closes the project and shows the
   * experience list again, with the list's zones, and requests nothing.
   */
  lemma ReturnToProjectList(st: State)
    requires Coherent(st) && st.detail.Some?
    ensures "BackToProjects" in OfferedNames(st)
    ensures HandleUIClick(st, "BackToProjects").effects == []
    ensures HandleUIClick(st, "BackToProjects").state.screen.Some?
    ensures HandleUIClick(st, "BackToProjects").state.detail.None?
    ensures HandleUIClick(st, "BackToProjects").state.screen.value.section == Some(Experience)
    ensures OfferedNames(HandleUIClick(st, "BackToProjects").state) == ExpectedNames(None, OnScreen(Some(Experience)))
  {
    BackToProjectsOffered(st);
    assert ClassifyName("BackToProjects") == BackToProjects;
    var cleared := st.(detail := None);
    assert cleared.screen.Some?;
    var r := UpdateUIContent(cleared, Experience);
    assert HandleUIClick(st, "BackToProjects") == Step(r, []);
    assert Names(r.screen.value.zones) == ExpectedNames(None, OnScreen(Some(Experience)));
  }

  /** On the about page every social zone is offered. */
  lemma SocialZoneOffered(st: State, i: nat)
    requires Coherent(st) && st.screen.Some? && st.screen.value.section == Some(About) && st.detail.None?
    requires i < 3
    ensures SocialZoneName(i) in OfferedNames(st)
  {
    CreateUIHitboxesNames(None, OnScreen(Some(About)), InlineSocialRow);
    assert OfferedNames(st) == ExpectedNames(None, OnScreen(Some(About)));
    assert SocialZoneName(i) == "Social_" + [DigitChar(i)];
    assert OfferedNames(st)[4 + i] == SocialZoneName(i);
  }

  /** A click on `Social_<i>` for one of the three links opens that link and changes nothing. */
  lemma ClickSocialZone(st: State, i: nat)
    requires i < 3
    ensures HandleUIClick(st, SocialZoneName(i)) == Step(st, [OpenUrl(SocialMedia[i].url)])
  {
    ClassifySocialZoneName(i);
    assert SocialUrl(Some(i)) == Some(SocialMedia[i].url);
  }

  /** On the about page, clicking `Social_<i>` opens social link `i` and changes nothing else. */
  lemma OpenSocialLink(st: State, i: nat)
    requires Coherent(st) && st.screen.Some? && st.screen.value.section == Some(About) && st.detail.None?
    requires i < 3
    ensures SocialZoneName(i) in OfferedNames(st)
    ensures HandleUIClick(st, SocialZoneName(i)) == Step(st, [OpenUrl(SocialMedia[i].url)])
  {
    SocialZoneOffered(st, i);
    ClickSocialZone(st, i);
  }

  /** On a detail page, a link zone opens the project's link and changes nothing else. */
  lemma OpenProjectLink(st: State, live: bool)
    requires Coherent(st) && st.detail.Some?
    requires Truthy(if live then st.detail.value.liveUrl else st.detail.value.githubUrl)
    ensures (if live then "LiveProject" else "GithubProject") in OfferedNames(st)
    ensures HandleUIClick(st, if live then "LiveProject" else "GithubProject")
         == Step(st, [OpenUrl((if live then st.detail.value.liveUrl else st.detail.value.githubUrl).text)])
  {
    CreateUIHitboxesNames(st.detail, OnScreen(st.screen.value.section), InlineSocialRow);
  }

  /** Navigation leaves the detail view and shows the chosen section. */
  lemma NavigateClearsDetail(st: State, s: Section)
    requires st.screen.Some?
    ensures HandleUIClick(st, NavZoneName(s)).state.screen.Some?
    ensures HandleUIClick(st, NavZoneName(s)).state.detail.None?
    ensures HandleUIClick(st, NavZoneName(s)).state.screen.value.section == Some(s)
    ensures HandleUIClick(st, NavZoneName(s)).state.screen.value.content.Some?
    ensures HandleUIClick(st, NavZoneName(s)).state.screen.value.content.value.title == SectionTitle(s)
  {
    ClassifyNavZoneName(s);
  }

  // Scrolling.

  /** With five projects the list is shorter than the visible area: the bound is negative. */
  lemma MaxScrollValue()
    ensures MaxScroll == -400.0
  {
    ProjectIds();
  }

  /** With a non-negative bound the clamp projects onto `[0, maxScroll]`. */
  lemma ClampScrollProjects(v: real, m: real)
    requires m >= 0.0
    ensures 0.0 <= ClampScroll(v, m) <= m
    ensures v < 0.0 ==> ClampScroll(v, m) == 0.0
    ensures v > m ==> ClampScroll(v, m) == m
  {
  }

  /** Clamping twice is clamping once, for any bound. */
  lemma ClampScrollIdempotent(v: real, m: real)
    ensures ClampScroll(ClampScroll(v, m), m) == ClampScroll(v, m)
  {
  }

  /**
   * With the bound below zero the second clamp always wins: every handled
   * wheel event leaves the offset at the bound, not inside `[0, maxScroll]`.
   */
  lemma HandledScrollSticksAtBound(st: State, deltaY: real)
    requires HandleScroll(st, deltaY).0
    ensures HandleScroll(st, deltaY).1.scrollY == -400.0
  {
    MaxScrollValue();
  }
}
