/**
 * The page script's own wiring of the panel and the camera: its click and
 * wheel listeners, its raycast target choice, and the hover cursor updated
 * on every rendered frame. The scene always exists here, the camera
 * transitions take no completion callback, and the back button always
 * sends the camera back to the overview. Opening the panel adds the panel
 * group to the scene, where it stays.
 */
module App {
  import opened Common
  import opened HitZones
  import Panel
  import Camera
  import Dispatch

  /** The page: the panel state, the camera, and the scene's top-level children. */
  datatype Page = Page(ui: Panel.State, cam: Camera.Cam, scene: seq<SceneObject>)

  /** The page at start-up: no panel, the camera at rest, and the back button wired to the camera reset. */
  function Initial(scene: seq<SceneObject>): (r: Page)
    ensures !Panel.IsUIActive(r.ui) && !Camera.IsAnimating(r.cam) && r.ui.backCallback
    ensures Camera.Valid(r.cam) && Panel.Coherent(r.ui)
  {
    Camera.InitialValid();
    Panel.InitialCoherent();
    Page(Panel.SetBackToSceneCallback(Panel.Initial), Camera.Initial, scene)
  }

  /** The same page seen through the event manager, which finds its scene set. */
  function AsManager(p: Page): Dispatch.Manager {
    Dispatch.Manager(p.ui, p.cam, Some(p.scene), 0.0, 0.0)
  }

  /** `getRaycastTargets()`: the panel and its zones while it is open, else the scene's children. */
  function GetRaycastTargets(p: Page): (r: seq<SceneObject>)
    ensures Panel.IsUIActive(p.ui) ==> r == Panel.GetRaycastTargets(p.ui)
    ensures !Panel.IsUIActive(p.ui) ==> r == p.scene
  {
    if Panel.IsUIActive(p.ui) then Panel.GetRaycastTargets(p.ui) else p.scene
  }

  /**
   * The click listener: ignored while the camera moves; otherwise the first
   * matching intersection opens the panel (with the zoom) or is a panel
   * click, and a back-to-scene request resets the camera.
   */
  function OnClick(p: Page, hits: seq<SceneObject>, worldPosition: SceneObject -> Camera.Vec3, now: real): (r: (Page, seq<Panel.Effect>))
    ensures Camera.IsAnimating(p.cam) ==> r == (p, [])
    ensures r.0.scene == p.scene || r.0.scene == Dispatch.AddChild(p.scene, PanelGroup)
    ensures r.0.ui == Dispatch.OnClick(AsManager(p), hits, worldPosition, now).0.ui
    ensures Panel.BackToScene !in r.1
  {
    var (m, effects) := Dispatch.OnClick(AsManager(p), hits, worldPosition, now);
    var cam := if Panel.BackToScene in effects then Camera.ResetCamera(m.cam, now, false).0 else m.cam;
    (Page(m.ui, cam, m.scene.value), Without(effects, Panel.BackToScene))
  }

  /** The wheel listener: the panel's scroll rule, applied directly. */
  function OnWheel(p: Page, deltaY: real): (r: Page)
    ensures r.cam == p.cam && r.scene == p.scene
    ensures !Panel.IsUIActive(p.ui) ==> r == p
  {
    p.(ui := Panel.HandleScroll(p.ui, deltaY).1)
  }

  /** One rendered frame: the camera transition advances, then the cursor follows what is under the pointer. */
  function RenderFrame(p: Page, now: real, hits: seq<SceneObject>): (r: (Page, Dispatch.Cursor))
    ensures r.0 == p.(cam := Camera.Tick(p.cam, now).0)
    ensures r.1 == Dispatch.Pointer <==> exists j :: 0 <= j < |hits| && Dispatch.KindOf(hits[j]).Some?
  {
    (p.(cam := Camera.Tick(p.cam, now).0), if Dispatch.FirstHit(hits).Some? then Dispatch.Pointer else Dispatch.Default)
  }

  // Properties.

  /** The page and the event manager choose the same targets once the manager has its scene. */
  lemma TargetsAgreeWithManager(p: Page)
    ensures GetRaycastTargets(p) == Dispatch.GetRaycastTargets(AsManager(p))
  {
  }

  /** The page's wheel listener and the manager's forwarding have the same effect on the panel. */
  lemma WheelAgreesWithManager(p: Page, deltaY: real)
    ensures OnWheel(p, deltaY).ui == Dispatch.OnWheel(AsManager(p), deltaY).ui
  {
  }

  /** The page's cursor is the manager's cursor, which always has a scene here. */
  lemma CursorAgreesWithManager(p: Page, now: real, hits: seq<SceneObject>)
    ensures Dispatch.UpdateCursor(AsManager(p), hits) == Some(RenderFrame(p, now, hits).1)
  {
  }

  /** A click whose first match is the back button is the panel's back-button click. */
  lemma BackClickDispatched(p: Page, hits: seq<SceneObject>, worldPosition: SceneObject -> Camera.Vec3, now: real)
    requires !Camera.IsAnimating(p.cam)
    requires Dispatch.FirstHit(hits).Some?
    requires hits[Dispatch.FirstHit(hits).value] == SceneObject("BackButton", Some(PanelName))
    ensures Dispatch.OnClick(AsManager(p), hits, worldPosition, now)
         == (AsManager(p).(ui := Panel.HandleUIClick(p.ui, "BackButton").state), Panel.HandleUIClick(p.ui, "BackButton").effects)
  {
    Dispatch.ShortPanelChild("BackButton");
  }

  /** Removing the camera-reset request from the back button's effects leaves the fade-out. */
  lemma FadeOutKept()
    ensures Without([Panel.FadeOut, Panel.BackToScene], Panel.BackToScene) == [Panel.FadeOut]
  {
    WithoutConcat([Panel.FadeOut], [Panel.BackToScene], Panel.BackToScene);
    assert [Panel.FadeOut] + [Panel.BackToScene] == [Panel.FadeOut, Panel.BackToScene];
  }

  /** A click changes the scene only when it opens the panel from the overview, and then by adding the panel group. */
  lemma ClickAddsOnlyPanelGroup(p: Page, hits: seq<SceneObject>, worldPosition: SceneObject -> Camera.Vec3, now: real)
    ensures OnClick(p, hits, worldPosition, now).0.scene != p.scene
        ==> !Panel.IsUIActive(p.ui) && Dispatch.FirstHit(hits).Some?
            && Dispatch.KindOf(hits[Dispatch.FirstHit(hits).value]) == Some(Dispatch.ScreenHit)
            && OnClick(p, hits, worldPosition, now).0.scene == Dispatch.AddChild(p.scene, PanelGroup)
  {
  }

  /** The back button closes the panel and starts the camera back to the overview. */
  lemma BackButtonReturnsToOverview(p: Page, hits: seq<SceneObject>, worldPosition: SceneObject -> Camera.Vec3, now: real)
    requires p.ui.backCallback && Panel.IsUIActive(p.ui) && !Camera.IsAnimating(p.cam)
    requires Dispatch.FirstHit(hits).Some?
    requires hits[Dispatch.FirstHit(hits).value] == SceneObject("BackButton", Some(PanelName))
    ensures !Panel.IsUIActive(OnClick(p, hits, worldPosition, now).0.ui)
    ensures Camera.IsAnimating(OnClick(p, hits, worldPosition, now).0.cam)
    ensures OnClick(p, hits, worldPosition, now).0.cam.pending.value.endPosition == Camera.OriginalPosition
    ensures OnClick(p, hits, worldPosition, now).1 == [Panel.FadeOut]
  {
    BackClickDispatched(p, hits, worldPosition, now);
    Panel.BackButtonCloses(p.ui);
    FadeOutKept();
  }

  /**
   * A whole visit: a screen click from the overview opens the panel; once the
   * zoom has run its course the back button closes it again and the camera
   * heads back to the overview, with the open project, if any, untouched.
   * The panel group stays in the scene after the panel is closed.
   */
  lemma OpenThenBack(p: Page, screenHits: seq<SceneObject>, backHits: seq<SceneObject>,
                     worldPosition: SceneObject -> Camera.Vec3, t0: real, t1: real, t2: real)
    requires Camera.Valid(p.cam) && !Camera.IsAnimating(p.cam)
    requires !Panel.IsUIActive(p.ui) && p.ui.backCallback
    requires Dispatch.FirstHit(screenHits).Some?
    requires Dispatch.KindOf(screenHits[Dispatch.FirstHit(screenHits).value]) == Some(Dispatch.ScreenHit)
    requires t1 - t0 >= Camera.Duration
    requires Dispatch.FirstHit(backHits).Some?
    requires backHits[Dispatch.FirstHit(backHits).value] == SceneObject("BackButton", Some(PanelName))
    ensures var p1 := OnClick(p, screenHits, worldPosition, t0).0;
            var p2 := RenderFrame(p1, t1, []).0;
            var p3 := OnClick(p2, backHits, worldPosition, t2).0;
            && Panel.IsUIActive(p1.ui) && Camera.IsAnimating(p1.cam)
            && !Camera.IsAnimating(p2.cam) && p2.cam.position == Camera.UIPosition
            && !Panel.IsUIActive(p3.ui) && Camera.IsAnimating(p3.cam)
            && p3.ui.detail == p.ui.detail
            && p3.scene == Dispatch.AddChild(p.scene, PanelGroup)
  {
    Dispatch.ScreenClickOpensPanel(AsManager(p), screenHits, worldPosition, t0);
    Dispatch.ScreenClickAddsPanelGroup(AsManager(p), screenHits, worldPosition, t0);
    var p1 := OnClick(p, screenHits, worldPosition, t0).0;
    assert p1.ui.backCallback;
    var p2 := RenderFrame(p1, t1, []).0;
    BackButtonReturnsToOverview(p2, backHits, worldPosition, t2);
  }
}
