/**
 * The pointer event manager: pointer coordinates, the choice of raycast
 * targets, the click guard while the camera moves, the "first matching
 * intersection wins" rule shared by clicks and the hover cursor, and wheel
 * forwarding to the panel.
 *
 * Raycasting itself is outside the model: an event comes with the list of
 * intersected objects, nearest first, as the raycaster would report it, and
 * the world position of a scene object is a parameter.
 */
module Dispatch {
  import opened Common
  import opened JsText
  import opened HitZones
  import Panel
  import Camera

  /** The name fragment that marks the clickable monitor mesh of the scene. */
  const ScreenMarker: string := "ClickableScreen_Raycaster"

  /** The two classes of intersection a click or hover reacts to. */
  datatype HitKind = ScreenHit | PanelHit

  /** The class of one intersected object; the screen-name test comes before the parent test. */
  function KindOf(o: SceneObject): Option<HitKind> {
    if Includes(o.name, ScreenMarker) then Some(ScreenHit)
    else if o.parentName == Some(PanelName) then Some(PanelHit)
    else None
  }

  /** The position of the first intersection that belongs to one of the two classes. */
  function FirstHit(hits: seq<SceneObject>): (r: Option<nat>)
    ensures r.Some? ==> r.value < |hits| && KindOf(hits[r.value]).Some?
    ensures r.Some? ==> forall j :: 0 <= j < r.value ==> KindOf(hits[j]).None?
    ensures r.None? <==> forall j :: 0 <= j < |hits| ==> KindOf(hits[j]).None?
  {
    if |hits| == 0 then None
    else if KindOf(hits[0]).Some? then Some(0)
    else
      var rest := FirstHit(hits[1..]);
      assert forall j :: 1 <= j < |hits| ==> hits[j] == hits[1..][j - 1];
      if rest.Some? then Some(rest.value + 1) else None
  }

  datatype Cursor = Pointer | Default

  /**
   * The manager: the panel it forwards to, the camera controller it asks
   * about animations, the scene's children once a scene is set, and the
   * pointer in normalised device coordinates.
   */
  datatype Manager = Manager(
    ui: Panel.State,
    cam: Camera.Cam,
    scene: Option<seq<SceneObject>>,
    pointerX: real,
    pointerY: real)

  /** A manager before its scene is set, with the pointer at the centre. */
  function Create(ui: Panel.State, cam: Camera.Cam): (r: Manager)
    ensures r.scene.None? && r.ui == ui && r.cam == cam
  {
    Manager(ui, cam, None, 0.0, 0.0)
  }

  function SetScene(m: Manager, children: seq<SceneObject>): (r: Manager)
    ensures r.scene == Some(children) && r.(scene := m.scene) == m
  {
    m.(scene := Some(children))
  }

  /** Client pixel coordinates to normalised device coordinates, with y pointing up. */
  function ToNdc(cx: real, cy: real, width: real, height: real): (r: (real, real))
    requires width > 0.0 && height > 0.0
    ensures cx == 0.0 ==> r.0 == -1.0
    ensures cx == width ==> r.0 == 1.0
    ensures cy == 0.0 ==> r.1 == 1.0
    ensures cy == height ==> r.1 == -1.0
  {
    assert width / width == 1.0 && height / height == 1.0;
    ((cx / width) * 2.0 - 1.0, -(cy / height) * 2.0 + 1.0)
  }

  /** The pixel a device coordinate pair stands for: the inverse of `ToNdc`. */
  function FromNdc(x: real, y: real, width: real, height: real): (r: (real, real))
    requires width > 0.0 && height > 0.0
  {
    ((x + 1.0) / 2.0 * width, (1.0 - y) / 2.0 * height)
  }

  /** `getRaycastTargets()`: the panel's targets while it is open, else the scene's children, else nothing. */
  function GetRaycastTargets(m: Manager): (r: seq<SceneObject>)
    ensures Panel.IsUIActive(m.ui) ==> r == Panel.GetRaycastTargets(m.ui)
    ensures !Panel.IsUIActive(m.ui) && m.scene.Some? ==> r == m.scene.value
    ensures !Panel.IsUIActive(m.ui) && m.scene.None? ==> r == []
  {
    if Panel.IsUIActive(m.ui) then Panel.GetRaycastTargets(m.ui)
    else if m.scene.Some? then m.scene.value
    else []
  }

  /** `updateCursor()`: without a scene the cursor is left alone; otherwise pointer iff some intersection matches. */
  function UpdateCursor(m: Manager, hits: seq<SceneObject>): (r: Option<Cursor>)
    ensures r.None? <==> m.scene.None?
    ensures r == Some(Pointer) <==> m.scene.Some? && exists j :: 0 <= j < |hits| && KindOf(hits[j]).Some?
  {
    if m.scene.None? then None
    else if FirstHit(hits).Some? then Some(Pointer)
    else Some(Default)
  }

  /** `onMouseMove(event)`: store the pointer, then update the cursor for the objects under it. */
  function OnMouseMove(m: Manager, cx: real, cy: real, width: real, height: real, hits: seq<SceneObject>): (r: (Manager, Option<Cursor>))
    requires width > 0.0 && height > 0.0
    ensures (r.0.pointerX, r.0.pointerY) == ToNdc(cx, cy, width, height)
    ensures r.0.(pointerX := m.pointerX, pointerY := m.pointerY) == m
    ensures r.1 == UpdateCursor(m, hits)
  {
    var p := ToNdc(cx, cy, width, height);
    (m.(pointerX := p.0, pointerY := p.1), UpdateCursor(m, hits))
  }

  /**
   * `scene.add(object)`: the object leaves its old place among the children,
   * if it had one, and becomes the last child. Objects are told apart by
   * name and parent.
   */
  function AddChild(children: seq<SceneObject>, o: SceneObject): (r: seq<SceneObject>)
    ensures |r| >= 1 && r[|r| - 1] == o
    ensures o !in r[..|r| - 1]
    ensures forall x :: x in r <==> x in children || x == o
    ensures o !in children ==> r == children + [o]
  {
    var kept := Without(children, o);
    assert (kept + [o])[..|kept|] == kept;
    kept + [o]
  }

  /**
   * `handleScreenClick(screen)`: zoom the camera towards the screen, then open
   * the panel. Opening a panel adds the panel group to the scene; once the
   * manager has its scene, that is the scene it holds.
   */
  function HandleScreenClick(m: Manager, screenPosition: Camera.Vec3, now: real): (r: (Manager, seq<Panel.Effect>))
    ensures r.0.cam == Camera.ZoomToScreen(m.cam, screenPosition, now, false).0
    ensures r.0.ui == Panel.Show3DUI(m.ui).state && r.1 == Panel.Show3DUI(m.ui).effects
    ensures !Panel.IsUIActive(m.ui) && m.scene.Some? ==> r.0.scene == Some(AddChild(m.scene.value, PanelGroup))
    ensures Panel.IsUIActive(m.ui) || m.scene.None? ==> r.0.scene == m.scene
  {
    var shown := Panel.Show3DUI(m.ui);
    var scene := if !Panel.IsUIActive(m.ui) && m.scene.Some? then Some(AddChild(m.scene.value, PanelGroup)) else m.scene;
    (m.(cam := Camera.ZoomToScreen(m.cam, screenPosition, now, false).0, ui := shown.state, scene := scene), shown.effects)
  }

  /**
   * `onClick(event)`: ignored while the camera animates; otherwise the first
   * matching intersection is handled, as a screen click or as a panel click,
   * and the rest are not looked at.
   */
  function OnClick(m: Manager, hits: seq<SceneObject>, worldPosition: SceneObject -> Camera.Vec3, now: real): (r: (Manager, seq<Panel.Effect>))
    ensures Camera.IsAnimating(m.cam) || FirstHit(hits).None? ==> r == (m, [])
    ensures m.scene.Some? ==> r.0.scene.Some?
    ensures !Camera.IsAnimating(m.cam) && FirstHit(hits).Some? && KindOf(hits[FirstHit(hits).value]) == Some(ScreenHit)
            ==> r == HandleScreenClick(m, worldPosition(hits[FirstHit(hits).value]), now)
    ensures !(!Camera.IsAnimating(m.cam) && FirstHit(hits).Some? && KindOf(hits[FirstHit(hits).value]) == Some(ScreenHit))
            ==> r.0.scene == m.scene
    ensures !Camera.IsAnimating(m.cam) && FirstHit(hits).Some? && KindOf(hits[FirstHit(hits).value]) == Some(PanelHit)
            ==> r.0.cam == m.cam && (r.0.ui, r.1) == (Panel.HandleUIClick(m.ui, hits[FirstHit(hits).value].name).state,
                                                      Panel.HandleUIClick(m.ui, hits[FirstHit(hits).value].name).effects)
  {
    if Camera.IsAnimating(m.cam) then (m, [])
    else
      match FirstHit(hits)
      case None => (m, [])
      case Some(i) =>
        if KindOf(hits[i]) == Some(ScreenHit) then HandleScreenClick(m, worldPosition(hits[i]), now)
        else
          var step := Panel.HandleUIClick(m.ui, hits[i].name);
          (m.(ui := step.state), step.effects)
  }

  /** `onWheel(event)`: forwarded to the panel's scroll handler only while the panel is open. */
  function OnWheel(m: Manager, deltaY: real): (r: Manager)
    ensures !Panel.IsUIActive(m.ui) ==> r == m
    ensures Panel.IsUIActive(m.ui) ==> r == m.(ui := Panel.HandleScroll(m.ui, deltaY).1)
  {
    if Panel.IsUIActive(m.ui) then m.(ui := Panel.HandleScroll(m.ui, deltaY).1) else m
  }

  // Properties.

  /** An object that is the screen and a panel child at once is treated as the screen. */
  lemma ScreenTestFirst(o: SceneObject)
    ensures Includes(o.name, ScreenMarker) ==> KindOf(o) == Some(ScreenHit)
    ensures KindOf(o) == Some(PanelHit) <==> !Includes(o.name, ScreenMarker) && o.parentName == Some(PanelName)
    ensures KindOf(o).None? <==> !Includes(o.name, ScreenMarker) && o.parentName != Some(PanelName)
  {
  }

  /** A panel child whose name is shorter than the screen marker is a panel hit. */
  lemma ShortPanelChild(name: string)
    requires |name| < |ScreenMarker|
    ensures KindOf(SceneObject(name, Some(PanelName))) == Some(PanelHit)
  {
    if Includes(name, ScreenMarker) {
      IncludesShorter(name, ScreenMarker);
    }
  }

  /** Intersections that match neither class are skipped: only the rest decides. */
  lemma {:induction false} NonMatchesSkipped(skipped: seq<SceneObject>, hits: seq<SceneObject>)
    requires forall j :: 0 <= j < |skipped| ==> KindOf(skipped[j]).None?
    ensures FirstHit(hits).None? ==> FirstHit(skipped + hits).None?
    ensures FirstHit(hits).Some? ==> FirstHit(skipped + hits) == Some(|skipped| + FirstHit(hits).value)
  {
    if |skipped| == 0 {
      assert skipped + hits == hits;
    } else {
      NonMatchesSkipped(skipped[1..], hits);
      assert (skipped + hits)[0] == skipped[0];
      assert (skipped + hits)[1..] == skipped[1..] + hits;
    }
  }

  /** Whatever follows the first match never changes which intersection is handled. */
  lemma {:induction false} LaterHitsIrrelevant(hits: seq<SceneObject>, more: seq<SceneObject>)
    requires FirstHit(hits).Some?
    ensures FirstHit(hits + more) == FirstHit(hits)
  {
    if KindOf(hits[0]).None? {
      LaterHitsIrrelevant(hits[1..], more);
      assert (hits + more)[1..] == hits[1..] + more;
    }
  }

  /** Once a scene is set, the cursor is the pointer exactly when a click would be handled. */
  lemma CursorAgreesWithClick(m: Manager, hits: seq<SceneObject>)
    requires m.scene.Some?
    ensures UpdateCursor(m, hits) == Some(Pointer) <==> FirstHit(hits).Some?
  {
  }

  /** NDC mapping keeps the window inside [-1, 1] on both axes. */
  lemma NdcRange(cx: real, cy: real, width: real, height: real)
    requires width > 0.0 && height > 0.0
    requires 0.0 <= cx <= width && 0.0 <= cy <= height
    ensures -1.0 <= ToNdc(cx, cy, width, height).0 <= 1.0
    ensures -1.0 <= ToNdc(cx, cy, width, height).1 <= 1.0
  {
    UnitRatio(cx, width);
    UnitRatio(cy, height);
  }

  /** `FromNdc` undoes the NDC mapping, so distinct pixels get distinct device coordinates. */
  lemma NdcRoundTrip(cx: real, cy: real, width: real, height: real)
    requires width > 0.0 && height > 0.0
    ensures FromNdc(ToNdc(cx, cy, width, height).0, ToNdc(cx, cy, width, height).1, width, height) == (cx, cy)
  {
    var x, y := cx / width, cy / height;
    assert x * width == cx;
    assert y * height == cy;
    assert ToNdc(cx, cy, width, height) == (x * 2.0 - 1.0, -y * 2.0 + 1.0);
    assert ((x * 2.0 - 1.0) + 1.0) / 2.0 == x;
    assert (1.0 - (-y * 2.0 + 1.0)) / 2.0 == y;
    assert FromNdc(x * 2.0 - 1.0, -y * 2.0 + 1.0, width, height) == (x * width, y * height);
  }

  /** A part of a positive whole, divided by the whole, lies in [0, 1]. */
  lemma UnitRatio(a: real, w: real)
    requires w > 0.0 && 0.0 <= a <= w
    ensures 0.0 <= a / w <= 1.0
  {
    var q := a / w;
    assert q * w == a;
    assert (1.0 - q) * w == w - a;
  }

  /** Moving the pointer right or down moves the device coordinate right or down. */
  lemma NdcMonotone(cx1: real, cx2: real, cy1: real, cy2: real, width: real, height: real)
    requires width > 0.0 && height > 0.0
    requires cx1 <= cx2 && cy1 <= cy2
    ensures ToNdc(cx1, cy1, width, height).0 <= ToNdc(cx2, cy2, width, height).0
    ensures ToNdc(cx1, cy1, width, height).1 >= ToNdc(cx2, cy2, width, height).1
  {
    assert cx1 / width <= cx2 / width;
    assert cy1 / height <= cy2 / height;
  }

  /** A click on the screen from the overview starts the zoom and opens the about page. */
  lemma ScreenClickOpensPanel(m: Manager, hits: seq<SceneObject>, worldPosition: SceneObject -> Camera.Vec3, now: real)
    requires !Camera.IsAnimating(m.cam) && !Panel.IsUIActive(m.ui)
    requires FirstHit(hits).Some? && KindOf(hits[FirstHit(hits).value]) == Some(ScreenHit)
    ensures Camera.IsAnimating(OnClick(m, hits, worldPosition, now).0.cam)
    ensures Panel.IsUIActive(OnClick(m, hits, worldPosition, now).0.ui)
    ensures OnClick(m, hits, worldPosition, now).0.ui.screen.value.section == Some(Content.About)
    ensures OnClick(m, hits, worldPosition, now).1 == [Panel.FadeIn]
  {
  }

  /** While the zoom a screen click started is running, every further click is ignored. */
  lemma NoClickDuringZoom(m: Manager, hits: seq<SceneObject>, more: seq<SceneObject>,
                          worldPosition: SceneObject -> Camera.Vec3, now: real, later: real)
    requires !Camera.IsAnimating(m.cam)
    requires FirstHit(hits).Some? && KindOf(hits[FirstHit(hits).value]) == Some(ScreenHit)
    ensures var m1 := OnClick(m, hits, worldPosition, now).0;
            OnClick(m1, more, worldPosition, later) == (m1, [])
  {
  }

  /** A panel click never touches the camera, and the wheel never touches the camera or the scene. */
  lemma PanelInputLeavesCamera(m: Manager, hits: seq<SceneObject>, worldPosition: SceneObject -> Camera.Vec3, now: real, deltaY: real)
    requires FirstHit(hits).Some? ==> KindOf(hits[FirstHit(hits).value]) == Some(PanelHit)
    ensures OnClick(m, hits, worldPosition, now).0.cam == m.cam
    ensures OnClick(m, hits, worldPosition, now).0.scene == m.scene
    ensures OnWheel(m, deltaY).cam == m.cam && OnWheel(m, deltaY).scene == m.scene
  {
  }

  /** Adding a child that is already there only moves it to the end: adding twice is adding once. */
  lemma AddChildIdempotent(children: seq<SceneObject>, o: SceneObject)
    ensures AddChild(AddChild(children, o), o) == AddChild(children, o)
  {
    var kept := Without(children, o);
    WithoutConcat(kept, [o], o);
  }

  /**
   * A screen click from the overview puts the panel group into the scene
   * exactly once, as its last child, and keeps every other child.
   */
  lemma ScreenClickAddsPanelGroup(m: Manager, hits: seq<SceneObject>, worldPosition: SceneObject -> Camera.Vec3, now: real)
    requires !Camera.IsAnimating(m.cam) && !Panel.IsUIActive(m.ui) && m.scene.Some?
    requires FirstHit(hits).Some? && KindOf(hits[FirstHit(hits).value]) == Some(ScreenHit)
    ensures OnClick(m, hits, worldPosition, now).0.scene == Some(AddChild(m.scene.value, PanelGroup))
    ensures forall x :: x in m.scene.value ==> x in OnClick(m, hits, worldPosition, now).0.scene.value
  {
  }
}
