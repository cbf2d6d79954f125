/**
 * The hit-zone generator: the invisible, named rectangles placed on the panel
 * so that a ray hit can be turned into a panel action. The zone set is a pure
 * function of the detail project, the panel reference and its section.
 */
module HitZones {
  import opened Common
  import opened JsText
  import opened Content

  /** A hit zone: its name and its plane rectangle in panel-local units (centre and size). */
  datatype Zone = Zone(name: string, x: real, y: real, width: real, height: real)

  /** A raycastable scene object as the click logic sees it: its name and its parent's name. */
  datatype SceneObject = SceneObject(name: string, parentName: Option<string>)

  /** The name every hit zone's parent, the panel mesh, carries. */
  const PanelName: string := "UIScreen"

  /** The group the panel mesh is added to. */
  const PanelGroupName: string := "UIGroup"

  /** The panel group once it is a child of the scene, which carries no name of its own. */
  const PanelGroup: SceneObject := SceneObject(PanelGroupName, Some(""))

  /**
   * The panel as the generator sees it: no panel object yet, or a panel with
   * the section last recorded on it (undefined until the first content update).
   */
  datatype ScreenRef = NoScreen | OnScreen(section: Option<Section>)

  /** Placement of the three social-icon zones: first centre x, spacing, common y. */
  datatype SocialRow = SocialRow(x0: real, dx: real, y: real)

  /** Social row used by the generator inside the panel manager and the page script. */
  const InlineSocialRow := SocialRow(-4.875, 0.6, -2.45)

  /** Social row used by the stand-alone interaction helper. */
  const HelperSocialRow := SocialRow(-4.8, 0.55, -2.30)

  // Panel geometry: the canvas the layout is expressed in and the 3D plane it is mapped onto.
  const CanvasWidth: real := 3746.0
  const CanvasHeight: real := 2048.0
  const MeshWidth: real := 10.73
  const MeshHeight: real := 5.87

  function ProjectZoneName(id: int): string {
    "Project_" + IntToString(id)
  }

  function SocialZoneName(i: nat): string {
    "Social_" + DecimalString(i)
  }

  function NavZoneName(s: Section): string {
    "Nav_" + NavLabel(s)
  }

  /** Canvas x (pixels from the left) to panel-local x. */
  function CanvasToMeshX(cx: real): real {
    ((cx / CanvasWidth) - 0.5) * MeshWidth
  }

  /** Canvas y (pixels from the top) to panel-local y (upwards). */
  function CanvasToMeshY(cy: real): real {
    (0.5 - (cy / CanvasHeight)) * MeshHeight
  }

  /** The inverse maps, panel-local coordinates back to canvas pixels. */
  function MeshToCanvasX(mx: real): real {
    (mx / MeshWidth + 0.5) * CanvasWidth
  }

  function MeshToCanvasY(my: real): real {
    (0.5 - my / MeshHeight) * CanvasHeight
  }

  /** Vertical centre of navigation zone `i` (0 = About, 1 = Skills, 2 = Experience). */
  function NavY(i: nat): real {
    2.935 - ((1600.0 + 160.0 * i as real) / 2048.0) * 5.87
  }

  /** Two-column grid: card `i` sits in column `i % 2` of row `i / 2`. */
  function GridColumn(i: nat): nat {
    i % 2
  }

  function GridRow(i: nat): nat {
    i / 2
  }

  const CardWidthCanvas: real := CanvasWidth * 0.19
  const CardHeightCanvas: real := 280.0

  function CardCenterX(i: nat): real {
    CanvasWidth * 0.55 + GridColumn(i) as real * (CardWidthCanvas + 30.0) + CardWidthCanvas / 2.0
  }

  function CardCenterY(i: nat): real {
    400.0 + GridRow(i) as real * (CardHeightCanvas + 100.0) + CardHeightCanvas / 2.0
  }

  /** `ps.slice(0, n)`. */
  function Slice<T>(ps: seq<T>, n: nat): (r: seq<T>)
    ensures |r| == if |ps| <= n then |ps| else n
    ensures r == ps[..|r|]
  {
    if |ps| <= n then ps else ps[..n]
  }

  /** The zones of the project-detail view: back to the list, then the links the project has. */
  function DetailZones(p: Project): seq<Zone> {
    var linkY: real := if Truthy(p.liveUrl) then -1.94 - 0.4 else -1.94;
    [Zone("BackToProjects", -3.6, 2.4, 3.2, 0.4)]
    + (if Truthy(p.liveUrl) then [Zone("LiveProject", -4.15, -1.94, 2.0, 0.1)] else [])
    + (if Truthy(p.githubUrl) then [Zone("GithubProject", -4.0, linkY + 0.2, 2.3, 0.1)] else [])
  }

  function NavZone(i: nat): Zone
    requires i < 3
  {
    Zone(NavZoneName(NavSections[i]), 4.5, NavY(i), 1.4, 0.3)
  }

  function NavZones(): seq<Zone> {
    [NavZone(0), NavZone(1), NavZone(2)]
  }

  function ProjectZone(i: nat, p: Project): Zone {
    Zone(ProjectZoneName(p.id), CanvasToMeshX(CardCenterX(i)), CanvasToMeshY(CardCenterY(i)),
         (CardWidthCanvas / CanvasWidth) * MeshWidth, (CardHeightCanvas / CanvasHeight) * MeshHeight)
  }

  /** One zone per card of the experience grid, for the first six projects. */
  function ProjectZones(ps: seq<Project>): (r: seq<Zone>)
    ensures |r| == |Slice(ps, 6)|
  {
    var shown := Slice(ps, 6);
    seq(|shown|, i requires 0 <= i < |shown| => ProjectZone(i, shown[i]))
  }

  function SocialZone(row: SocialRow, i: nat): Zone {
    Zone(SocialZoneName(i), row.x0 + i as real * row.dx, row.y, 0.5, 0.5)
  }

  function SocialZones(row: SocialRow): seq<Zone> {
    [SocialZone(row, 0), SocialZone(row, 1), SocialZone(row, 2)]
  }

  /**
   * The zones of the main view: the back button and the navigation; then the
   * project cards (experience) or the social icons (about), but only when a
   * panel object is present to read the section from.
   */
  function MainZones(screen: ScreenRef, row: SocialRow): seq<Zone> {
    [Zone("BackButton", -4.55, 2.55, 1.4, 0.31)] + NavZones()
    + (if screen == OnScreen(Some(Experience)) then ProjectZones(Projects) else [])
    + (if screen == OnScreen(Some(About)) then SocialZones(row) else [])
  }

  /** `createUIHitboxes`: detail-view zones exactly when a detail project is set. */
  function CreateUIHitboxes(detail: Option<Project>, screen: ScreenRef, row: SocialRow): seq<Zone> {
    match detail
    case Some(p) => DetailZones(p)
    case None => MainZones(screen, row)
  }

  function Names(zones: seq<Zone>): (r: seq<string>)
    ensures |r| == |zones|
    ensures forall i :: 0 <= i < |zones| ==> r[i] == zones[i].name
  {
    seq(|zones|, i requires 0 <= i < |zones| => zones[i].name)
  }

  /**
   * The zone names the panel must offer in each state, written out literally:
   * the reference the generator is checked against.
   */
  function ExpectedNames(detail: Option<Project>, screen: ScreenRef): seq<string> {
    if detail.Some? then
      ["BackToProjects"]
      + (if Truthy(detail.value.liveUrl) then ["LiveProject"] else [])
      + (if Truthy(detail.value.githubUrl) then ["GithubProject"] else [])
    else
      ["BackButton", "Nav_About", "Nav_Skills", "Nav_Experience"]
      + (if screen == OnScreen(Some(Experience))
         then ["Project_1", "Project_2", "Project_3", "Project_4", "Project_5"] else [])
      + (if screen == OnScreen(Some(About)) then ["Social_0", "Social_1", "Social_2"] else [])
  }

  lemma DetailZoneNames(p: Project)
    ensures Names(DetailZones(p)) == ExpectedNames(Some(p), NoScreen)
  {
  }

  lemma NamesConcat(a: seq<Zone>, b: seq<Zone>)
    ensures Names(a + b) == Names(a) + Names(b)
  {
  }

  lemma NavZoneNames()
    ensures Names(NavZones()) == ["Nav_About", "Nav_Skills", "Nav_Experience"]
  {
    var ns := Names(NavZones());
    assert ns[0] == "Nav_" + "About" == "Nav_About";
    assert ns[1] == "Nav_" + "Skills" == "Nav_Skills";
    assert ns[2] == "Nav_" + "Experience" == "Nav_Experience";
  }

  lemma SocialZoneNames(row: SocialRow)
    ensures Names(SocialZones(row)) == ["Social_0", "Social_1", "Social_2"]
  {
    var ns := Names(SocialZones(row));
    assert ns[0] == "Social_" + "0" == "Social_0";
    assert ns[1] == "Social_" + "1" == "Social_1";
    assert ns[2] == "Social_" + "2" == "Social_2";
  }

  /** Five projects numbered 1..5 give the zones `Project_1` .. `Project_5`, in table order. */
  lemma ProjectZoneNames(ps: seq<Project>)
    requires |ps| == 5
    requires forall i :: 0 <= i < |ps| ==> ps[i].id == i + 1
    ensures Names(ProjectZones(ps)) == ["Project_1", "Project_2", "Project_3", "Project_4", "Project_5"]
  {
    var zs := ProjectZones(ps);
    assert Slice(ps, 6) == ps;
    var ns := Names(zs);
    assert ns[0] == "Project_" + "1" == "Project_1";
    assert ns[1] == "Project_" + "2" == "Project_2";
    assert ns[2] == "Project_" + "3" == "Project_3";
    assert ns[3] == "Project_" + "4" == "Project_4";
    assert ns[4] == "Project_" + "5" == "Project_5";
  }

  lemma MainZoneNames(screen: ScreenRef, row: SocialRow)
    ensures Names(MainZones(screen, row)) == ExpectedNames(None, screen)
  {
    var fixed := [Zone("BackButton", -4.55, 2.55, 1.4, 0.31)] + NavZones();
    var fixedNames := ["BackButton", "Nav_About", "Nav_Skills", "Nav_Experience"];
    assert Names(fixed) == fixedNames by {
      NamesConcat([Zone("BackButton", -4.55, 2.55, 1.4, 0.31)], NavZones());
      NavZoneNames();
    }
    var projects := if screen == OnScreen(Some(Experience)) then ProjectZones(Projects) else [];
    var socials := if screen == OnScreen(Some(About)) then SocialZones(row) else [];
    assert Names(projects) == if screen == OnScreen(Some(Experience))
           then ["Project_1", "Project_2", "Project_3", "Project_4", "Project_5"] else [] by {
      if screen == OnScreen(Some(Experience)) {
        ProjectIds();
        ProjectZoneNames(Projects);
      }
    }
    assert Names(socials) == if screen == OnScreen(Some(About)) then ["Social_0", "Social_1", "Social_2"] else [] by {
      if screen == OnScreen(Some(About)) {
        SocialZoneNames(row);
      }
    }
    NamesConcat(fixed, projects);
    NamesConcat(fixed + projects, socials);
  }

  /** The generator emits exactly the expected zone names, in the expected order, whatever the social row. */
  lemma CreateUIHitboxesNames(detail: Option<Project>, screen: ScreenRef, row: SocialRow)
    ensures Names(CreateUIHitboxes(detail, screen, row))
         == ExpectedNames(if detail.Some? then detail else None, screen)
  {
    match detail
    case Some(p) => DetailZoneNames(p);
    case None => MainZoneNames(screen, row);
  }

  predicate Distinct(ns: seq<string>) {
    forall i, j :: 0 <= i < j < |ns| ==> ns[i] != ns[j]
  }

  /** Two non-empty names that differ in their first letter, their length or their last letter. */
  predicate Differ(a: string, b: string) {
    |a| > 0 && |b| > 0 && (a[0] != b[0] || |a| != |b| || a[|a| - 1] != b[|b| - 1])
  }

  lemma ExpectedNamesDistinct(detail: Option<Project>, screen: ScreenRef)
    ensures Distinct(ExpectedNames(detail, screen))
  {
    var ns := ExpectedNames(detail, screen);
    forall i, j | 0 <= i < j < |ns| ensures ns[i] != ns[j] {
      assert Differ(ns[i], ns[j]);
    }
  }

  /** No two zones of one state share a name, so a name identifies one zone. */
  lemma ZoneNamesDistinct(detail: Option<Project>, screen: ScreenRef, row: SocialRow)
    ensures Distinct(Names(CreateUIHitboxes(detail, screen, row)))
  {
    CreateUIHitboxesNames(detail, screen, row);
    ExpectedNamesDistinct(if detail.Some? then detail else None, screen);
  }

  /** Canvas-to-panel mapping and its inverse undo each other. */
  lemma CanvasMeshRoundTrip(cx: real, cy: real, mx: real, my: real)
    ensures MeshToCanvasX(CanvasToMeshX(cx)) == cx && MeshToCanvasY(CanvasToMeshY(cy)) == cy
    ensures CanvasToMeshX(MeshToCanvasX(mx)) == mx && CanvasToMeshY(MeshToCanvasY(my)) == my
  {
  }

  /** The mapping keeps left-to-right order and turns top-to-bottom into descending y. */
  lemma CanvasMeshOrder(a: real, b: real)
    requires a < b
    ensures CanvasToMeshX(a) < CanvasToMeshX(b)
    ensures CanvasToMeshY(a) > CanvasToMeshY(b)
  {
  }

  /** Navigation zones stack downwards: a later item is strictly lower. */
  lemma NavYDecreasing(i: nat, j: nat)
    requires i < j
    ensures NavY(j) < NavY(i)
  {
  }

  /** Grid index and (row, column) determine each other. */
  lemma GridIndexRoundTrip(i: nat)
    ensures GridColumn(i) < 2
    ensures 2 * GridRow(i) + GridColumn(i) == i
  {
  }

  /** Card centres are injective: two grid indices with the same centre are the same card. */
  lemma CardCentresInjective(i: nat, j: nat)
    requires CardCenterX(i) == CardCenterX(j) && CardCenterY(i) == CardCenterY(j)
    ensures i == j
  {
    GridIndexRoundTrip(i);
    GridIndexRoundTrip(j);
  }

  /** Project zone `i` is centred on card `(i / 2, i % 2)` of the canvas layout, and distinct cards get distinct centres. */
  lemma ProjectZoneCentres(ps: seq<Project>, i: nat, j: nat)
    requires i < |ProjectZones(ps)| && j < |ProjectZones(ps)|
    ensures MeshToCanvasX(ProjectZones(ps)[i].x) == CardCenterX(i)
    ensures MeshToCanvasY(ProjectZones(ps)[i].y) == CardCenterY(i)
    ensures ProjectZones(ps)[i].x == ProjectZones(ps)[j].x && ProjectZones(ps)[i].y == ProjectZones(ps)[j].y ==> i == j
  {
    CanvasMeshRoundTrip(CardCenterX(i), CardCenterY(i), 0.0, 0.0);
    CanvasMeshRoundTrip(CardCenterX(j), CardCenterY(j), 0.0, 0.0);
    if ProjectZones(ps)[i].x == ProjectZones(ps)[j].x && ProjectZones(ps)[i].y == ProjectZones(ps)[j].y {
      CardCentresInjective(i, j);
    }
  }

  /** The fourth card (index 3) is in row 1, column 1. */
  lemma FourthCardPosition()
    ensures GridRow(3) == 1 && GridColumn(3) == 1
  {
  }

  /** All five projects get a zone: slicing to six keeps the whole table. */
  lemma AllProjectsGetZones()
    ensures Slice(Projects, 6) == Projects
    ensures |ProjectZones(Projects)| == 5
  {
  }

  // Reading a zone name back: the click dispatch shared by every click handler.

  /** What a click on a named zone means, before the state is looked at. */
  datatype UIAction =
    | Back
    | BackToProjects
    | OpenLive
    | OpenGithub
    | Navigate(section: Section)
    | SocialClick(index: Option<int>)
    | ProjectClick(id: Option<int>)
    | NoAction

  /** `objectName.split('_')[1]`, with a missing element read as text that holds no number. */
  function SecondSegment(name: string): string {
    var parts := Split(name, '_');
    if |parts| >= 2 then parts[1] else ""
  }

  /**
   * The `switch` over the zone name: the exact names first, then the
   * `Social_` and `Project_` prefixes with the number after the first `_`.
   */
  function ClassifyName(name: string): UIAction {
    if name == "BackButton" then Back
    else if name == "BackToProjects" then BackToProjects
    else if name == "LiveProject" then OpenLive
    else if name == "GithubProject" then OpenGithub
    else if name == "Nav_About" then Navigate(About)
    else if name == "Nav_Skills" then Navigate(Skills)
    else if name == "Nav_Experience" then Navigate(Experience)
    else if StartsWith(name, "Social_") then SocialClick(ParseInt(SecondSegment(name)))
    else if StartsWith(name, "Project_") then ProjectClick(ParseInt(SecondSegment(name)))
    else NoAction
  }

  /** `handleSocialMediaClick(index)`: the link behind a social icon, if the index names one. */
  function SocialUrl(index: Option<int>): (r: Option<string>)
    ensures r.Some? <==> index.Some? && 0 <= index.value < |SocialMedia|
    ensures r.Some? ==> r.value == SocialMedia[index.value].url
  {
    match index
    case Some(i) => if 0 <= i < |SocialMedia| then Some(SocialMedia[i].url) else None
    case None => None
  }

  /** The number after `<prefix>_` is read back as the number the generator rendered. */
  lemma SecondSegmentOfZoneName(prefix: string, i: int)
    requires '_' !in prefix
    ensures SecondSegment(prefix + "_" + IntToString(i)) == IntToString(i)
  {
    IntToStringAlphabet(i, '_');
    SplitAtFirst(prefix, '_', IntToString(i));
    SplitNoSeparator(IntToString(i), '_');
  }

  /** The names the click handler matches exactly, before any prefix test. */
  const FixedZoneNames: set<string> :=
    {"BackButton", "BackToProjects", "LiveProject", "GithubProject", "Nav_About", "Nav_Skills", "Nav_Experience"}

  /** A name whose first letter starts none of the fixed names is none of them. */
  lemma NotFixedByFirstLetter(name: string)
    requires |name| > 0 && name[0] != 'B' && name[0] != 'L' && name[0] != 'G' && name[0] != 'N'
    ensures name !in FixedZoneNames
  {
    assert name != "BackButton" && name != "BackToProjects" by { assert "BackButton"[0] == 'B' && "BackToProjects"[0] == 'B'; }
    assert name != "LiveProject" && name != "GithubProject" by { assert "LiveProject"[0] == 'L' && "GithubProject"[0] == 'G'; }
    assert name != "Nav_About" && name != "Nav_Skills" && name != "Nav_Experience"
      by { assert "Nav_About"[0] == 'N' && "Nav_Skills"[0] == 'N' && "Nav_Experience"[0] == 'N'; }
  }

  /** Names that are none of the fixed zone names fall through to the prefix tests. */
  lemma ClassifyUnreserved(name: string)
    requires name !in FixedZoneNames
    ensures ClassifyName(name)
         == if StartsWith(name, "Social_") then SocialClick(ParseInt(SecondSegment(name)))
            else if StartsWith(name, "Project_") then ProjectClick(ParseInt(SecondSegment(name)))
            else NoAction
  {
    assert name != "BackButton" && name != "BackToProjects" && name != "LiveProject" && name != "GithubProject";
    assert name != "Nav_About" && name != "Nav_Skills" && name != "Nav_Experience";
  }

  /** Reading back `<prefix>_<i>` when the name is none of the fixed ones. */
  lemma ClassifyNumberedName(prefix: string, i: int, name: string)
    requires name == prefix + "_" + IntToString(i)
    requires '_' !in prefix && |prefix| > 0
    requires name !in FixedZoneNames
    ensures ClassifyName(name)
         == if StartsWith(name, "Social_") then SocialClick(Some(i))
            else if StartsWith(name, "Project_") then ProjectClick(Some(i))
            else NoAction
  {
    ClassifyUnreserved(name);
    SecondSegmentOfZoneName(prefix, i);
    ParseIntOfIntToString(i);
  }

  /** Clicking the zone `Project_<id>` asks for exactly the project `id`. */
  lemma ClassifyProjectZoneName(id: int)
    ensures ClassifyName(ProjectZoneName(id)) == ProjectClick(Some(id))
  {
    var name := ProjectZoneName(id);
    assert name == "Project" + "_" + IntToString(id);
    StartsWithConcat("Project_", IntToString(id));
    assert !StartsWith(name, "Social_") by { assert name[0] == 'P' && "Social_"[0] == 'S'; }
    NotFixedByFirstLetter(name);
    ClassifyNumberedName("Project", id, name);
  }

  /** Clicking the zone `Social_<i>` asks for exactly the social link `i`. */
  lemma ClassifySocialZoneName(i: nat)
    ensures ClassifyName(SocialZoneName(i)) == SocialClick(Some(i))
  {
    var name := SocialZoneName(i);
    assert name == "Social" + "_" + IntToString(i);
    assert StartsWith(name, "Social_");
    NotFixedByFirstLetter(name);
    ClassifyNumberedName("Social", i, name);
  }

  /** Clicking a navigation zone asks for its section. */
  lemma ClassifyNavZoneName(s: Section)
    ensures ClassifyName(NavZoneName(s)) == Navigate(s)
  {
    match s
    case About => assert NavZoneName(s) == "Nav_About";
    case Skills => assert NavZoneName(s) == "Nav_Skills";
    case Experience => assert NavZoneName(s) == "Nav_Experience";
  }
}
