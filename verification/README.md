# Portfolio interaction core, modelled in Dafny

The portfolio is a three.js scene of a desk with a monitor. Clicking the monitor
does two things: the camera zooms in to the screen, and a flat 3D panel opens in
front of it. The panel is drawn on a canvas and has three sections: about, skills
and experience. It also has a detail page for each project.

Clicks on the panel are resolved by name. Invisible hit-zone meshes named
`BackButton`, `Nav_About`, `Project_3`, `Social_1`, `LiveProject`, … are
children of the panel. The first intersection of the pointer ray with such a
zone decides what the click does. The wheel scrolls the project list. The back
button closes the panel and sends the camera back to the overview.

The model covers:

- **Content**: the data tables: five projects, three social links, fourteen skills. Also the `find`-by-id lookup and the truthiness of link fields.
- **JsText**: the string functions the click logic relies on. These are `startsWith`, `includes`, `split('_')`, `parseInt` and number-to-string, with their round trips.
- **HitZones**: the hit-zone generator. It decides which zones exist in which state, their names and order, and the canvas-to-panel coordinate mapping. It also maps a zone name to the action it stands for.
- **Panel**: the panel state machine.
  - `show3DUI`, `hide3DUI`, `updateUIContent`, `handleUIClick`, `handleScroll` and `getRaycastTargets`.
  - It is written once for the two copies in the source: the page script and the `UIManager` class.
- **Interactions**: the stand-alone `UIInteractions` helper, with its callbacks and its `isClickOnElement` name tests.
- **Renderer**: the layout decisions of `UIRenderer`.
  - Which page is drawn, the navigation highlight and the skill grid.
  - The project cards, the social icons, image fitting and the image cache.
  - Technology spacing and the greedy word wrap of descriptions.
  - Key features and its own scroll rule.
- **Camera**: the camera transitions of the page script and `CameraController`.
  - The one-at-a-time mutex, the smoothstep progress, and the constraint changes on start and on completion.
  - Cancellation and the orbit-target clamp.
- **Dispatch**: `EventManager`.
  - The classification of intersections (screen before panel) and the first-match rule.
  - The pointer in normalised device coordinates, the cursor, and click and wheel dispatch.
- **App**: the page script's own wiring. It covers its click and wheel listeners and the cursor updated on every rendered frame. Its back button always resets the camera.
- **Loading**: the loading screen's progress-to-display mapping.

Everything is modelled as immutable values and pure functions. Work the source
hands to the outside world is returned as an effect value:

- opening a URL;
- a fade-in or fade-out tween;
- a back-to-scene request.

Things the source reads from the environment are parameters:

- the current time;
- the window size;
- text widths;
- the objects a ray hits;
- world positions;
- the outcome of an image load.

Integers are unbounded and coordinates are `real`. No computation in the core
depends on machine-integer width.

Where the source's comments and constant names promise more than its code does, the model follows the code:

- **Scroll range.** The comments at `src/ui/UIManager.js:1056-1063` say "Don't scroll past the top" and "Don't scroll past the bottom". With five projects, `maxScroll = 5 * 220 - 1500 = -400`. The code clamps at 0 first and at `maxScroll` second, so every handled scroll leaves the offset at -400. `Panel.HandledScrollSticksAtBound` and `Renderer.RendererScrollAtBound` state this.
- **Orbit target.** The constants at `src/main.js:1416-1418` are named `minTargetX = 1` and `maxTargetX = -1`, so the minimum exceeds the maximum. The clamp raises `x` to 1 and then lowers it to -1, so `x` always ends at -1 (`Camera.ClampTargetIdempotent`).

## Model

| member | source | states |
|---|---|---|
| Content.FindProject | src/ui/UIRenderer.js:586-588 | the lookup succeeds iff some project has the id; the result has that id, comes from the list, and no earlier project has the id |
| Content.ProjectIds | src/ui/data/projectsData.js:3-81 | the table holds five projects with ids 1..5 in order |
| Content.FindProjectDistinct | src/ui/UIRenderer.js:586-588 | with distinct ids, looking up the id at position k finds the project at k |
| Content.FindProjectInTable | src/ui/UIRenderer.js:586-588 | ids 1..5 find project id-1 of the table; every other id finds nothing |
| Content.ProjectLinks | src/ui/data/projectsData.js:3-81 | which projects have truthy live and GitHub links; the third project has no link fields at all |
| Content.TableSizes | src/ui/data/projectsData.js:84-121 | three social links, fourteen skills, three key features per project |
| JsText.IncludesShorter | src/events/EventManager.js:80-86 | a string can only include a substring no longer than itself |
| JsText.Split | src/ui/UIManager.js:959-969 | `split` yields at least one part, and no part contains the separator |
| JsText.JoinSplit | src/ui/UIManager.js:959-969 | joining the parts of a split with the separator gives back the original string |
| JsText.SplitNoSeparator | src/ui/UIManager.js:959-969 | a string without the separator splits into itself alone |
| JsText.SplitAtFirst | src/ui/UIManager.js:959-969 | splitting `a + sep + b`, where `a` has no separator, gives `a` followed by the parts of `b` |
| JsText.DigitPrefix | src/ui/UIManager.js:959-969 | `parseInt` reads the longest prefix of digits of the radix and stops at the first non-digit |
| JsText.TrimStart | src/ui/UIManager.js:959-969 | leading white space is dropped, and what is left starts with a non-space |
| JsText.DecimalStringDigits | src/ui/UIManager.js:820 | a rendered natural number is a non-empty string of decimal digits, without a leading zero, whose value is the number |
| JsText.DigitPrefixOfDigits | src/ui/UIManager.js:959-969 | a string made entirely of digits is its own digit prefix |
| JsText.ParseMagnitudeOfDecimal | src/ui/UIManager.js:959-969 | the digits of a rendered natural number read back as that number |
| JsText.TrimStartKeeps | src/ui/UIManager.js:959-969 | a string that starts with a non-space is left as it is by the trim |
| JsText.ParseIntSigned | src/ui/UIManager.js:959-969 | an optional minus sign followed by decimal digits reads back as the signed value of those digits |
| JsText.ParseIntOfIntToString | src/ui/UIManager.js:820 | `parseInt` of a rendered integer gives back that integer |
| JsText.IntToStringAlphabet | src/ui/UIManager.js:820 | a rendered integer contains only digits and the minus sign, so never an underscore |
| JsText.IntToStringInjective | src/ui/UIManager.js:820 | distinct integers render as distinct strings |
| JsText.ParseIntWithoutDigits | src/ui/UIManager.js:959-969 | a string without decimal digits parses as NaN |
| JsText.ToLowerAscii | src/ui/UIRenderer.js:141-153 | lower-casing keeps the length and every character outside A-Z, maps the k-th capital to the k-th small letter of the alphabet tables, and leaves no capital behind |
| JsText.ToLowerAsciiIdempotent | src/ui/UIRenderer.js:146 | lower-casing an already lower-cased label changes nothing |
| JsText.ToLowerAsciiLetter | src/ui/UIRenderer.js:146 | each capital letter on its own lower-cases to its own small letter |
| HitZones.Slice | src/ui/UIManager.js:800 | `slice(0, n)` is the prefix of length min(n, length) |
| HitZones.ProjectZones | src/ui/UIManager.js:781-825 | the experience page gets one zone per project of the first six |
| HitZones.Names | src/ui/UIManager.js:690-848 | the name list has one entry per zone, in zone order |
| HitZones.DetailZoneNames | src/ui/UIManager.js:695-741 | the detail view has `BackToProjects`, then `LiveProject` iff the live link is truthy, then `GithubProject` iff the GitHub link is truthy |
| HitZones.NavZoneNames | src/ui/UIManager.js:757-779 | the navigation zones are `Nav_About`, `Nav_Skills` and `Nav_Experience`, in that order |
| HitZones.SocialZoneNames | src/ui/UIManager.js:827-846 | the social zones are `Social_0`, `Social_1` and `Social_2`, whichever icon row is used |
| HitZones.ProjectZoneNames | src/ui/UIManager.js:800-822 | five projects numbered 1..5 give `Project_1` .. `Project_5`, in table order |
| HitZones.MainZoneNames | src/ui/UIManager.js:743-846 | the main view has the back button, the navigation, then project zones only on the experience page and social zones only on the about page |
| HitZones.CreateUIHitboxesNames | src/ui/UIManager.js:690-848 | the generator emits exactly the expected names in the expected order: detail zones iff a project is open, otherwise the main view's |
| HitZones.ExpectedNamesDistinct | src/ui/UIManager.js:690-848 | the expected names of any state are pairwise distinct |
| HitZones.ZoneNamesDistinct | src/ui/UIManager.js:690-848 | no two zones of one state share a name, so a clicked name identifies one zone |
| HitZones.CanvasMeshRoundTrip | src/ui/UIManager.js:807-808 | the canvas-to-panel mapping and its inverse undo each other on both axes |
| HitZones.CanvasMeshOrder | src/ui/UIManager.js:807-808 | the mapping keeps left-to-right order and turns top-to-bottom into descending y |
| HitZones.NavYDecreasing | src/ui/UIManager.js:769-771 | a later navigation item sits strictly lower on the panel |
| HitZones.GridIndexRoundTrip | src/ui/UIManager.js:800-803 | a card index and its (row, column) in the two-column grid determine each other |
| HitZones.CardCentresInjective | src/ui/UIManager.js:800-805 | two cards with the same centre are the same card |
| HitZones.ProjectZoneCentres | src/ui/UIManager.js:800-822 | project zone i is centred on card i of the canvas layout, and distinct zones get distinct centres |
| HitZones.FourthCardPosition | src/ui/UIManager.js:800-803 | the fourth card is in row 1, column 1 |
| HitZones.AllProjectsGetZones | src/ui/UIManager.js:800 | slicing to six keeps the whole table, so all five projects get a zone |
| HitZones.SocialUrl | src/ui/UIManager.js:975-985 | a URL is opened iff the index is a number within the social table, and it is that entry's URL |
| HitZones.SecondSegmentOfZoneName | src/ui/UIManager.js:959-969 | `split('_')[1]` of `<prefix>_<i>` is the rendered number i |
| HitZones.ClassifyUnreserved | src/ui/UIManager.js:914-972 | a name that is none of the seven exactly matched zone names is decided by the `Social_` and `Project_` prefix tests alone |
| HitZones.ClassifyNumberedName | src/ui/UIManager.js:959-969 | a name `<prefix>_<i>` that is none of the exactly matched names reads back the number i |
| HitZones.ClassifyProjectZoneName | src/ui/UIManager.js:962-968 | clicking `Project_<id>` asks for exactly project id |
| HitZones.ClassifySocialZoneName | src/ui/UIManager.js:960-961 | clicking `Social_<i>` asks for exactly social link i |
| HitZones.ClassifyNavZoneName | src/ui/UIManager.js:944-957 | clicking a navigation zone asks for its section |
| Panel.SetBackToSceneCallback | src/ui/UIManager.js:1073-1075 | registering the callback sets it and changes nothing else |
| Panel.UpdateUIContent | src/ui/UIManager.js:988-1028 | without a panel nothing happens; otherwise the section is recorded, the content is redrawn for it, and the zones are rebuilt with exactly the expected names; opacity, detail, scroll and callback are kept |
| Panel.Show3DUI | src/ui/UIManager.js:851-890 | an open panel is left alone; otherwise a transparent panel opens on the about section with consistent content and zones, and fades in; detail and scroll are kept |
| Panel.Hide3DUI | src/ui/UIManager.js:893-911 | the panel is forgotten at once; a fade-out is requested iff a panel was open; detail, scroll and callback are kept |
| Panel.LinkEffects | src/ui/UIManager.js:932-942 | a link zone opens a URL iff a project is open and that link field is truthy, and it is that field's URL |
| Panel.SelectProject | src/ui/UIManager.js:962-968 | a number that names a project opens its detail page and redraws; anything else changes nothing |
| Panel.HandleUIClick | src/ui/UIManager.js:914-972 | no click touches the scroll offset or the callback, and a consistent panel stays consistent |
| Panel.ClampScroll | src/ui/UIManager.js:1058-1064 | the result never exceeds the bound, is non-negative when the bound is, and an offset already in range is kept |
| Panel.HandleScroll | src/ui/UIManager.js:1042-1070 | the wheel is handled iff the panel shows the experience list; then the offset moves by half the delta and is clamped; otherwise nothing changes |
| Panel.GetRaycastTargets | src/ui/UIManager.js:1031-1039 | no targets without a panel; otherwise the panel mesh followed by each of its zones, parented to it |
| Panel.InitialCoherent | src/ui/UIManager.js:6-23 | the start state is coherent and has no panel |
| Panel.ShowKeepsCoherent | src/ui/UIManager.js:851-890 | opening keeps the state coherent and leaves the panel active |
| Panel.ScrollKeepsCoherent | src/ui/UIManager.js:1042-1070 | scrolling keeps the state coherent |
| Panel.BackButtonOnlyInMainView | src/ui/UIManager.js:695-755 | the back button is offered iff no project detail is open |
| Panel.OnlyBackCloses | src/ui/UIManager.js:914-972 | a click that closes an open panel was a click on the back button |
| Panel.ClickKeepsCoherent | src/ui/UIManager.js:914-972 | clicking any zone the panel offers keeps it coherent |
| Panel.BackButtonCloses | src/ui/UIManager.js:918-925 | the back button hides the panel, fades it out, asks for the camera reset iff a callback is registered, and keeps the open project |
| Panel.ProjectZoneNameListed | src/ui/UIManager.js:800-822 | the k-th card zone of the experience page is `Project_<k>` |
| Panel.ProjectCardOffered | src/ui/UIManager.js:781-825 | on the experience page, the zone `Project_<k>` of every listed project is offered |
| Panel.ClickProjectZone | src/ui/UIManager.js:962-968 | clicking `Project_<k>` opens project k on the experience page and requests nothing |
| Panel.SocialZoneOffered | src/ui/UIManager.js:827-846 | on the about page, the zone `Social_<i>` of every social link is offered |
| Panel.ClickSocialZone | src/ui/UIManager.js:960-961 | clicking `Social_<i>` opens the URL of link i and leaves the state unchanged |
| Panel.OpenProjectFromList | src/ui/UIManager.js:962-968 | on the experience page, clicking an offered card opens that project's detail page, with its detail zones, and no effect |
| Panel.OpenSocialLink | src/ui/UIManager.js:960-961 | on the about page, clicking `Social_<i>` opens link i and changes nothing else |
| Panel.OpenProjectLink | src/ui/UIManager.js:932-942 | on a detail page with a truthy link, the link zone is offered and opens that link, changing nothing else |
| Panel.NavigateClearsDetail | src/ui/UIManager.js:944-957 | navigation leaves the detail view and shows the chosen section with its title |
| Panel.BackToProjectsOffered | src/ui/UIManager.js:695-741 | every detail page offers the `BackToProjects` zone |
| Panel.ReturnToProjectList | src/ui/UIManager.js:927-930 | on a detail page, `BackToProjects` clears the project and shows the experience list with the list's zones, and requests nothing |
| Panel.MaxScrollValue | src/ui/UIManager.js:1052-1055 | with five projects the scroll bound is -400 |
| Panel.ClampScrollProjects | src/ui/UIManager.js:1058-1064 | with a non-negative bound the clamp projects onto [0, bound] |
| Panel.ClampScrollIdempotent | src/ui/UIManager.js:1058-1064 | clamping twice is clamping once |
| Panel.HandledScrollSticksAtBound | src/ui/UIManager.js:1042-1070 | every handled wheel event leaves the offset at -400 |
| Interactions.SetCurrentUIScreen | src/ui/UIInteractions.js:18-21 | the panel reference is replaced and the detail kept |
| Interactions.SetCurrentProjectDetail | src/ui/UIInteractions.js:23-25 | the detail is replaced and the panel reference kept |
| Interactions.CreateUIHitboxes | src/ui/UIInteractions.js:28-39 | the new zones have exactly the expected names for the helper's state and are appended to the panel's children |
| Interactions.ClearHitboxes | src/ui/UIInteractions.js:307-313 | the current panel loses all its children; nothing else changes |
| Interactions.HandleUIClick | src/ui/UIInteractions.js:223-286 | a click never replaces the panel and causes at most one outside call; each branch's outcome is stated by the lemmas below |
| Interactions.GetRaycastTargets | src/ui/UIInteractions.js:296-304 | no targets without a panel; otherwise the panel followed by its children |
| Interactions.Reset | src/ui/UIInteractions.js:362-365 | reset returns to the start state |
| Interactions.ProjectTypeAgrees | src/ui/UIInteractions.js:316-331 | the `project` type test holds iff the click is dispatched as a project click |
| Interactions.SocialTypeAgrees | src/ui/UIInteractions.js:316-331 | the `social` type test holds iff the click is dispatched as a social click |
| Interactions.BackAndLinkTypesAgree | src/ui/UIInteractions.js:316-331 | the `back` and `link` type tests are exactly the corresponding dispatch cases |
| Interactions.NavigationTypeAgrees | src/ui/UIInteractions.js:316-331 | every navigation click passes the `navigation` type test |
| Interactions.UnknownNavigationIgnored | src/ui/UIInteractions.js:252-271 | `Nav_Contact` passes the type test but is not dispatched |
| Interactions.SameNamesAsPanel | src/ui/UIInteractions.js:28-39 | the helper offers the same zone names as the panel manager |
| Interactions.ProjectSelection | src/ui/UIInteractions.js:276-282 | a listed project is selected iff a selection callback is supplied |
| Interactions.UnknownProjectIgnored | src/ui/UIInteractions.js:276-282 | an id missing from the table changes nothing and calls nothing |
| Interactions.LeavingDetailNeedsNoCallback | src/ui/UIInteractions.js:233-271 | navigation and back-to-projects leave the detail view even without callbacks; navigation calls its callback iff supplied |
| Interactions.BackButtonKeepsState | src/ui/UIInteractions.js:226-230 | the back button changes no state and calls `onBackToScene` exactly when it was supplied |
| Interactions.BackToProjectsCallback | src/ui/UIInteractions.js:232-237 | `BackToProjects` clears the detail and calls `onBackToProjects` exactly when it was supplied |
| Interactions.LinkZonesOpen | src/ui/UIInteractions.js:239-249 | the link zones keep the state and open the project's live or repository URL exactly when a project is set and that field is truthy |
| Interactions.SocialZoneOpens | src/ui/UIInteractions.js:289-293 | `Social_<i>` opens social link i and changes nothing |
| Renderer.PanelContentSelectsPage | src/ui/UIRenderer.js:59-100 | the drawn page is the detail page iff a project is open, otherwise the page of the section |
| Renderer.TitleText | src/ui/UIRenderer.js:125 | the title is never empty and a non-empty title is drawn as given |
| Renderer.LowerSectionNames | src/ui/UIRenderer.js:141-153 | lower-casing maps each navigation label to its section name |
| Renderer.NavHighlightExactlyActive | src/ui/UIRenderer.js:141-153 | a navigation item is highlighted iff it is the current section |
| Renderer.SkillCellsDistinct | src/ui/UIRenderer.js:275-299 | distinct skills are drawn in distinct cells |
| Renderer.SkillRows | src/ui/UIRenderer.js:275-299 | fourteen skills in four columns fill exactly four rows |
| Renderer.CardOriginsDistinct | src/ui/UIRenderer.js:337-354 | distinct cards are drawn at distinct origins |
| Renderer.IconsFrom | src/ui/UIRenderer.js:202-230 | icons are drawn only for cached names, in table order, at their slot positions |
| Renderer.IconsFromComplete | src/ui/UIRenderer.js:202-230 | every cached icon from the starting index on is drawn |
| Renderer.SocialIconDrawnIffCached | src/ui/UIRenderer.js:202-230 | a social icon is drawn iff its image is in the cache |
| Renderer.SocialIconsExtremes | src/ui/UIRenderer.js:202-230 | an empty cache draws no icon, a full cache draws all three |
| Renderer.Fit | src/ui/UIRenderer.js:446-464 | the fitted image keeps its aspect ratio, fills the box in one dimension, lies inside the box and is centred |
| Renderer.FitWide | src/ui/UIRenderer.js:446-464 | a wider-than-box image takes the full width and a height within the box |
| Renderer.FitTall | src/ui/UIRenderer.js:446-464 | any other image takes the full height and a width within the box |
| Renderer.LoadImage | src/ui/UIRenderer.js:28-47 | a cached image is returned without loading; a successful load is cached under the project id; a failed load caches nothing |
| Renderer.LoadImageOnlyAdds | src/ui/UIRenderer.js:28-47 | loading never removes or changes a cached image |
| Renderer.LoadImageIdempotent | src/ui/UIRenderer.js:28-47 | after a successful load, loading again returns the same image and leaves the cache as it is |
| Renderer.RenderProjectImage | src/ui/UIRenderer.js:434-476 | an image is drawn iff the project has an image and it loads, and it is drawn inside the image box |
| Renderer.TechnologyPositions | src/ui/UIRenderer.js:480-495 | each technology is drawn after the widths of all earlier ones plus the gaps |
| Renderer.AdvanceIncreasing | src/ui/UIRenderer.js:480-495 | later technologies are drawn strictly further right |
| Renderer.GreedySnoc | src/ui/UIRenderer.js:499-528 | a line is only broken when the next word would not fit |
| Renderer.WrapStart | src/ui/UIRenderer.js:499-528 | the first word starts the first line |
| Renderer.WrapBreak | src/ui/UIRenderer.js:499-528 | a word that overflows the line starts a new one |
| Renderer.WrapExtend | src/ui/UIRenderer.js:499-528 | a word that fits is added to the current line |
| Renderer.WrapFinish | src/ui/UIRenderer.js:499-528 | the finished lines hold all the words in order, each line fits, and breaks are greedy |
| Renderer.WrapWords | src/ui/UIRenderer.js:499-528 | the word wrap keeps every word in order, every line fits the width unless it is a single word, and a line breaks only when the next word would overflow |
| Renderer.RenderProjectDescription | src/ui/UIRenderer.js:499-528 | the given description's words are laid out in order on non-empty, fitting, greedily broken lines, and the text ends below the last line |
| Renderer.RenderKeyFeatures | src/ui/UIRenderer.js:531-547 | each feature is a bulleted line 50 pixels below the previous one |
| Renderer.RenderProjectCards | src/ui/UIRenderer.js:337-394 | one card per project of the first six, each laid out at its grid origin with its title wrapped greedily on lines that fit unless they hold a single word |
| Renderer.LayOutCards | src/ui/UIRenderer.js:337-394 | one card per project given, in order, each at its grid origin with its title wrapped greedily on lines that fit unless they hold a single word, and its type line below the title |
| Renderer.CardTitleKeepsWords | src/ui/UIRenderer.js:337-394 | the wrapped card title joins back to the project's title |
| Renderer.HandleScroll | src/ui/UIRenderer.js:567-583 | the renderer's scroll rule never exceeds the bound |
| Renderer.RendererScrollAtBound | src/ui/UIRenderer.js:567-583 | every scroll leaves the renderer's offset at -400 |
| Camera.Lerp | src/main.js:1273-1277 | interpolation starts at the start point and ends at the end point |
| Camera.Progress | src/CameraController.js:47-49 | progress never exceeds 1, reaches 1 exactly at the duration, and is non-negative for non-negative elapsed time |
| Camera.Settled | src/CameraController.js:61-126 | a finished zoom-in locks rotation with distance [9, 15]; a finished reset frees rotation with distance [20, 45] |
| Camera.Frame | src/CameraController.js:47-82 | a frame keeps animating iff the duration has not passed; at the end the camera is at the end pose with the settled constraints and the callback runs iff there is one; validity is kept |
| Camera.Start | src/CameraController.js:26-46 | a transition starts from the current pose with the distance limits lifted, its end pose pending |
| Camera.ZoomToScreen | src/CameraController.js:26-83 | ignored while animating; otherwise the camera heads to the panel view with rotation and zoom off; validity is kept |
| Camera.ResetCamera | src/CameraController.js:86-130 | ignored while animating; otherwise the camera heads back to the overview; validity is kept |
| Camera.Tick | src/main.js:1266-1296 | without a requested frame nothing happens; otherwise the transition continues or ends; validity is kept |
| Camera.CancelAnimation | src/CameraController.js:162-168 | with a frame id the frame is cancelled and the mutex released; the pose and controls are kept; otherwise nothing changes |
| Camera.ClampTarget | src/main.js:1416-1431 | the clamped target has y at least 6, x equal to -1, and z kept |
| Camera.EaseEndpoints | src/CameraController.js:47-52 | easing and progress map the start to 0 and the duration to 1 |
| Camera.EaseBounds | src/CameraController.js:47-52 | on [0, 1] the eased weight stays in [0, 1] |
| Camera.EaseMonotone | src/CameraController.js:47-52 | the smoothstep easing is monotone on [0, 1] |
| Camera.EasedProgressMonotone | src/CameraController.js:47-52 | later times give larger eased weights, reaching 1 at the duration |
| Camera.InitialValid | src/main.js:1403-1414 | the start-up camera is valid and idle |
| Camera.Run | src/CameraController.js:47-82 | running frames keeps the camera valid and does nothing without a pending transition |
| Camera.CallbackAtMostOnce | src/CameraController.js:61-80 | however many frames run, the completion callback runs at most once, and only if one was given |
| Camera.FinishedTransition | src/CameraController.js:65-79 | a frame past the duration leaves the camera idle at the end pose and runs the callback iff one was given |
| Camera.CompletionConstraints | src/CameraController.js:61-126 | a completed zoom-in and a completed reset leave their own distance and rotation constraints |
| Camera.CancelKeepsLiftedLimits | src/CameraController.js:162-168 | cancelling releases the mutex but keeps the lifted distance limits |
| Camera.ZoomThenFinish | src/CameraController.js:26-83 | zooming in and letting it run out ends at the panel view, locked, with the callback run |
| Camera.ClampTargetIdempotent | src/main.js:1416-1431 | clamping the target twice is clamping once, and y becomes max(y, 6) |
| Dispatch.FirstHit | src/events/EventManager.js:78-89 | the handled intersection is the first one that is the screen or a panel child; there is none iff no intersection matches |
| Dispatch.Create | src/events/EventManager.js:5-33 | a new manager has no scene and holds the given panel and camera |
| Dispatch.SetScene | src/events/EventManager.js:35-37 | setting the scene changes nothing else |
| Dispatch.ToNdc | src/events/EventManager.js:55-62 | the window's edges map to -1 and 1, with y pointing up |
| Dispatch.GetRaycastTargets | src/events/EventManager.js:131-139 | the panel's targets while it is open, else the scene's children, else nothing |
| Dispatch.UpdateCursor | src/events/EventManager.js:142-172 | the cursor is left alone without a scene; otherwise it is the pointer iff some intersection matches |
| Dispatch.OnMouseMove | src/events/EventManager.js:55-62 | the pointer is stored in device coordinates, nothing else changes, and the cursor is updated |
| Dispatch.HandleScreenClick | src/events/EventManager.js:120-123 | a screen click starts the zoom and opens the panel; when no panel was open, the panel group is added to the scene the manager holds |
| Dispatch.AddChild | src/ui/UIManager.js:880-881 | adding an object makes it the last child, exactly once, keeps every other child, and appends it when it was not yet a child |
| Dispatch.OnClick | src/events/EventManager.js:65-91 | clicks are ignored while the camera moves or when nothing matches; a screen hit is a screen click and the only way the scene changes; a panel hit goes to the panel's click handler |
| Dispatch.OnWheel | src/events/EventManager.js:94-103 | the wheel goes to the panel's scroll rule only while the panel is open |
| Dispatch.ScreenTestFirst | src/events/EventManager.js:80-86 | an object that is the screen and a panel child at once is treated as the screen |
| Dispatch.ShortPanelChild | src/events/EventManager.js:80-86 | a panel child whose name is shorter than the screen marker is a panel hit |
| Dispatch.NonMatchesSkipped | src/events/EventManager.js:78-89 | intersections that match neither class do not affect which one is handled |
| Dispatch.LaterHitsIrrelevant | src/events/EventManager.js:78-89 | intersections after the first match never change the result |
| Dispatch.CursorAgreesWithClick | src/events/EventManager.js:142-172 | once a scene is set, the pointer cursor shows exactly when a click would be handled |
| Dispatch.NdcRange | src/events/EventManager.js:55-62 | a pixel inside the window maps into [-1, 1] on both axes |
| Dispatch.NdcRoundTrip | src/events/EventManager.js:55-62 | the pixel is recovered from its device coordinates |
| Dispatch.NdcMonotone | src/events/EventManager.js:55-62 | moving the pointer right or down moves the device coordinate right or down |
| Dispatch.ScreenClickOpensPanel | src/events/EventManager.js:65-91 | a screen click from the overview starts the zoom, opens the about page and fades it in |
| Dispatch.NoClickDuringZoom | src/events/EventManager.js:65-91 | while the zoom a screen click started is running, every further click is ignored |
| Dispatch.PanelInputLeavesCamera | src/events/EventManager.js:65-103 | panel clicks and the wheel never touch the camera or the scene |
| Dispatch.AddChildIdempotent | src/ui/UIManager.js:881 | opening the panel again does not add the panel group a second time |
| Dispatch.ScreenClickAddsPanelGroup | src/ui/UIManager.js:851-881 | a screen click from the overview puts the panel group into the scene as its last child and keeps every other child |
| App.Initial | src/main.js:1403-1414 | the page starts with no panel, an idle valid camera, and the back button wired to the camera reset |
| App.GetRaycastTargets | src/main.js:1169-1177 | the panel and its zones while it is open, else the scene's children |
| Common.Without | src/main.js:1068-1075 | the removed value no longer occurs, every other element is kept, and a sequence without it is returned unchanged |
| Common.WithoutConcat | src/main.js:1068-1075 | removal works piece by piece, so the remaining elements keep their order |
| App.OnClick | src/main.js:1180-1203 | clicks are ignored while the camera moves; the scene either stays as it was or gains the panel group; the panel changes as the event manager's would; the camera reset is carried out here |
| App.OnWheel | src/main.js:1208-1234 | the wheel never touches the camera or the scene and does nothing without a panel |
| App.RenderFrame | src/main.js:1452-1459 | each frame advances the camera, and the cursor is the pointer iff some intersection matches |
| App.TargetsAgreeWithManager | src/main.js:1169-1177 | the page and the event manager choose the same targets |
| App.WheelAgreesWithManager | src/main.js:1208-1234 | the page's wheel listener and the manager's forwarding agree |
| App.CursorAgreesWithManager | src/main.js:1342-1371 | the page's cursor is the manager's cursor |
| App.BackClickDispatched | src/events/EventManager.js:65-91 | a click whose first matching intersection is the back button is handed to the panel as a `BackButton` click |
| App.FadeOutKept | src/main.js:1068-1075 | carrying out the camera reset leaves only the fade-out of the back button's effects |
| App.ClickAddsOnlyPanelGroup | src/main.js:1033 | a click changes the scene only when it is a screen click from the overview, and then only by adding the panel group |
| App.BackButtonReturnsToOverview | src/main.js:1068-1075 | the back button closes the panel, fades it out and starts the camera back to the overview |
| App.OpenThenBack | src/main.js:1180-1203 | a whole visit: the screen click opens the panel and zooms, the zoom completes at the panel view, and the back button closes the panel and heads back, leaving the open project as it was and the panel group in the scene |
| Loading.FindStep | src/loading.js:35-38 | the step found is the first whose threshold is at least the progress; there is none iff all thresholds are below it |
| Loading.UpdateProgress | src/loading.js:24-47 | progress is capped at 100; both widths show it; a non-empty custom text wins over the step text; hiding is scheduled iff progress reaches 100 |
| Loading.StepsAscend | src/loading.js:8-16 | seven thresholds strictly ascend and end at 100 |
| Loading.FindStepInRange | src/loading.js:35-38 | the step found is the one whose range holds the progress |
| Loading.StepTextMatchesRanges | src/loading.js:8-47 | without custom text, every update shows the text of the range the progress falls in |
| Loading.EmptyCustomTextIgnored | src/loading.js:32-39 | an empty custom text falls back to the step text |
| Loading.NegativeProgressKept | src/loading.js:24-47 | negative progress is kept, shows the first step and hides nothing |
| Loading.CompletionHides | src/loading.js:24-47 | progress at or past 100 fills the bar, says ready and schedules hiding |

## Left out

- The three.js object graph is not modelled:
  - meshes, materials, textures and `dispose`;
  - the canvas drawing calls (fonts, colours, shadows, gradients).
- Only layout decisions (positions, what is drawn, line breaks) are modelled.
- GSAP tweens are not modelled. The panel's fade in and fade out are effects (`FadeIn`, `FadeOut`), and the opacity they animate stays at its starting value.
- `requestAnimationFrame` and `Date.now` are not modelled. A frame is an explicit call with the current time as a parameter, and frame ids are handed out by a counter.
- Raycasting is not modelled. The ordered list of intersected objects is an input, as is the world position of the clicked screen.
- `window.open` is an `OpenUrl` effect.
- Asset, font and icon loading (`AssetLoader`, `loadSVGIcon`, `loadCustomFonts`) is not modelled. Their outcome is a parameter: the icon cache, or the success of an image load.
- Particles of the loading screen are not modelled, because they use `Math.random` and only decorate.
- The loading screen's DOM writes and its hide timers are not modelled. The writes are the returned `Display` value; hiding is the `scheduleHide` flag.
- Resize handlers are not modelled. They only change the renderer and the camera aspect ratio.
- The debug-only code is not modelled, because it does not affect behaviour:
  - the hit-zone visibility toggles;
  - `getUIClickCoordinates`, `getDebugInfo` and `getCameraInfo`.
- Hover highlighting (`handleUIHover`) is not modelled, because it only changes the cursor style already modelled by `UpdateCursor`.
- Event registration is not modelled: `enableEvents`, `disableEvents`, `addEventListener` and `simulateClick`.
- Orbit-controls damping and `controls.update` are not modelled. Nor is the interplay between the `change` handler and frames of a running transition. `Camera.ClampTarget` models the handler as a function of the target alone.
- `JsText.ParseInt`: precision beyond 2^53 is not modelled. Every parsed integer is exact.
- `JsText.ToLowerAscii`: only A-Z are lower-cased. Every name passed through it is ASCII.
- `Dispatch.ToNdc`: requires a window of positive size, because the source divides by its width and height.
- `Renderer.Fit`: requires a box and image of positive size, because the source divides by their dimensions.
- The page script and the `UIManager` class each carry an inline project table. They differ from the data module only in text fields (descriptions, project types, technologies, URL strings); ids and link truthiness are the same. One table is modelled.
- The project description texts are not reproduced in the project table. `Renderer.RenderProjectDescription` lays out any description text, given as a parameter; only its words matter to the layout.
- `Camera.Frame`: the first frame runs at the moment the transition starts (elapsed time 0), as the source calls it synchronously. Intermediate poses are linear interpolations by the eased weight and are not stated beyond the endpoints.
- `Dispatch.HandleScreenClick`: the panel group's own children are not modelled; the scene holds the group as one child. After `hide3DUI` the faded panel stays in the group until the fade-out completes and empties it (src/main.js:1054-1055, src/ui/UIManager.js:900-902). Hits are an input, so the model leaves what a ray meets inside the group to the caller. Before the event manager is given its scene, the group goes to the panel manager's own scene, which is not part of the manager's state.
- `App.OnClick`: the same holds for the page script's `scene.add(uiGroup)` (src/main.js:1033). The page always has its scene, so the group is always recorded there.
- `Renderer.WrapWords`: the contract fixes the source's split only for a `measure` that grows as words are added to a line. For an arbitrary `measure` function, another split can also keep every word, fit every line and break each line before a word that does not fit.
- `Panel.HandleUIClick`: the back-to-scene callback is not stored as a function. A registered callback is a flag, and calling it is the effect `BackToScene` for the caller to carry out.
