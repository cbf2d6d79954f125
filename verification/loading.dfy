/**
 * The loading screen's progress mapping: a progress value becomes the width
 * of the bar and the logo fill, a status text, and whether the screen is
 * scheduled to hide. The page elements it writes are returned as a value.
 */
module Loading {
  import opened Common

  datatype LoadingStep = LoadingStep(threshold: real, text: string)

  /** The status texts and the progress up to which each one is shown. */
  const Steps: seq<LoadingStep> := [
    LoadingStep(10.0, "Loading Models..."),
    LoadingStep(25.0, "Loading Textures..."),
    LoadingStep(40.0, "Loading Fonts..."),
    LoadingStep(55.0, "Loading Icons..."),
    LoadingStep(70.0, "Initializing Scene..."),
    LoadingStep(85.0, "Setting up Controls..."),
    LoadingStep(100.0, "Ready!")
  ]

  /**
   * What one update writes: the stored progress, the bar and logo widths (in
   * percent), the new status text (`None`: the text is left as it was), and
   * whether hiding the screen was scheduled.
   */
  datatype Display = Display(progress: real, barWidth: real, logoWidth: real, text: Option<string>, scheduleHide: bool)

  /** `steps.find(step => progress <= step.progress)`, as a position. */
  function FindStep(steps: seq<LoadingStep>, progress: real): (r: Option<nat>)
    ensures r.Some? ==> r.value < |steps| && progress <= steps[r.value].threshold
    ensures r.Some? ==> forall j :: 0 <= j < r.value ==> steps[j].threshold < progress
    ensures r.None? <==> forall j :: 0 <= j < |steps| ==> steps[j].threshold < progress
  {
    if |steps| == 0 then None
    else if progress <= steps[0].threshold then Some(0)
    else
      var rest := FindStep(steps[1..], progress);
      assert forall j :: 1 <= j < |steps| ==> steps[j] == steps[1..][j - 1];
      if rest.Some? then Some(rest.value + 1) else None
  }

  /**
   * `updateProgress(newProgress, customText)`: cap the progress at 100, set
   * both widths to it, show the custom text when it is non-empty and the
   * matching step's text otherwise, and schedule hiding at 100.
   */
  function UpdateProgress(newProgress: real, customText: Option<string>): (r: Display)
    ensures r.progress == Min(newProgress, 100.0) && r.progress <= 100.0
    ensures newProgress <= 100.0 ==> r.progress == newProgress
    ensures r.barWidth == r.progress && r.logoWidth == r.progress
    ensures customText.Some? && customText.value != "" ==> r.text == customText
    ensures !(customText.Some? && customText.value != "") ==>
              r.text.Some? && r.text.value == Steps[FindStep(Steps, r.progress).value].text
    ensures r.scheduleHide <==> r.progress >= 100.0
  {
    var current := Min(newProgress, 100.0);
    var step := FindStep(Steps, current);
    assert Steps[6].threshold == 100.0;
    var text := if customText.Some? && customText.value != "" then customText
                else if step.Some? then Some(Steps[step.value].text)
                else None;
    Display(current, current, current, text, current >= 100.0)
  }

  /** The status text as a plain cascade of ranges: the reference the table lookup is checked against. */
  function StatusText(progress: real): string
    requires progress <= 100.0
  {
    if progress <= 10.0 then "Loading Models..."
    else if progress <= 25.0 then "Loading Textures..."
    else if progress <= 40.0 then "Loading Fonts..."
    else if progress <= 55.0 then "Loading Icons..."
    else if progress <= 70.0 then "Initializing Scene..."
    else if progress <= 85.0 then "Setting up Controls..."
    else "Ready!"
  }

  // Properties.

  /** The thresholds strictly ascend and end at 100. */
  lemma StepsAscend()
    ensures |Steps| == 7 && Steps[|Steps| - 1].threshold == 100.0
    ensures forall i, j :: 0 <= i < j < |Steps| ==> Steps[i].threshold < Steps[j].threshold
  {
  }

  /** With ascending thresholds, the step found is the one whose range `(previous, own]` holds the progress. */
  lemma FindStepInRange(progress: real, i: nat)
    requires i < |Steps| && progress <= Steps[i].threshold
    requires i == 0 || Steps[i - 1].threshold < progress
    ensures FindStep(Steps, progress) == Some(i)
  {
    StepsAscend();
    var r := FindStep(Steps, progress);
    assert !(Steps[i].threshold < progress);
    assert r.Some? && r.value <= i;
    assert i == 0 || Steps[i - 1].threshold < Steps[r.value].threshold;
  }

  /** Without custom text, every update shows the text of the progress range it falls in. */
  lemma StepTextMatchesRanges(newProgress: real)
    ensures UpdateProgress(newProgress, None).text == Some(StatusText(Min(newProgress, 100.0)))
  {
    var p := Min(newProgress, 100.0);
    assert UpdateProgress(newProgress, None).text == Some(Steps[FindStep(Steps, p).value].text);
    if p <= 10.0 { FindStepInRange(p, 0); }
    else if p <= 25.0 { FindStepInRange(p, 1); }
    else if p <= 40.0 { FindStepInRange(p, 2); }
    else if p <= 55.0 { FindStepInRange(p, 3); }
    else if p <= 70.0 { FindStepInRange(p, 4); }
    else if p <= 85.0 { FindStepInRange(p, 5); }
    else { FindStepInRange(p, 6); }
  }

  /** A custom text wins only when it is non-empty; an empty one falls back to the step text. */
  lemma EmptyCustomTextIgnored(newProgress: real)
    ensures UpdateProgress(newProgress, Some("")) == UpdateProgress(newProgress, None)
  {
  }

  /** There is no lower clamp: negative progress is kept, shows the first step, and hides nothing. */
  lemma NegativeProgressKept(newProgress: real)
    requires newProgress < 0.0
    ensures UpdateProgress(newProgress, None)
         == Display(newProgress, newProgress, newProgress, Some("Loading Models..."), false)
  {
    StepTextMatchesRanges(newProgress);
  }

  /** At or past 100 the bar is full, the text says ready, and hiding is scheduled. */
  lemma CompletionHides(newProgress: real)
    requires newProgress >= 100.0
    ensures UpdateProgress(newProgress, None) == Display(100.0, 100.0, 100.0, Some("Ready!"), true)
  {
    StepTextMatchesRanges(newProgress);
  }
}
