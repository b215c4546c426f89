/**
 * The director's view of a project (`VideoPreview`): it sends the submitted contributors
 * to the analysis, turns the suggested themes into a storyboard, lets the organizer pin,
 * unpin and reorder segments, and runs a four-tick render.
 */
module Director {
  import opened Wrappers
  import opened Domain
  import opened Strings
  import Seqs
  import Gemini

  // ---------------------------------------------------------------------------
  // The analysis input

  /** The message sent on behalf of every submitted contributor. */
  const SubmittedMessage :=
    "They are an amazing person who always helped me during hard times. I remember when we hiked the Alps together."

  /** The single entry sent when nobody has submitted yet. */
  const FamilyPlaceholder := Gemini.Submission("Family", "The heart of our home.")

  predicate IsSubmitted(c: Contributor) { c.status == Submitted }

  function AsSubmission(c: Contributor): Gemini.Submission
  {
    Gemini.Submission(c.name, SubmittedMessage)
  }

  /** The `subs` list, or the placeholder when it is empty. */
  function AnalysisInput(contributors: seq<Contributor>): seq<Gemini.Submission>
  {
    var subs := Seqs.Map(AsSubmission, Seqs.Filter(IsSubmitted, contributors));
    if |subs| > 0 then subs else [FamilyPlaceholder]
  }

  /**
   * The input has one entry per submitted contributor, named after them and in their
   * order; with no submitted contributor it is exactly the placeholder.
   */
  lemma AnalysisInputSpec(contributors: seq<Contributor>)
    ensures var submitted := Seqs.Filter(IsSubmitted, contributors);
      && (|submitted| > 0 ==>
            |AnalysisInput(contributors)| == |submitted|
            && forall i :: 0 <= i < |submitted| ==>
                 AnalysisInput(contributors)[i] == Gemini.Submission(submitted[i].name, SubmittedMessage))
      && (|submitted| == 0 <==> AnalysisInput(contributors) == [FamilyPlaceholder])
      && (|submitted| == 0 <==> forall i :: 0 <= i < |contributors| ==> contributors[i].status != Submitted)
  {
    var submitted := Seqs.Filter(IsSubmitted, contributors);
    Seqs.FilterEmptyIff(IsSubmitted, contributors);
    if |submitted| > 0 {
      var subs := AnalysisInput(contributors);
      assert subs[0].message == SubmittedMessage;
      assert |SubmittedMessage| != |FamilyPlaceholder.message|;
    }
  }

  // ---------------------------------------------------------------------------
  // From themes to storyboard

  const DefaultBeat := "Narrative Segment"

  /** `t.emotionalBeat || 'Narrative Segment'` */
  function BeatOrDefault(beat: Option<string>): string
  {
    if beat.Some? && beat.value != "" then beat.value else DefaultBeat
  }

  /** `theme-${i}` */
  function SegmentId(i: nat): string
  {
    "theme-" + NatToString(i)
  }

  /** The storyboard entry made from the `i`-th suggested theme. */
  function Segment(t: Gemini.ThemeSuggestion, i: nat): StoryboardTheme
  {
    StoryboardTheme(
      id := SegmentId(i),
      themeName := t.themeName,
      contributors := t.contributors,
      suggestedTransition := t.suggestedTransition,
      isPinned := true,
      order := i,
      emotionalBeat := BeatOrDefault(t.emotionalBeat),
      isClimax := t.isClimax,
      videoUrl := None,
      assetId := None,
      assetType := None,
      contributorName := None)
  }

  /** `themes.map((t, i) => ...)` */
  function StoryboardFrom(themes: seq<Gemini.ThemeSuggestion>): seq<StoryboardTheme>
  {
    seq(|themes|, i requires 0 <= i < |themes| => Segment(themes[i], i))
  }

  /**
   * One segment per theme, in theme order: segment `i` is pinned, has order `i` and id
   * `theme-i`, copies the theme's fields and falls back to the default beat exactly
   * when the theme's beat is missing or empty. The ids are pairwise different.
   */
  lemma StoryboardFromSpec(themes: seq<Gemini.ThemeSuggestion>)
    ensures |StoryboardFrom(themes)| == |themes|
    ensures forall i :: 0 <= i < |themes| ==>
      var s := StoryboardFrom(themes)[i];
      && s.id == "theme-" + NatToString(i) && s.order == i && s.isPinned
      && s.themeName == themes[i].themeName && s.contributors == themes[i].contributors
      && s.suggestedTransition == themes[i].suggestedTransition && s.isClimax == themes[i].isClimax
      && (s.emotionalBeat == DefaultBeat <==>
            themes[i].emotionalBeat.None? || themes[i].emotionalBeat.value in {"", DefaultBeat})
      && (themes[i].emotionalBeat.Some? && themes[i].emotionalBeat.value != "" ==>
            s.emotionalBeat == themes[i].emotionalBeat.value)
    ensures forall i, j :: 0 <= i < j < |themes| ==> StoryboardFrom(themes)[i].id != StoryboardFrom(themes)[j].id
  {
    forall i, j | 0 <= i < j < |themes|
      ensures StoryboardFrom(themes)[i].id != StoryboardFrom(themes)[j].id
    {
      if SegmentId(i) == SegmentId(j) {
        assert NatToString(i) == SegmentId(i)[6..] == SegmentId(j)[6..] == NatToString(j);
        NatToStringInjective(i, j);
      }
    }
  }

  /** The storyboard once the analysis `result` arrives: replaced only when it has themes. */
  function ApplyAnalysis(current: seq<StoryboardTheme>, result: Option<Gemini.Analysis>): seq<StoryboardTheme>
  {
    if result.Some? && result.value.themes.Some? then StoryboardFrom(result.value.themes.value) else current
  }

  /** A null result, or one without themes, leaves the storyboard as it was. */
  lemma ApplyAnalysisKeeps(current: seq<StoryboardTheme>, result: Option<Gemini.Analysis>)
    ensures result.None? || result.value.themes.None? ==> ApplyAnalysis(current, result) == current
    ensures result.Some? && result.value.themes.Some? ==>
      && |ApplyAnalysis(current, result)| == |result.value.themes.value|
      && forall i :: 0 <= i < |ApplyAnalysis(current, result)| ==>
           ApplyAnalysis(current, result)[i].isPinned && ApplyAnalysis(current, result)[i].order == i
  {
  }

  // ---------------------------------------------------------------------------
  // Editing the storyboard

  function Flip(id: string, t: StoryboardTheme): StoryboardTheme
  {
    if t.id == id then t.(isPinned := !t.isPinned) else t
  }

  /** The storyboard after `toggleTheme(id)`. */
  function Toggled(storyboard: seq<StoryboardTheme>, id: string): seq<StoryboardTheme>
  {
    Seqs.Map(t => Flip(id, t), storyboard)
  }

  /** Toggling flips the pin of the entries with that id and changes nothing else. */
  lemma ToggledEffect(storyboard: seq<StoryboardTheme>, id: string)
    ensures |Toggled(storyboard, id)| == |storyboard|
    ensures forall i :: 0 <= i < |storyboard| ==>
      var t, u := storyboard[i], Toggled(storyboard, id)[i];
      && (t.id == id ==> u.isPinned == !t.isPinned)
      && (t.id != id ==> u == t)
      && u == t.(isPinned := u.isPinned)
  {
  }

  /** Toggling the same id twice restores the storyboard. */
  lemma ToggledTwice(storyboard: seq<StoryboardTheme>, id: string)
    ensures Toggled(Toggled(storyboard, id), id) == storyboard
  {
    var twice := Toggled(Toggled(storyboard, id), id);
    assert forall i :: 0 <= i < |storyboard| ==> twice[i] == storyboard[i];
  }

  /** `direction === 'up' ? index - 1 : index + 1` */
  function Target(index: int, up: bool): int
  {
    if up then index - 1 else index + 1
  }

  /** The storyboard after `moveItem(index, direction)`. */
  function Moved(storyboard: seq<StoryboardTheme>, index: nat, up: bool): seq<StoryboardTheme>
    requires index < |storyboard|
  {
    var j := Target(index, up);
    if j < 0 || j >= |storyboard| then storyboard
    else storyboard[index := storyboard[j]][j := storyboard[index]]
  }

  /**
   * A move past either end changes nothing. Otherwise it exchanges the entry with its
   * neighbour and leaves every other position alone, so the storyboard keeps its entries.
   */
  lemma MovedSpec(storyboard: seq<StoryboardTheme>, index: nat, up: bool)
    requires index < |storyboard|
    ensures var j := Target(index, up); var m := Moved(storyboard, index, up);
      && |m| == |storyboard|
      && multiset(m) == multiset(storyboard)
      && (j < 0 || j >= |storyboard| ==> m == storyboard)
      && (0 <= j < |storyboard| ==>
            m[index] == storyboard[j] && m[j] == storyboard[index]
            && forall k :: 0 <= k < |storyboard| && k != index && k != j ==> m[k] == storyboard[k])
  {
    var j := Target(index, up);
    if 0 <= j < |storyboard| {
      var s1 := storyboard[index := storyboard[j]];
      assert multiset(s1) == multiset(storyboard) - multiset{storyboard[index]} + multiset{storyboard[j]};
    }
  }

  /** Moving down and then back up restores the storyboard. */
  lemma MovedBack(storyboard: seq<StoryboardTheme>, index: nat)
    requires index + 1 < |storyboard|
    ensures Moved(Moved(storyboard, index, false), index + 1, true) == storyboard
  {
    var m := Moved(Moved(storyboard, index, false), index + 1, true);
    assert forall k :: 0 <= k < |storyboard| ==> m[k] == storyboard[k];
  }

  predicate IsPinned(t: StoryboardTheme) { t.isPinned }

  /** "Produce Final Film" is disabled when no entry is pinned. */
  function ProduceDisabled(storyboard: seq<StoryboardTheme>): bool
  {
    |Seqs.Filter(IsPinned, storyboard)| == 0
  }

  /** The button is disabled exactly when no entry is pinned. */
  lemma ProduceDisabledIff(storyboard: seq<StoryboardTheme>)
    ensures ProduceDisabled(storyboard) <==> forall i :: 0 <= i < |storyboard| ==> !storyboard[i].isPinned
  {
    Seqs.FilterEmptyIff(IsPinned, storyboard);
  }

  // ---------------------------------------------------------------------------
  // The climax tip

  /** `storyboard.findIndex(t => t.isClimax)`, as an option. */
  function FindClimax(storyboard: seq<StoryboardTheme>): (r: Option<nat>)
    ensures r.Some? ==> r.value < |storyboard| && storyboard[r.value].isClimax == Some(true)
    ensures r.Some? ==> forall j :: 0 <= j < r.value ==> storyboard[j].isClimax != Some(true)
    ensures r.None? <==> forall j :: 0 <= j < |storyboard| ==> storyboard[j].isClimax != Some(true)
  {
    if storyboard == [] then None
    else if storyboard[0].isClimax == Some(true) then Some(0)
    else match FindClimax(storyboard[1..])
      case None => None
      case Some(k) => Some(k + 1)
  }

  const EmptyTip := "Collect at least 5 clips for our AI to identify the best emotional climax for your tribute."
  const KeyMoment := "a key moment"
  const TipOpening := "The AI identified "
  const TipClosing := " as the emotional climax. Keeping this segment toward the end creates the strongest impact."

  /** `storyboard.find(t => t.isClimax)?.themeName || 'a key moment'` */
  function ClimaxName(storyboard: seq<StoryboardTheme>): string
  {
    match FindClimax(storyboard)
    case Some(i) => if storyboard[i].themeName != "" then storyboard[i].themeName else KeyMoment
    case None => KeyMoment
  }

  /** The Pro-Tip text of the sidebar. */
  function ProTip(storyboard: seq<StoryboardTheme>): string
  {
    if |storyboard| > 0 then TipOpening + ClimaxName(storyboard) + TipClosing else EmptyTip
  }

  /** With segments, the tip names the first climax segment. */
  lemma ProTipNamesClimax(storyboard: seq<StoryboardTheme>, i: nat)
    requires i < |storyboard| && storyboard[i].isClimax == Some(true) && storyboard[i].themeName != ""
    requires forall j :: 0 <= j < i ==> storyboard[j].isClimax != Some(true)
    ensures ProTip(storyboard) == TipOpening + storyboard[i].themeName + TipClosing
    ensures Contains(ProTip(storyboard), storyboard[i].themeName)
  {
    assert FindClimax(storyboard) == Some(i);
    InfixOfConcat(TipOpening, storyboard[i].themeName, TipClosing);
  }

  /** With segments but no climax segment, the tip speaks of "a key moment". */
  lemma ProTipWithoutClimax(storyboard: seq<StoryboardTheme>)
    requires |storyboard| > 0
    requires forall j :: 0 <= j < |storyboard| ==> storyboard[j].isClimax != Some(true)
    ensures ProTip(storyboard) == TipOpening + KeyMoment + TipClosing
  {
  }

  /**
   * A reply that holds every key the schema declares required always has themes, so it
   * replaces the storyboard with one segment per theme.
   */
  lemma CompleteReplyReplaces(current: seq<StoryboardTheme>, a: Gemini.Analysis)
    requires Gemini.Complete(a)
    ensures a.themes.Some?
    ensures ApplyAnalysis(current, Some(a)) == StoryboardFrom(a.themes.value)
    ensures |ApplyAnalysis(current, Some(a))| == |a.themes.value|
  {
    Gemini.CompleteIff(a);
  }

  // ---------------------------------------------------------------------------
  // The component's state

  /** The four loading screens of the render, one per tick. */
  const RenderStepCount := 4

  class Preview {
    var analysis: Option<Gemini.Analysis>
    var loading: bool
    var rendering: bool
    var renderStep: nat
    var isMasterpiece: bool
    var storyboard: seq<StoryboardTheme>
    /** The render screens (indices into the four render steps) shown by the last render, in order. */
    var screens: seq<nat>

    constructor ()
      ensures analysis.None? && loading && !rendering && renderStep == 0 && !isMasterpiece
      ensures storyboard == [] && screens == []
    {
      analysis := None;
      loading := true;
      rendering := false;
      renderStep := 0;
      isMasterpiece := false;
      storyboard := [];
      screens := [];
    }

    /** The analysis request on mount: its result replaces the storyboard only when it has themes. */
    method RunAnalysis(project: Project, oracle: string -> Option<Gemini.Analysis>)
      modifies this
      ensures analysis == Gemini.AnalyzeSubmissions(project.title, MilestoneLabel(project.milestone),
                                                    AnalysisInput(project.contributors), oracle)
      ensures storyboard == ApplyAnalysis(old(storyboard), analysis)
      ensures !loading
      ensures rendering == old(rendering) && renderStep == old(renderStep)
      ensures isMasterpiece == old(isMasterpiece) && screens == old(screens)
    {
      var subs := AnalysisInput(project.contributors);
      var result := Gemini.AnalyzeSubmissions(project.title, MilestoneLabel(project.milestone), subs, oracle);
      analysis := result;
      if result.Some? && result.value.themes.Some? {
        storyboard := StoryboardFrom(result.value.themes.value);
      }
      loading := false;
    }

    /**
     * `handleFinalRender` as written: the render opens on whatever screen `renderStep`
     * still names, which after an earlier render is the last one, then ticks through
     * steps 1, 2 and 3 and ends on the finished film.
     */
    method HandleFinalRender()
      requires !ProduceDisabled(storyboard)
      modifies this
      ensures !rendering && isMasterpiece && renderStep == RenderStepCount - 1
      ensures screens == [old(renderStep)] + TickLog(RenderStepCount - 1)
      ensures storyboard == old(storyboard) && analysis == old(analysis) && loading == old(loading)
    {
      rendering := true;
      screens := [renderStep];
      RunTicks();
    }

    /** `handleFinalRender` with `renderStep` reset first: every render shows steps 0, 1, 2, 3 in order. */
    method HandleFinalRenderFromStart()
      requires !ProduceDisabled(storyboard)
      modifies this
      ensures !rendering && isMasterpiece && renderStep == RenderStepCount - 1
      ensures screens == [0, 1, 2, 3]
      ensures storyboard == old(storyboard) && analysis == old(analysis) && loading == old(loading)
    {
      renderStep := 0;
      rendering := true;
      screens := [renderStep];
      RunTicks();
    }

    /**
     * The render interval: each loop iteration is one tick. The first three ticks show
     * steps 1, 2 and 3; the fourth stops the render and shows the film.
     */
    method RunTicks()
      requires rendering
      modifies this
      ensures !rendering && isMasterpiece && renderStep == RenderStepCount - 1
      ensures screens == old(screens) + TickLog(RenderStepCount - 1)
      ensures storyboard == old(storyboard) && analysis == old(analysis) && loading == old(loading)
    {
      var step := 0;
      while step < RenderStepCount
        invariant 0 <= step <= RenderStepCount
        invariant step < RenderStepCount ==> rendering
        invariant step == RenderStepCount ==> !rendering && isMasterpiece
        invariant screens == old(screens) + TickLog(if step < RenderStepCount then step else RenderStepCount - 1)
        invariant 0 < step ==> renderStep == if step < RenderStepCount then step else RenderStepCount - 1
        invariant storyboard == old(storyboard) && analysis == old(analysis) && loading == old(loading)
      {
        step := step + 1;
        if step >= RenderStepCount {
          rendering := false;
          isMasterpiece := true;
        } else {
          renderStep := step;
          screens := screens + [step];
        }
      }
    }

    /** `toggleTheme(id)` */
    method ToggleTheme(id: string)
      modifies this`storyboard
      ensures storyboard == Toggled(old(storyboard), id)
      ensures analysis == old(analysis) && loading == old(loading) && rendering == old(rendering)
      ensures renderStep == old(renderStep) && isMasterpiece == old(isMasterpiece)
    {
      storyboard := Toggled(storyboard, id);
    }

    /** `moveItem(index, direction)`: copy the storyboard, swap two cells, store the copy. */
    method MoveItem(index: nat, up: bool)
      requires index < |storyboard|
      modifies this`storyboard
      ensures storyboard == Moved(old(storyboard), index, up)
      ensures analysis == old(analysis) && loading == old(loading) && rendering == old(rendering)
      ensures renderStep == old(renderStep) && isMasterpiece == old(isMasterpiece)
    {
      var current := storyboard;
      var copy := new StoryboardTheme[|current|](i requires 0 <= i < |current| => current[i]);
      var j := Target(index, up);
      if j < 0 || j >= copy.Length {
        return;
      }
      copy[index], copy[j] := copy[j], copy[index];
      storyboard := copy[..];
    }

    /** "Back to Director's View" */
    method BackToDirectorView()
      modifies this`isMasterpiece
      ensures !isMasterpiece
      ensures storyboard == old(storyboard) && rendering == old(rendering) && renderStep == old(renderStep)
    {
      isMasterpiece := false;
    }
  }

  /** `[1, 2, ..., n]`: the steps shown by the first `n` ticks. */
  function TickLog(n: nat): (log: seq<nat>)
    ensures |log| == n
    ensures forall i :: 0 <= i < n ==> log[i] == i + 1
  {
    if n == 0 then [] else TickLog(n - 1) + [n]
  }

  /**
   * Rendering, going back to the director's view and rendering again, as written: the
   * second render opens on the last step's screen instead of the first.
   */
  method RenderTwice(p: Preview) returns (first: seq<nat>, second: seq<nat>)
    requires p.renderStep == 0 && !ProduceDisabled(p.storyboard)
    modifies p
    ensures first == [0, 1, 2, 3]
    ensures second == [3, 1, 2, 3]
  {
    p.HandleFinalRender();
    first := p.screens;
    p.BackToDirectorView();
    p.HandleFinalRender();
    second := p.screens;
  }

  /** The same two renders with the reset: both show the four steps in order. */
  method RenderTwiceFromStart(p: Preview) returns (first: seq<nat>, second: seq<nat>)
    requires !ProduceDisabled(p.storyboard)
    modifies p
    ensures first == second == [0, 1, 2, 3]
  {
    p.HandleFinalRenderFromStart();
    first := p.screens;
    p.BackToDirectorView();
    p.HandleFinalRenderFromStart();
    second := p.screens;
  }
}
