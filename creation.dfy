/**
 * The organizer's project wizard (`ProjectCreation`): four steps (1 details, 2 tone,
 * 3 review, 4 share) over a form, with the invitation texts requested between
 * steps 3 and 4. Each handler requires the step on which its control is rendered.
 */
module Creation {
  import opened Wrappers
  import opened Domain
  import Gemini
  import ProjectStore

  /** The `formData` fields the wizard reads and writes. */
  datatype FormData = FormData(
    recipientName: string,
    milestone: Milestone,
    deadline: string,
    title: string,
    theme: Option<VisualTheme>)

  const InitialForm := FormData("", Birthday, "", "", None)

  /** The Next/Launch button's `disabled` rule. */
  predicate NextDisabled(form: FormData, step: nat)
  {
    form.recipientName == "" || (step == 1 && form.deadline == "")
  }

  /** The `Partial<Project>` handed to `onSubmit`. */
  function ToDraft(form: FormData): ProjectStore.ProjectDraft
  {
    ProjectStore.ProjectDraft(
      title := Some(form.title),
      recipientName := Some(form.recipientName),
      milestone := Some(form.milestone),
      deadline := Some(form.deadline),
      contributors := None,
      theme := form.theme)
  }

  /**
   * The wizard never fills in a title, so the created project gets the default title for
   * its recipient, and keeps the form's recipient, milestone and deadline; with no tone
   * chosen the theme is cinematic.
   */
  lemma SubmittedProject(form: FormData, id: string)
    requires form.title == ""
    ensures var p := ProjectStore.NewProject(ToDraft(form), id);
      && p.title == "Celebration for " + form.recipientName
      && p.recipientName == form.recipientName
      && p.milestone == form.milestone && p.deadline == form.deadline
      && p.theme == form.theme.GetOr(Cinematic)
      && p.status == Collecting && p.contributors == []
  {
  }

  class Wizard {
    var step: nat
    var loading: bool
    var invites: Option<Gemini.Invite>
    var form: FormData
    /** The values `loading` was set to, in order. */
    ghost var loadingLog: seq<bool>

    /**
     * The step is within 1..4, the share step has its invitations, and past step 1 the
     * recipient and deadline are filled in (leaving step 1 needs both, and they can only
     * be edited there). The title stays empty: no control edits it.
     */
    ghost predicate Valid()
      reads this
    {
      && 1 <= step <= 4
      && (step == 4 ==> invites.Some?)
      && (step >= 2 ==> form.recipientName != "" && form.deadline != "")
      && form.title == ""
      && !loading
    }

    constructor ()
      ensures Valid() && step == 1 && !loading && invites.None? && form == InitialForm && loadingLog == []
    {
      step := 1;
      loading := false;
      invites := None;
      form := InitialForm;
      loadingLog := [];
    }

    /**
     * `handleNext`: from step 1 or 2 one step forward; from step 3, the invitation request
     * runs with `loading` on, and step 4 shows its texts.
     */
    method Next(oracle: string -> Option<Gemini.Invite>)
      requires Valid() && step < 4 && !NextDisabled(form, step)
      modifies this
      ensures Valid() && step == old(step) + 1 && form == old(form)
      ensures old(step) < 3 ==> invites == old(invites) && loadingLog == old(loadingLog)
      ensures old(step) == 3 ==>
        && invites == Some(Gemini.InviteCopy(form.recipientName, MilestoneLabel(form.milestone), oracle))
        && loadingLog == old(loadingLog) + [true, false]
    {
      if step == 3 {
        loading := true;
        loadingLog := loadingLog + [true];
        var copy := Gemini.InviteCopy(form.recipientName, MilestoneLabel(form.milestone), oracle);
        invites := Some(copy);
        loading := false;
        loadingLog := loadingLog + [false];
        step := 4;
      } else {
        step := step + 1;
      }
    }

    /** `handleBack`, shown only on steps 2 and 3. */
    method Back()
      requires Valid() && 1 < step < 4
      modifies this
      ensures Valid() && step == old(step) - 1
      ensures form == old(form) && invites == old(invites) && loadingLog == old(loadingLog)
    {
      step := step - 1;
    }

    /** The recipient field on step 1. */
    method SetRecipientName(name: string)
      requires Valid() && step == 1
      modifies this`form
      ensures Valid() && step == old(step) && invites == old(invites)
      ensures form == old(form).(recipientName := name)
    {
      form := form.(recipientName := name);
    }

    /** The occasion buttons on step 1. */
    method SetMilestone(m: Milestone)
      requires Valid() && step == 1
      modifies this`form
      ensures Valid() && step == old(step) && invites == old(invites)
      ensures form == old(form).(milestone := m)
    {
      form := form.(milestone := m);
    }

    /** The date field on step 1. */
    method SetDeadline(deadline: string)
      requires Valid() && step == 1
      modifies this`form
      ensures Valid() && step == old(step) && invites == old(invites)
      ensures form == old(form).(deadline := deadline)
    {
      form := form.(deadline := deadline);
    }

    /** The tone buttons on step 2. */
    method SetTheme(theme: VisualTheme)
      requires Valid() && step == 2
      modifies this`form
      ensures Valid() && step == old(step) && invites == old(invites)
      ensures form == old(form).(theme := Some(theme))
    {
      form := form.(theme := Some(theme));
    }

    /**
     * "Go to Dashboard" on step 4: hands the form to `onSubmit`. The project it becomes
     * names a recipient and gets that recipient's default title.
     */
    method Submit(id: string) returns (draft: ProjectStore.ProjectDraft)
      requires Valid() && step == 4
      ensures draft == ToDraft(form)
      ensures draft.recipientName.Some? && draft.recipientName.value != ""
      ensures ProjectStore.NewProject(draft, id).title == "Celebration for " + form.recipientName
    {
      draft := ToDraft(form);
      SubmittedProject(form, id);
    }
  }
}
