/**
 * The AI service: four requests, each built from a prompt string. The model call and
 * the JSON parse of its reply are an oracle from the prompt to `Option<reply>`, where
 * `None` stands for "the call or the parse threw". When the call fails, three of the
 * requests fall back to fixed text and the analysis returns null.
 */
module Gemini {
  import opened Wrappers
  import opened Strings
  import Seqs

  /** One `{ name, message }` entry of the analysis input. */
  datatype Submission = Submission(name: string, message: string)

  /** One item of the reply's `themes`; the schema declares no item field required. */
  datatype ThemeSuggestion = ThemeSuggestion(
    themeName: string,
    contributors: seq<string>,
    suggestedTransition: string,
    emotionalBeat: Option<string>,
    isClimax: Option<bool>)

  /** The parsed analysis reply. The code checks none of its fields, so each may be missing. */
  datatype Analysis = Analysis(
    tone: Option<string>,
    musicGenre: Option<string>,
    themes: Option<seq<ThemeSuggestion>>,
    closingSentiment: Option<string>)

  /** The nudge reply; its two fields are the keys the schema requires. */
  datatype Nudge = Nudge(funny: string, heartfelt: string)

  /** The invitation reply; its three fields are the keys the schema requires. */
  datatype Invite = Invite(whatsapp: string, email: string, slack: string)

  /** The keys the analysis schema declares required, in schema order. */
  const AnalysisRequired := ["tone", "musicGenre", "themes", "closingSentiment"]

  /** The names of the fields an analysis reply actually holds, in schema order. */
  function PresentKeys(a: Analysis): (keys: seq<string>)
    ensures |keys| <= 4
  {
    (if a.tone.Some? then ["tone"] else [])
    + (if a.musicGenre.Some? then ["musicGenre"] else [])
    + (if a.themes.Some? then ["themes"] else [])
    + (if a.closingSentiment.Some? then ["closingSentiment"] else [])
  }

  /** A reply holds every required key. */
  predicate Complete(a: Analysis)
  {
    forall i :: 0 <= i < |AnalysisRequired| ==> AnalysisRequired[i] in PresentKeys(a)
  }

  /** A reply holds the required keys exactly when none of its four fields is missing. */
  lemma CompleteIff(a: Analysis)
    ensures Complete(a) <==>
      a.tone.Some? && a.musicGenre.Some? && a.themes.Some? && a.closingSentiment.Some?
    ensures Complete(a) <==> PresentKeys(a) == AnalysisRequired
  {
    if Complete(a) {
      assert AnalysisRequired[0] in PresentKeys(a);
      assert AnalysisRequired[1] in PresentKeys(a);
      assert AnalysisRequired[2] in PresentKeys(a);
      assert AnalysisRequired[3] in PresentKeys(a);
    }
  }

  // ---------------------------------------------------------------------------
  // analyzeSubmissions

  /** `${s.name}: ${s.message}` */
  function SubmissionLine(s: Submission): string
  {
    s.name + ": " + s.message
  }

  /** The submission lines in input order, joined by newlines. */
  function Listing(submissions: seq<Submission>): string
  {
    Seqs.Join(Seqs.Map(SubmissionLine, submissions), "\n")
  }

  const AnalysisOpening := "Act as a master documentary film editor. Analyze these tribute video submissions for \""

  const AnalysisSteps :=
    " celebration). \n"
    + "  1. Identify the core emotional tone.\n"
    + "  2. Map out a 3-act narrative storyboard.\n"
    + "  3. Assign an \"Emotional Beat\" to each segment (e.g., \"The Inside Joke\", \"The Tearjerker\", \"The Legacy\").\n"
    + "  4. Suggest a closing quote based on the shared sentiment.\n"
    + "  \n"
    + "  Submissions:\n"
    + "  "

  /** The prompt after the milestone: the instructions, then the submission listing. */
  function AnalysisRest(submissions: seq<Submission>): string
  {
    AnalysisSteps + Listing(submissions) + "\n  "
  }

  function AnalysisPrompt(projectName: string, milestone: string, submissions: seq<Submission>): string
  {
    AnalysisOpening + projectName + "\" (a " + milestone + AnalysisRest(submissions)
  }

  /** `analyzeSubmissions`: the parsed reply as it comes, or null when the call or parse threw. */
  function AnalyzeSubmissions(projectName: string, milestone: string, submissions: seq<Submission>,
                              oracle: string -> Option<Analysis>): Option<Analysis>
  {
    oracle(AnalysisPrompt(projectName, milestone, submissions))
  }

  /** Listing a concatenation lists the first part, a newline, then the second part. */
  lemma ListingAppend(a: seq<Submission>, b: seq<Submission>)
    requires |a| > 0 && |b| > 0
    ensures Listing(a + b) == Listing(a) + "\n" + Listing(b)
  {
    Seqs.MapAppend(SubmissionLine, a, b);
    Seqs.JoinAppend(Seqs.Map(SubmissionLine, a), Seqs.Map(SubmissionLine, b), "\n");
  }

  /** The listing of one submission is its line, and of none is empty. */
  lemma ListingShort(s: Submission)
    ensures Listing([]) == "" && Listing([s]) == SubmissionLine(s)
  {
    assert Seqs.Map(SubmissionLine, [s]) == [SubmissionLine(s)];
  }

  /** The prompt names the project and the milestone, and holds every submission's line. */
  lemma AnalysisPromptMentions(projectName: string, milestone: string, submissions: seq<Submission>, i: nat)
    requires i < |submissions|
    ensures Contains(AnalysisPrompt(projectName, milestone, submissions), projectName)
    ensures Contains(AnalysisPrompt(projectName, milestone, submissions), milestone)
    ensures Contains(AnalysisPrompt(projectName, milestone, submissions), SubmissionLine(submissions[i]))
  {
    var line := SubmissionLine(submissions[i]);
    ContainsBoth(AnalysisOpening, projectName, "\" (a ", milestone, AnalysisRest(submissions));
    JoinContains(Seqs.Map(SubmissionLine, submissions), "\n", i);
    ContainsAfter(AnalysisSteps, Listing(submissions), line);
    ContainsBefore(AnalysisSteps + Listing(submissions), "\n  ", line);
    ContainsAfter(AnalysisOpening + projectName + "\" (a " + milestone, AnalysisRest(submissions), line);
  }

  // ---------------------------------------------------------------------------
  // generateContributorPrompts

  const PromptsOpening :=
    "You are an emotionally intelligent host. Suggest 4 unique, highly specific prompts to help people record a video message for "

  const PromptsClosing :=
    ". \n"
    + "  Avoid clich\U{e9}s like \"Happy Birthday.\" \n"
    + "  Focus on:\n"
    + "  - Hidden talents\n"
    + "  - Lessons learned from them\n"
    + "  - A funny \"you had to be there\" moment\n"
    + "  - A wish for their legacy."

  function ContributorPromptsPrompt(milestone: string, recipient: string): string
  {
    PromptsOpening + recipient + "'s " + milestone + PromptsClosing
  }

  const QuietWay := "What is a small, quiet way they've made your life better?"
  const TrademarkHabit := "If you had to pick one 'trademark' habit of theirs, what would it be?"
  const ShowedUp := "Tell a story about a time they showed up for you when it mattered."
  const FollowedAdvice := "What is one piece of advice they gave you that you actually followed?"

  /** The four prompts returned when the call fails. */
  function FallbackPrompts(): seq<string>
  {
    [QuietWay, TrademarkHabit, ShowedUp, FollowedAdvice]
  }

  /** `generateContributorPrompts`: the parsed reply, or the four fixed prompts. */
  function ContributorPrompts(milestone: string, recipient: string, oracle: string -> Option<seq<string>>): seq<string>
  {
    match oracle(ContributorPromptsPrompt(milestone, recipient))
    case Some(prompts) => prompts
    case None => FallbackPrompts()
  }

  /** A failed call yields the four fixed prompts, the same ones whatever the arguments. */
  lemma ContributorPromptsFallback(milestone: string, recipient: string, oracle: string -> Option<seq<string>>,
                                   milestone': string, recipient': string, oracle': string -> Option<seq<string>>)
    requires oracle(ContributorPromptsPrompt(milestone, recipient)).None?
    requires oracle'(ContributorPromptsPrompt(milestone', recipient')).None?
    ensures ContributorPrompts(milestone, recipient, oracle) == ContributorPrompts(milestone', recipient', oracle')
    ensures ContributorPrompts(milestone, recipient, oracle) == [QuietWay, TrademarkHabit, ShowedUp, FollowedAdvice]
  {
  }

  /** A successful call's reply is passed through unchanged. */
  lemma ContributorPromptsReply(milestone: string, recipient: string, oracle: string -> Option<seq<string>>)
    requires oracle(ContributorPromptsPrompt(milestone, recipient)).Some?
    ensures ContributorPrompts(milestone, recipient, oracle) == oracle(ContributorPromptsPrompt(milestone, recipient)).value
  {
  }

  // ---------------------------------------------------------------------------
  // generateNudgeMessage

  const NudgeOpening :=
    "Write a short, warm, but effective nudge message for someone who hasn't submitted their video for "

  const NudgeClosing :=
    ".\n"
    + "  Make it feel like a gentle reminder from a friend, not a corporate alert.\n"
    + "  Provide two options: one that's funny/light and one that's more heartfelt."

  /** The prompt after the milestone: the deadline and the tone. */
  function NudgeRest(deadline: string, tone: string): string
  {
    " yet.\n  The deadline is " + deadline + ". \n  The project tone is " + tone + NudgeClosing
  }

  function NudgePrompt(recipientName: string, milestone: string, deadline: string, tone: string): string
  {
    NudgeOpening + recipientName + "'s " + milestone + NudgeRest(deadline, tone)
  }

  /** The placeholder texts, which plain quotes leave uninterpolated. */
  const NamePlaceholder := "${recipientName}"
  const DeadlinePlaceholder := "${deadline}"

  const FunnyOpening := "Just a quick nudge! "
  const FunnyMiddle := " is going to love this video, and it wouldn't be complete without you. You've got until "
  const HeartfeltOpening := "Hi! We're almost done weaving together "
  const HeartfeltMiddle :=
    "'s tribute. It would mean so much to have your voice in there. Any chance you could record a quick clip by "

  /** The messages returned when the call fails. */
  function FallbackNudge(): Nudge
  {
    Nudge(
      funny := FunnyOpening + NamePlaceholder + FunnyMiddle + DeadlinePlaceholder + "!",
      heartfelt := HeartfeltOpening + NamePlaceholder + HeartfeltMiddle + DeadlinePlaceholder + "?")
  }

  /** `generateNudgeMessage`: the parsed reply, or the fixed messages. */
  function NudgeMessage(recipientName: string, milestone: string, deadline: string, tone: string,
                        oracle: string -> Option<Nudge>): Nudge
  {
    oracle(NudgePrompt(recipientName, milestone, deadline, tone)).GetOr(FallbackNudge())
  }

  /**
   * A failed call yields the same messages whatever the arguments, and both messages
   * hold the placeholder texts rather than the recipient and the deadline.
   */
  lemma NudgeFallbackConstant(recipientName: string, milestone: string, deadline: string, tone: string,
                              oracle: string -> Option<Nudge>,
                              recipientName': string, milestone': string, deadline': string, tone': string,
                              oracle': string -> Option<Nudge>)
    requires oracle(NudgePrompt(recipientName, milestone, deadline, tone)).None?
    requires oracle'(NudgePrompt(recipientName', milestone', deadline', tone')).None?
    ensures NudgeMessage(recipientName, milestone, deadline, tone, oracle)
         == NudgeMessage(recipientName', milestone', deadline', tone', oracle')
    ensures Contains(NudgeMessage(recipientName, milestone, deadline, tone, oracle).funny, NamePlaceholder)
    ensures Contains(NudgeMessage(recipientName, milestone, deadline, tone, oracle).funny, DeadlinePlaceholder)
    ensures Contains(NudgeMessage(recipientName, milestone, deadline, tone, oracle).heartfelt, NamePlaceholder)
    ensures Contains(NudgeMessage(recipientName, milestone, deadline, tone, oracle).heartfelt, DeadlinePlaceholder)
  {
    ContainsBoth(FunnyOpening, NamePlaceholder, FunnyMiddle, DeadlinePlaceholder, "!");
    ContainsBoth(HeartfeltOpening, NamePlaceholder, HeartfeltMiddle, DeadlinePlaceholder, "?");
  }

  /**
   * As written, a failed nudge for one recipient reads exactly like a failed nudge for
   * another: the fallback cannot name either of them.
   */
  lemma NudgeFallbackIgnoresRecipient(oracle: string -> Option<Nudge>)
    requires forall p :: oracle(p).None?
    ensures NudgeMessage("Nana", "Birthday", "2025-06-01", "warm", oracle)
         == NudgeMessage("Grandpa Joe", "Retirement", "2025-09-30", "funny", oracle)
  {
    NudgeFallbackConstant("Nana", "Birthday", "2025-06-01", "warm", oracle,
                          "Grandpa Joe", "Retirement", "2025-09-30", "funny", oracle);
  }

  /** The fallback as evidently intended: the same texts with the recipient and deadline filled in. */
  function IntendedFallbackNudge(recipientName: string, deadline: string): Nudge
  {
    Nudge(
      funny := FunnyOpening + recipientName + FunnyMiddle + deadline + "!",
      heartfelt := HeartfeltOpening + recipientName + HeartfeltMiddle + deadline + "?")
  }

  /** `generateNudgeMessage` with the intended fallback. */
  function NudgeMessageIntended(recipientName: string, milestone: string, deadline: string, tone: string,
                                oracle: string -> Option<Nudge>): Nudge
  {
    oracle(NudgePrompt(recipientName, milestone, deadline, tone)).GetOr(IntendedFallbackNudge(recipientName, deadline))
  }

  /**
   * With the intended fallback a failed call still names the recipient and the deadline
   * in both messages, so recipients whose names differ in length get different messages.
   */
  lemma NudgeIntendedMentions(recipientName: string, milestone: string, deadline: string, tone: string,
                              oracle: string -> Option<Nudge>, other: string)
    requires oracle(NudgePrompt(recipientName, milestone, deadline, tone)).None?
    requires oracle(NudgePrompt(other, milestone, deadline, tone)).None?
    ensures var n := NudgeMessageIntended(recipientName, milestone, deadline, tone, oracle);
      && Contains(n.funny, recipientName) && Contains(n.funny, deadline)
      && Contains(n.heartfelt, recipientName) && Contains(n.heartfelt, deadline)
    ensures |other| != |recipientName| ==>
      NudgeMessageIntended(recipientName, milestone, deadline, tone, oracle)
        != NudgeMessageIntended(other, milestone, deadline, tone, oracle)
  {
    ContainsBoth(FunnyOpening, recipientName, FunnyMiddle, deadline, "!");
    ContainsBoth(HeartfeltOpening, recipientName, HeartfeltMiddle, deadline, "?");
  }

  // ---------------------------------------------------------------------------
  // generateInviteCopy

  const InviteOpening := "Write a short, warm, and clear invitation message for a group tribute video. \n  Recipient: "

  const InviteClosing :=
    "\n"
    + "  Style: Helpful, low-pressure, and exciting. \n"
    + "  Provide three versions: one for WhatsApp (short), one for Email (detailed), and one for Slack/Teams (professional)."

  function InvitePrompt(recipientName: string, milestone: string): string
  {
    InviteOpening + recipientName + "\n  Occasion: " + milestone + InviteClosing
  }

  const EmailSubject := "Subject: Help us surprise "
  const WhatsappOpening := "Hey! I'm putting together a surprise video for "
  const WhatsappClosing := ". Would love for you to add a quick 30-sec clip!"
  const EmailBody := "\n\nHi everyone,\n\nI'm creating a group tribute video for "
  const EmailClosing := ". It would mean the world if you could record a short message."
  const SlackOpening := "Hi Team! Let's celebrate "
  const SlackClosing := " with a surprise group video. Please record a message by clicking the link!"

  /** The messages returned when the call fails, built from the recipient and the milestone. */
  function FallbackInvite(recipientName: string, milestone: string): Invite
  {
    Invite(
      whatsapp := WhatsappOpening + recipientName + "'s " + milestone + WhatsappClosing,
      email := EmailSubject + recipientName + "!" + EmailBody + recipientName + "'s " + milestone + EmailClosing,
      slack := SlackOpening + recipientName + "'s " + milestone + SlackClosing)
  }

  /** `generateInviteCopy`: the parsed reply, or the messages built from the arguments. */
  function InviteCopy(recipientName: string, milestone: string, oracle: string -> Option<Invite>): Invite
  {
    oracle(InvitePrompt(recipientName, milestone)).GetOr(FallbackInvite(recipientName, milestone))
  }

  /**
   * A failed call yields messages that all name the recipient and the milestone, and an
   * email that starts with the subject line for the recipient.
   */
  lemma InviteFallbackMentions(recipientName: string, milestone: string, oracle: string -> Option<Invite>)
    requires oracle(InvitePrompt(recipientName, milestone)).None?
    ensures var m := InviteCopy(recipientName, milestone, oracle);
      && Contains(m.whatsapp, recipientName) && Contains(m.whatsapp, milestone)
      && Contains(m.email, recipientName) && Contains(m.email, milestone)
      && Contains(m.slack, recipientName) && Contains(m.slack, milestone)
      && StartsWith(m.email, EmailSubject + recipientName + "!")
  {
    var subject := EmailSubject + recipientName + "!";
    ContainsBoth(WhatsappOpening, recipientName, "'s ", milestone, WhatsappClosing);
    ContainsBoth(subject + EmailBody, recipientName, "'s ", milestone, EmailClosing);
    ContainsBoth(SlackOpening, recipientName, "'s ", milestone, SlackClosing);
    assert StartsWith(subject, subject);
    StartsWithAppend(subject, subject, EmailBody);
    StartsWithAppend(subject + EmailBody, subject, recipientName);
    StartsWithAppend(subject + EmailBody + recipientName, subject, "'s ");
    StartsWithAppend(subject + EmailBody + recipientName + "'s ", subject, milestone);
    StartsWithAppend(subject + EmailBody + recipientName + "'s " + milestone, subject, EmailClosing);
  }

  /** Every request's prompt names the recipient or project and the milestone it is about. */
  lemma PromptsMention(recipient: string, milestone: string, deadline: string, tone: string)
    ensures Contains(ContributorPromptsPrompt(milestone, recipient), recipient)
    ensures Contains(ContributorPromptsPrompt(milestone, recipient), milestone)
    ensures Contains(NudgePrompt(recipient, milestone, deadline, tone), recipient)
    ensures Contains(NudgePrompt(recipient, milestone, deadline, tone), milestone)
    ensures Contains(NudgePrompt(recipient, milestone, deadline, tone), deadline)
    ensures Contains(NudgePrompt(recipient, milestone, deadline, tone), tone)
    ensures Contains(InvitePrompt(recipient, milestone), recipient)
    ensures Contains(InvitePrompt(recipient, milestone), milestone)
  {
    ContainsBoth(PromptsOpening, recipient, "'s ", milestone, PromptsClosing);
    ContainsBoth(NudgeOpening, recipient, "'s ", milestone, NudgeRest(deadline, tone));
    ContainsBoth(" yet.\n  The deadline is ", deadline, ". \n  The project tone is ", tone, NudgeClosing);
    ContainsAfter(NudgeOpening + recipient + "'s " + milestone, NudgeRest(deadline, tone), deadline);
    ContainsAfter(NudgeOpening + recipient + "'s " + milestone, NudgeRest(deadline, tone), tone);
    ContainsBoth(InviteOpening, recipient, "\n  Occasion: ", milestone, InviteClosing);
  }
}
