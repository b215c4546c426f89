/**
 * The records of the tribute-video application: projects, their contributors and
 * memories, community assets and storyboard segments. Optional (`?:`) fields are
 * `Option`s; string-literal unions and enums are datatypes.
 */
module Domain {
  import opened Wrappers

  datatype Milestone = Birthday | Retirement | Anniversary | Memorial | Wedding | Graduation | TeamSendoff

  /** The enum's string value, which is what the prompts interpolate. */
  function MilestoneLabel(m: Milestone): string
  {
    match m
    case Birthday => "Birthday"
    case Retirement => "Retirement"
    case Anniversary => "Anniversary"
    case Memorial => "Memorial"
    case Wedding => "Wedding"
    case Graduation => "Graduation"
    case TeamSendoff => "Team Sendoff"
  }

  datatype ProjectStatus = Collecting | Processing | Reviewing | Ready

  datatype MediaType = Video | Photo | Audio

  datatype VisualTheme = Cinematic | Playful | Minimal | Documentary

  datatype ContributorStatus = Invited | Submitted

  datatype MemoryBeat = ThePunchline | TheTearjerker | TheLegacyLesson | TheInsideJoke | TheFinalWish

  /** One segment of a storyboard. `isClimax` is optional in the source and copied as given. */
  datatype StoryboardTheme = StoryboardTheme(
    id: string,
    themeName: string,
    contributors: seq<string>,
    suggestedTransition: string,
    isPinned: bool,
    order: nat,
    emotionalBeat: string,
    isClimax: Option<bool>,
    videoUrl: Option<string>,
    assetId: Option<string>,
    assetType: Option<MediaType>,
    contributorName: Option<string>)

  datatype SavedSequence = SavedSequence(
    id: string,
    timestamp: string,
    storyboard: seq<StoryboardTheme>,
    snapshotName: string)

  datatype Memory = Memory(
    id: string,
    contributorId: string,
    contributorName: string,
    kind: MediaType,
    url: string,
    thumbnailUrl: Option<string>,
    transcript: Option<string>,
    emotionalBeat: Option<MemoryBeat>,
    duration: Option<int>,
    createdAt: string)

  datatype AssetComment = AssetComment(id: string, author: string, text: string, createdAt: string)

  datatype CommunityAsset = CommunityAsset(
    id: string,
    contributorName: string,
    kind: MediaType,
    url: string,
    title: string,
    description: string,
    editorNotes: Option<string>,
    createdAt: string,
    comments: Option<seq<AssetComment>>)

  datatype Contributor = Contributor(
    id: string,
    name: string,
    relationship: Option<string>,
    email: Option<string>,
    status: ContributorStatus,
    memories: seq<Memory>,
    lastRemindedAt: Option<string>)

  /**
   * A project. `communityAssets` is declared required by the type, but a project made
   * by `createProject` has none, so it is optional here.
   */
  datatype Project = Project(
    id: string,
    title: string,
    recipientName: string,
    milestone: Milestone,
    deadline: string,
    organizerEmail: string,
    status: ProjectStatus,
    contributors: seq<Contributor>,
    communityAssets: Option<seq<CommunityAsset>>,
    isDraft: bool,
    theme: VisualTheme,
    musicId: Option<string>,
    musicUrl: Option<string>,
    storyboard: Option<seq<StoryboardTheme>>,
    storyboardHistory: Option<seq<SavedSequence>>,
    aiTone: Option<string>)
}
