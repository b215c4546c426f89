/**
 * The organizer's in-memory project list (`useProject`): every operation replaces
 * the list with an edited copy, so the list is a `seq` field reassigned by methods.
 * Generated identifiers and clock readings are parameters.
 */
module ProjectStore {
  import opened Wrappers
  import opened Domain
  import Seqs

  /** The `Partial<Project>` fields that `createProject` reads. */
  datatype ProjectDraft = ProjectDraft(
    title: Option<string>,
    recipientName: Option<string>,
    milestone: Option<Milestone>,
    deadline: Option<string>,
    contributors: Option<seq<Contributor>>,
    theme: Option<VisualTheme>)

  const OrganizerEmail := "user@example.com"

  /** `x || d` for an optional string: a missing or empty string is falsy. */
  function OrString(x: Option<string>, d: string): string
  {
    if x.Some? && x.value != "" then x.value else d
  }

  /** `${x}` for an optional string: JavaScript renders a missing value as "undefined". */
  function Interpolate(x: Option<string>): string
  {
    x.GetOr("undefined")
  }

  /** The project literal built by `createProject`. */
  function NewProject(data: ProjectDraft, id: string): Project
  {
    Project(
      id := id,
      title := OrString(data.title, "Celebration for " + Interpolate(data.recipientName)),
      recipientName := OrString(data.recipientName, ""),
      milestone := data.milestone.GetOr(Birthday),
      deadline := OrString(data.deadline, ""),
      organizerEmail := OrganizerEmail,
      status := Collecting,
      contributors := data.contributors.GetOr([]),
      communityAssets := None,
      isDraft := true,
      theme := data.theme.GetOr(Cinematic),
      musicId := None,
      musicUrl := None,
      storyboard := None,
      storyboardHistory := None,
      aiTone := None)
  }

  function NewContributor(id: string, name: string, relationship: Option<string>, email: Option<string>): Contributor
  {
    Contributor(id, name, relationship, email, Invited, [], None)
  }

  /** The list after `updateProjectStatus(id, status)`. */
  function WithStatus(ps: seq<Project>, id: string, status: ProjectStatus): seq<Project>
  {
    Seqs.Map((p: Project) => if p.id == id then p.(status := status) else p, ps)
  }

  /** The contributor list after stamping `lastRemindedAt` on the contributor `contributorId`. */
  function Remind(cs: seq<Contributor>, contributorId: string, now: string): seq<Contributor>
  {
    Seqs.Map((c: Contributor) => if c.id == contributorId then c.(lastRemindedAt := Some(now)) else c, cs)
  }

  /** The list after `nudgeContributor(projectId, contributorId)` at time `now`. */
  function Nudged(ps: seq<Project>, projectId: string, contributorId: string, now: string): seq<Project>
  {
    Seqs.Map((p: Project) =>
      if p.id != projectId then p else p.(contributors := Remind(p.contributors, contributorId, now)), ps)
  }

  /** The list after `addContributor` appended `c` to the project `projectId`. */
  function WithContributor(ps: seq<Project>, projectId: string, c: Contributor): seq<Project>
  {
    Seqs.Map((p: Project) =>
      if p.id != projectId then p else p.(contributors := p.contributors + [c]), ps)
  }

  /** The statuses of a project's contributors, in order. */
  function Statuses(p: Project): seq<ContributorStatus>
  {
    Seqs.Map((c: Contributor) => c.status, p.contributors)
  }

  class Store {
    var projects: seq<Project>

    constructor (initialProjects: seq<Project>)
      ensures projects == initialProjects
    {
      projects := initialProjects;
    }

    /** `createProject`: the new project goes in front of the existing ones. */
    method CreateProject(data: ProjectDraft, id: string) returns (p: Project)
      modifies this
      ensures p == NewProject(data, id)
      ensures projects == [p] + old(projects)
    {
      p := NewProject(data, id);
      projects := [p] + projects;
    }

    method UpdateProjectStatus(id: string, status: ProjectStatus)
      modifies this
      ensures projects == WithStatus(old(projects), id, status)
    {
      projects := WithStatus(projects, id, status);
    }

    method NudgeContributor(projectId: string, contributorId: string, now: string)
      modifies this
      ensures projects == Nudged(old(projects), projectId, contributorId, now)
    {
      projects := Nudged(projects, projectId, contributorId, now);
    }

    /** `addContributor`: the new contributor is returned even when no project matches. */
    method AddContributor(projectId: string, name: string, relationship: Option<string>,
                          email: Option<string>, id: string) returns (c: Contributor)
      modifies this
      ensures c == NewContributor(id, name, relationship, email)
      ensures projects == WithContributor(old(projects), projectId, c)
    {
      c := NewContributor(id, name, relationship, email);
      projects := WithContributor(projects, projectId, c);
    }
  }

  /** The defaults of a new project, including the title built from the recipient's name. */
  lemma NewProjectDefaults(data: ProjectDraft, id: string)
    ensures var p := NewProject(data, id);
      && p.id == id && p.status == Collecting && p.isDraft
      && p.organizerEmail == OrganizerEmail
      && p.communityAssets == None && p.storyboard == None && p.storyboardHistory == None
      && (data.milestone == None ==> p.milestone == Birthday)
      && (data.theme == None ==> p.theme == Cinematic)
      && (data.deadline == None ==> p.deadline == "")
      && (data.contributors == None ==> p.contributors == [])
      && (data.recipientName == None ==> p.recipientName == "")
      && (data.title == None || data.title == Some("") ==>
            p.title == "Celebration for " + Interpolate(data.recipientName))
      && (data.title.Some? && data.title.value != "" ==> p.title == data.title.value)
  {
  }

  /** `updateProjectStatus` rewrites the status of the projects with that id and nothing else. */
  lemma WithStatusOnlyStatus(ps: seq<Project>, id: string, status: ProjectStatus)
    ensures var r := WithStatus(ps, id, status);
      && |r| == |ps|
      && (forall i :: 0 <= i < |ps| && ps[i].id == id ==> r[i] == ps[i].(status := status))
      && (forall i :: 0 <= i < |ps| && ps[i].id != id ==> r[i] == ps[i])
  {
  }

  /** A status update leaves every contributor's status as it was. */
  lemma WithStatusKeepsContributors(ps: seq<Project>, id: string, status: ProjectStatus)
    ensures var r := WithStatus(ps, id, status);
      forall i :: 0 <= i < |ps| ==> r[i].contributors == ps[i].contributors
  {
  }

  /**
   * `nudgeContributor` stamps `lastRemindedAt` on the matching contributor of the matching
   * project only: the project list, the contributor lists and every status keep their shape.
   */
  lemma {:induction false} NudgedEffect(ps: seq<Project>, projectId: string, contributorId: string, now: string)
    ensures var r := Nudged(ps, projectId, contributorId, now);
      && |r| == |ps|
      && (forall i :: 0 <= i < |ps| && ps[i].id != projectId ==> r[i] == ps[i])
      && (forall i :: 0 <= i < |ps| ==>
            r[i].(contributors := ps[i].contributors) == ps[i]
            && |r[i].contributors| == |ps[i].contributors|
            && Statuses(r[i]) == Statuses(ps[i]))
      && (forall i, j :: 0 <= i < |ps| && 0 <= j < |ps[i].contributors| ==>
            r[i].contributors[j] ==
              if ps[i].id == projectId && ps[i].contributors[j].id == contributorId
              then ps[i].contributors[j].(lastRemindedAt := Some(now))
              else ps[i].contributors[j])
  {
    var r := Nudged(ps, projectId, contributorId, now);
    forall i | 0 <= i < |ps|
      ensures Statuses(r[i]) == Statuses(ps[i])
    {
      var a, b := Statuses(r[i]), Statuses(ps[i]);
      assert |a| == |b|;
      assert forall j :: 0 <= j < |a| ==> a[j] == b[j];
    }
  }

  /**
   * `addContributor` appends `c` to the end of the matching project's contributors;
   * every other project, and every other field, is untouched.
   */
  lemma WithContributorEffect(ps: seq<Project>, projectId: string, c: Contributor)
    ensures var r := WithContributor(ps, projectId, c);
      && |r| == |ps|
      && (forall i :: 0 <= i < |ps| && ps[i].id != projectId ==> r[i] == ps[i])
      && (forall i :: 0 <= i < |ps| && ps[i].id == projectId ==>
            r[i] == ps[i].(contributors := ps[i].contributors + [c]))
  {
  }

  /** With an unknown project id, `addContributor` leaves the list as it was. */
  lemma WithContributorUnknown(ps: seq<Project>, projectId: string, c: Contributor)
    requires forall i :: 0 <= i < |ps| ==> ps[i].id != projectId
    ensures WithContributor(ps, projectId, c) == ps
  {
    var r := WithContributor(ps, projectId, c);
    assert forall i :: 0 <= i < |ps| ==> r[i] == ps[i];
  }

  /**
   * Adding a contributor never changes an existing contributor's status, and the one it
   * adds is invited.
   */
  lemma {:induction false} WithContributorStatuses(ps: seq<Project>, projectId: string, name: string,
                                 relationship: Option<string>, email: Option<string>, id: string)
    ensures var r := WithContributor(ps, projectId, NewContributor(id, name, relationship, email));
      forall i :: 0 <= i < |ps| ==>
        Statuses(r[i]) == Statuses(ps[i]) + (if ps[i].id == projectId then [Invited] else [])
  {
    var c := NewContributor(id, name, relationship, email);
    var r := WithContributor(ps, projectId, c);
    forall i | 0 <= i < |ps|
      ensures Statuses(r[i]) == Statuses(ps[i]) + (if ps[i].id == projectId then [Invited] else [])
    {
      if ps[i].id == projectId {
        Seqs.MapAppend((c: Contributor) => c.status, ps[i].contributors, [c]);
      }
    }
  }
}
