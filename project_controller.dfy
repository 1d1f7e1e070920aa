/**
 * XTMF ProjectController: the editing sessions open on projects, kept as two
 * parallel lists (sessions and their reference counts), and the name-based
 * load, create and delete operations over the project repository.
 */
module ProjectController {
  import opened Common

  class Project {
    const name: string

    constructor (name: string)
      ensures this.name == name
    {
      this.name := name;
    }
  }

  class EditingSession {
    const project: Project

    constructor (project: Project)
      ensures this.project == project
    {
      this.project := project;
    }
  }

  /**
   * The part of the project repository the controller uses: its list of
   * projects and its name rule.
   */
  class ProjectRepository {
    var projects: seq<Project>
    /** ProjectRepository.ValidateProjectName. */
    const acceptsName: string -> bool

    constructor (acceptsName: string -> bool)
      ensures projects == [] && this.acceptsName == acceptsName
    {
      projects := [];
      this.acceptsName := acceptsName;
    }

    /** AddProject: the new project joins the list. */
    method AddProject(p: Project)
      modifies this
      ensures projects == old(projects) + [p]
    {
      projects := projects + [p];
    }

    /** Remove: drop the first occurrence of the project, reporting whether there was one. */
    method Remove(p: Project) returns (removed: bool)
      modifies this
      ensures removed <==> p in old(projects)
      ensures removed ==> projects == old(projects)[..Position(old(projects), p)] + old(projects)[Position(old(projects), p) + 1..]
      ensures !removed ==> projects == old(projects)
    {
      var i := IndexOf(projects, (q: Project) => q == p);
      if i < 0 {
        assert forall k :: 0 <= k < |projects| ==> projects[k] != p;
        return false;
      }
      PositionOfFirst(projects, p, i);
      projects := projects[..i] + projects[i + 1..];
      return true;
    }
  }

  /** The position of the first occurrence of `x`. */
  function Position<T(==)>(s: seq<T>, x: T): (i: nat)
    requires x in s
    ensures i < |s| && s[i] == x && x !in s[..i]
  {
    if s[0] == x then 0
    else
      var i := 1 + Position(s[1..], x);
      assert s[..i] == [s[0]] + s[1..][..i - 1];
      i
  }

  /** Any occurrence with no earlier one is the first occurrence. */
  lemma PositionOfFirst<T>(s: seq<T>, x: T, i: nat)
    requires i < |s| && s[i] == x && forall k :: 0 <= k < i ==> s[k] != x
    ensures Position(s, x) == i
  {
  }

  /** The first index whose element satisfies the condition, or -1. */
  method IndexOf<T>(data: seq<T>, condition: T -> bool) returns (r: int)
    ensures -1 <= r < |data|
    ensures r >= 0 ==> condition(data[r]) && forall k :: 0 <= k < r ==> !condition(data[k])
    ensures r == -1 ==> forall k :: 0 <= k < |data| ==> !condition(data[k])
  {
    var i := 0;
    while i < |data|
      invariant 0 <= i <= |data|
      invariant forall k :: 0 <= k < i ==> !condition(data[k])
    {
      if condition(data[i]) {
        return i;
      }
      i := i + 1;
    }
    return -1;
  }

  /** The first project whose name equals `name` ignoring case. */
  function FindByName(projects: seq<Project>, name: string): (r: Option<nat>)
    ensures r.Some? ==> r.value < |projects| && EqualsIgnoreCase(projects[r.value].name, name)
    ensures r.Some? ==> forall k :: 0 <= k < r.value ==> !EqualsIgnoreCase(projects[k].name, name)
    ensures r.None? ==> forall k :: 0 <= k < |projects| ==> !EqualsIgnoreCase(projects[k].name, name)
  {
    if projects == [] then None
    else if EqualsIgnoreCase(projects[0].name, name) then Some(0)
    else match FindByName(projects[1..], name)
      case None => None
      case Some(k) => Some(k + 1)
  }

  datatype ControllerError = ArgumentNull(parameter: string) | Failure(message: string)

  const SessionMissing := Failure("The session does not exist!")
  const NameInvalid := Failure("The name is invalid.")
  const NoSuchProject := Failure("No project with that name was loaded")
  const NotFoundForDelete := Failure("A project with that name was not found.")
  const BeingEdited := Failure("You can not delete a project while it is being edited.")

  class ProjectController {
    /** EditingSessions. */
    var sessions: seq<EditingSession>
    /** ReferenceCount, paired with `sessions` by index. */
    var referenceCount: seq<int>
    const repository: ProjectRepository

    /**
     * The two lists stay paired, every open session has a positive count, and
     * no project has two sessions.
     */
    ghost predicate Valid()
      reads this
    {
      |sessions| == |referenceCount|
      && (forall i :: 0 <= i < |referenceCount| ==> referenceCount[i] >= 1)
      && (forall i, j :: 0 <= i < j < |sessions| ==> sessions[i].project != sessions[j].project)
    }

    constructor (repository: ProjectRepository)
      ensures Valid() && sessions == [] && referenceCount == [] && this.repository == repository
    {
      sessions := [];
      referenceCount := [];
      this.repository := repository;
    }

    /** The index of the session open on `project`, if there is one. */
    function SessionOf(project: Project): (r: Option<nat>)
      reads this
      ensures r.Some? ==> r.value < |sessions| && sessions[r.value].project == project
      ensures r.None? ==> forall k :: 0 <= k < |sessions| ==> sessions[k].project != project
    {
      SessionIndex(sessions, project)
    }

    /**
     * EditProject: a second edit of the same project shares its session and
     * bumps its count; the first edit opens a session with count 1.
     */
    method EditProject(project: Project?) returns (r: Result<EditingSession, ControllerError>)
      requires Valid()
      modifies this
      ensures Valid()
      ensures project == null ==> r == Err(ArgumentNull("project")) && sessions == old(sessions) && referenceCount == old(referenceCount)
      ensures project != null && old(SessionOf(project)).Some? ==>
        var i := old(SessionOf(project)).value;
        r == Ok(old(sessions)[i]) && sessions == old(sessions) && referenceCount == old(referenceCount)[i := old(referenceCount)[i] + 1]
      ensures project != null && old(SessionOf(project)).None? ==>
        r.Ok? && fresh(r.value) && r.value.project == project
        && sessions == old(sessions) + [r.value] && referenceCount == old(referenceCount) + [1]
    {
      if project == null {
        return Err(ArgumentNull("project"));
      }
      var index := IndexOf(sessions, (session: EditingSession) => session.project == project);
      if index >= 0 {
        SessionIndexFirst(sessions, project, index);
        referenceCount := referenceCount[index := referenceCount[index] + 1];
        return Ok(sessions[index]);
      }
      var newSession := new EditingSession(project);
      sessions := sessions + [newSession];
      referenceCount := referenceCount + [1];
      return Ok(newSession);
    }

    /**
     * RemoveEditingReference: drop one reference to the session, closing it
     * (both paired entries) when its count falls to zero.
     */
    method RemoveEditingReference(session: EditingSession?) returns (r: Result<(), ControllerError>)
      requires Valid()
      modifies this
      ensures Valid()
      ensures session == null ==> r == Err(ArgumentNull("session"))
      ensures session != null && session !in old(sessions) ==> r == Err(SessionMissing)
      ensures r.Err? ==> sessions == old(sessions) && referenceCount == old(referenceCount)
      ensures session != null && session in old(sessions) ==> r == Ok(())
      ensures session != null && session in old(sessions) ==>
        exists i :: 0 <= i < |old(sessions)| && old(sessions)[i] == session &&
          (if old(referenceCount)[i] - 1 <= 0 then
             sessions == old(sessions)[..i] + old(sessions)[i + 1..] && referenceCount == old(referenceCount)[..i] + old(referenceCount)[i + 1..]
           else
             sessions == old(sessions) && referenceCount == old(referenceCount)[i := old(referenceCount)[i] - 1])
    {
      if session == null {
        return Err(ArgumentNull("session"));
      }
      var index := IndexOf(sessions, (s: EditingSession) => s == session);
      if index < 0 {
        assert forall k :: 0 <= k < |sessions| ==> sessions[k] != session;
        return Err(SessionMissing);
      }
      referenceCount := referenceCount[index := referenceCount[index] - 1];
      if referenceCount[index] <= 0 {
        ghost var before := sessions;
        sessions := sessions[..index] + sessions[index + 1..];
        referenceCount := referenceCount[..index] + referenceCount[index + 1..];
        forall i, j | 0 <= i < j < |sessions| ensures sessions[i].project != sessions[j].project {
          var i' := if i < index then i else i + 1;
          var j' := if j < index then j else j + 1;
          assert sessions[i] == before[i'] && sessions[j] == before[j'];
        }
      }
      return Ok(());
    }

    /** ValidateProjectName: a name must not be blank and must satisfy the repository's rule. */
    predicate ValidateProjectName(name: string)
      ensures ValidateProjectName(name) ==> exists i :: 0 <= i < |name| && !IsWhiteSpace(name[i])
      ensures name == [] ==> !ValidateProjectName(name)
    {
      !IsBlank(name) && repository.acceptsName(name)
    }

    /** Load: the first project whose name matches ignoring case, or the "not loaded" error. */
    method Load(name: string) returns (r: Result<Project, ControllerError>)
      ensures FindByName(repository.projects, name).Some? ==> r == Ok(repository.projects[FindByName(repository.projects, name).value])
      ensures FindByName(repository.projects, name).None? ==> r == Err(NoSuchProject)
    {
      var found := FindByName(repository.projects, name);
      if found.None? {
        return Err(NoSuchProject);
      }
      return Ok(repository.projects[found.value]);
    }

    /**
     * LoadOrCreate: an existing project by name, otherwise a new project of
     * that name added to the repository when the name is valid.
     */
    method LoadOrCreate(name: string) returns (r: Result<Project, ControllerError>)
      modifies repository
      ensures FindByName(old(repository.projects), name).Some? ==>
        r == Ok(old(repository.projects)[FindByName(old(repository.projects), name).value]) && repository.projects == old(repository.projects)
      ensures FindByName(old(repository.projects), name).None? && !ValidateProjectName(name) ==>
        r == Err(NameInvalid) && repository.projects == old(repository.projects)
      ensures FindByName(old(repository.projects), name).None? && ValidateProjectName(name) ==>
        r.Ok? && fresh(r.value) && r.value.name == name && repository.projects == old(repository.projects) + [r.value]
    {
      var loaded := Load(name);
      if loaded.Ok? {
        return loaded;
      }
      if !ValidateProjectName(name) {
        return Err(NameInvalid);
      }
      var newProject := new Project(name);
      repository.AddProject(newProject);
      return Ok(newProject);
    }

    /** DeleteProject(Project): refused while a session is open on the project. */
    method DeleteProject(project: Project) returns (r: Result<bool, ControllerError>)
      modifies repository
      ensures SessionOf(project).Some? ==> r == Err(BeingEdited) && repository.projects == old(repository.projects)
      ensures SessionOf(project).None? ==> r.Ok? && (r.value <==> project in old(repository.projects))
      ensures SessionOf(project).None? && project !in old(repository.projects) ==> repository.projects == old(repository.projects)
      ensures SessionOf(project).None? && project in old(repository.projects) ==>
        var i := Position(old(repository.projects), project);
        repository.projects == old(repository.projects)[..i] + old(repository.projects)[i + 1..]
    {
      var index := IndexOf(sessions, (session: EditingSession) => session.project == project);
      if index >= 0 {
        return Err(BeingEdited);
      }
      var removed := repository.Remove(project);
      return Ok(removed);
    }

    /** DeleteProject(string): look the project up by name, then delete it. */
    method DeleteProjectNamed(name: string) returns (r: Result<bool, ControllerError>)
      modifies repository
      ensures FindByName(old(repository.projects), name).None? ==> r == Err(NotFoundForDelete) && repository.projects == old(repository.projects)
      ensures FindByName(old(repository.projects), name).Some? && SessionOf(old(repository.projects)[FindByName(old(repository.projects), name).value]).Some? ==>
        r == Err(BeingEdited) && repository.projects == old(repository.projects)
      ensures FindByName(old(repository.projects), name).Some? && SessionOf(old(repository.projects)[FindByName(old(repository.projects), name).value]).None? ==>
        var k := FindByName(old(repository.projects), name).value;
        r == Ok(true) && repository.projects == old(repository.projects)[..k] + old(repository.projects)[k + 1..]
    {
      var loaded := Load(name);
      if loaded.Err? {
        return Err(NotFoundForDelete);
      }
      ghost var k := FindByName(repository.projects, name).value;
      forall j | 0 <= j < k ensures repository.projects[j] != repository.projects[k] {
        assert !EqualsIgnoreCase(repository.projects[j].name, name);
      }
      PositionOfFirst(repository.projects, repository.projects[k], k);
      r := DeleteProject(loaded.value);
    }
  }

  /** The first session opened on `project`. */
  function SessionIndex(sessions: seq<EditingSession>, project: Project): (r: Option<nat>)
    ensures r.Some? ==> r.value < |sessions| && sessions[r.value].project == project
    ensures r.Some? ==> forall k :: 0 <= k < r.value ==> sessions[k].project != project
    ensures r.None? ==> forall k :: 0 <= k < |sessions| ==> sessions[k].project != project
  {
    if sessions == [] then None
    else if sessions[0].project == project then Some(0)
    else match SessionIndex(sessions[1..], project)
      case None => None
      case Some(k) => Some(k + 1)
  }

  /** The first session opened on the project is the one SessionIndex finds. */
  lemma SessionIndexFirst(sessions: seq<EditingSession>, project: Project, i: nat)
    requires i < |sessions| && sessions[i].project == project
    requires forall k :: 0 <= k < i ==> sessions[k].project != project
    ensures SessionIndex(sessions, project) == Some(i)
  {
  }
}
