/** The ProjectShowcase component: its state and the handlers that update it. The network call is
    not part of the model; a load is split into the step that sends the request and the step that
    handles what came back. */
module ShowcaseComponent {
  import opened Categories
  import opened Projects
  import opened Request
  import opened Views

  /** What the awaited `fetch` and `response.json()` produced. `Rejected` stands for every way
      the load function ends in an exception instead: the fetch fails, the body is not JSON, or an
      ok body has no `projects` array. Nothing catches those, so no state update follows. */
  datatype FetchOutcome = Rejected | Responded(ok: bool, projects: seq<RawProject>)

  class ProjectShowcase {
    var activeId: string
    var projectsList: seq<Project>
    var apiStatus: ApiStatus

    /** The initial state: the first category, no projects, and no request made yet. */
    constructor ()
      ensures activeId == DefaultActiveId() == "ALL"
      ensures projectsList == []
      ensures apiStatus == Initial
    {
      activeId := DefaultActiveId();
      projectsList := [];
      apiStatus := Initial;
    }

    /** The part of `getProjectsList` before the `fetch` resumes: the status becomes in progress
        and the request for the current category is sent (returned as its URL). */
    method StartProjectsLoad() returns (url: string)
      modifies this
      ensures apiStatus == InProgress
      ensures activeId == old(activeId) && projectsList == old(projectsList)
      ensures url == RequestUrl(activeId)
    {
      apiStatus := InProgress;
      url := RequestUrl(activeId);
    }

    /** The part of `getProjectsList` after the `fetch` and `response.json()` resume. An ok
        response replaces the list with its renamed records and sets success; a non-ok response
        whose body parsed sets failure and keeps the list; a rejected load changes nothing. */
    method CompleteProjectsLoad(outcome: FetchOutcome)
      modifies this
      ensures activeId == old(activeId)
      ensures outcome.Responded? && outcome.ok ==>
        apiStatus == Success && projectsList == MapProjects(outcome.projects)
      ensures outcome.Responded? && !outcome.ok ==>
        apiStatus == Failure && projectsList == old(projectsList)
      ensures outcome.Rejected? ==>
        apiStatus == old(apiStatus) && projectsList == old(projectsList)
    {
      match outcome
      case Rejected =>
      case Responded(ok, projects) =>
        if ok {
          projectsList := MapProjects(projects);
          apiStatus := Success;
        } else {
          apiStatus := Failure;
        }
    }

    /** Mounting starts the first load, for the current category. */
    method ComponentDidMount() returns (url: string)
      modifies this
      ensures apiStatus == InProgress
      ensures activeId == old(activeId) && projectsList == old(projectsList)
      ensures url == RequestUrl(activeId)
    {
      url := StartProjectsLoad();
    }

    /** A new category from the selector: it is stored first, and the load that follows asks
        for it. */
    method OnChangeActiveId(value: string) returns (url: string)
      modifies this
      ensures activeId == value
      ensures apiStatus == InProgress
      ensures projectsList == old(projectsList)
      ensures url == RequestUrl(value)
    {
      activeId := value;
      url := StartProjectsLoad();
    }

    /** The retry button: a new load for the category currently selected, nothing else. */
    method Retry() returns (url: string)
      modifies this
      ensures apiStatus == InProgress
      ensures activeId == old(activeId) && projectsList == old(projectsList)
      ensures url == RequestUrl(activeId)
    {
      url := StartProjectsLoad();
    }
  }

  /** Mounting, then an ok response with one record: the list holds that record, renamed, and
      the list view shows it. */
  method MountThenSuccess() returns (url: string, status: ApiStatus, list: seq<Project>, view: View)
    ensures url == "https://apis.ccbp.in/ps/projects?category=ALL"
    ensures status == Success
    ensures list == [Project("1", "Repo Analyzer", "http://x/1.png")]
    ensures view == ProjectsList([Card("1", "http://x/1.png", "Repo Analyzer", "Repo Analyzer")])
  {
    var c := new ProjectShowcase();
    url := c.ComponentDidMount();
    c.CompleteProjectsLoad(Responded(true, [RawProject("1", "Repo Analyzer", "http://x/1.png")]));
    status, list, view := c.apiStatus, c.projectsList, RenderProjectShowcase(c.apiStatus, c.projectsList);
  }

  /** After a successful load, a change of category whose response is not ok shows the failure
      view and keeps the earlier list; a retry then asks for the newly selected category. */
  method FailureThenRetry(earlier: seq<RawProject>)
    returns (failedStatus: ApiStatus, failedList: seq<Project>, retryUrl: string, retryStatus: ApiStatus)
    ensures failedStatus == Failure
    ensures failedList == MapProjects(earlier)
    ensures retryUrl == "https://apis.ccbp.in/ps/projects?category=REACT"
    ensures retryStatus == InProgress
  {
    var c := new ProjectShowcase();
    var url := c.ComponentDidMount();
    c.CompleteProjectsLoad(Responded(true, earlier));
    url := c.OnChangeActiveId("REACT");
    c.CompleteProjectsLoad(Responded(false, []));
    failedStatus, failedList := c.apiStatus, c.projectsList;
    retryUrl := c.Retry();
    retryStatus := c.apiStatus;
  }

  /** A load that ends in an exception leaves the component on the loading view. */
  method RejectedLoadKeepsLoading() returns (status: ApiStatus, view: View)
    ensures status == InProgress
    ensures view == Loading
  {
    var c := new ProjectShowcase();
    var url := c.ComponentDidMount();
    c.CompleteProjectsLoad(Rejected);
    status, view := c.apiStatus, RenderProjectShowcase(c.apiStatus, c.projectsList);
  }
}
