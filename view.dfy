/** The request status and the choice of what the component shows for it. */
module Views {
  import opened Projects

  /** The four request statuses, with the string each one stands for in the component. */
  datatype ApiStatus = Initial | InProgress | Success | Failure {
    function Code(): string {
      match this
      case Initial => "INITIAL"
      case InProgress => "IN_PROGRESS"
      case Success => "SUCCESS"
      case Failure => "FAILURE"
    }
  }

  /** The status is kept as its string and compared by string in the view switch; distinct
      statuses have distinct strings, so the switch tells them apart. */
  lemma CodesDistinct(a: ApiStatus, b: ApiStatus)
    ensures a.Code() == b.Code() <==> a == b
  {
  }

  /** One list item of the projects view: its React key, its image source and alt text, and the
      name shown under the image. */
  datatype Card = Card(key: string, imageSrc: string, imageAlt: string, caption: string)

  /** What the component shows below the selector. */
  datatype View = Nothing | Loading | ProjectsList(cards: seq<Card>) | FailureView

  function CardOf(p: Project): Card {
    Card(p.id, p.imageUrl, p.name, p.name)
  }

  /** The cards of the projects view: one per project, in list order. */
  function Cards(projects: seq<Project>): (cards: seq<Card>)
    ensures |cards| == |projects|
    ensures forall i :: 0 <= i < |projects| ==>
      cards[i].key == projects[i].id &&
      cards[i].imageSrc == projects[i].imageUrl &&
      cards[i].imageAlt == projects[i].name &&
      cards[i].caption == projects[i].name
  {
    if projects == [] then [] else [CardOf(projects[0])] + Cards(projects[1..])
  }

  /** Reads the projects back from the cards. */
  function ProjectsOfCards(cards: seq<Card>): seq<Project> {
    if cards == [] then [] else [Project(cards[0].key, cards[0].caption, cards[0].imageSrc)] + ProjectsOfCards(cards[1..])
  }

  /** The list view shows every field of every project: the projects can be read back from it. */
  lemma {:induction false} CardsRoundTrip(projects: seq<Project>)
    ensures ProjectsOfCards(Cards(projects)) == projects
  {
    if projects != [] {
      CardsRoundTrip(projects[1..]);
      assert Cards(projects)[1..] == Cards(projects[1..]);
    }
  }

  /** The view chosen for a status: loading while a request is in progress, the list on success,
      the failure view on failure, and nothing before the first request. */
  function RenderProjectShowcase(apiStatus: ApiStatus, projectsList: seq<Project>): (v: View)
    ensures v == Loading <==> apiStatus == InProgress
    ensures v.ProjectsList? <==> apiStatus == Success
    ensures v == FailureView <==> apiStatus == Failure
    ensures v == Nothing <==> apiStatus == Initial
    ensures v.ProjectsList? ==> |v.cards| == |projectsList|
  {
    match apiStatus
    case InProgress => Loading
    case Success => ProjectsList(Cards(projectsList))
    case Failure => FailureView
    case Initial => Nothing
  }

  /** The status a view is shown for. */
  function StatusOfView(v: View): ApiStatus {
    match v
    case Nothing => Initial
    case Loading => InProgress
    case ProjectsList(_) => Success
    case FailureView => Failure
  }

  /** The view determines the status, and on success the list, it was rendered from. */
  lemma RenderDeterminesState(apiStatus: ApiStatus, projectsList: seq<Project>)
    ensures StatusOfView(RenderProjectShowcase(apiStatus, projectsList)) == apiStatus
    ensures apiStatus == Success ==>
      ProjectsOfCards(RenderProjectShowcase(apiStatus, projectsList).cards) == projectsList
  {
    if apiStatus == Success {
      CardsRoundTrip(projectsList);
    }
  }

  /** A successful load of no projects shows an empty list, not the failure view. */
  lemma EmptySuccessIsEmptyList()
    ensures RenderProjectShowcase(Success, []) == ProjectsList([])
  {
  }
}
