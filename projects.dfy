/** Project records: the shape the API sends and the shape the component keeps in its state. */
module Projects {

  /** A project as the API sends it; the field keeps the API's own name. */
  datatype RawProject = RawProject(id: string, name: string, image_url: string)

  /** A project as the component keeps it for display. */
  datatype Project = Project(id: string, name: string, imageUrl: string)

  /** One record of the response, renamed for display. */
  function ToDisplay(p: RawProject): Project {
    Project(p.id, p.name, p.image_url)
  }

  /** The `projects.map(...)` of a successful response: every record renamed, one for one, in order. */
  function MapProjects(projects: seq<RawProject>): (updated: seq<Project>)
    ensures |updated| == |projects|
    ensures forall i :: 0 <= i < |projects| ==>
      updated[i].id == projects[i].id &&
      updated[i].name == projects[i].name &&
      updated[i].imageUrl == projects[i].image_url
  {
    if projects == [] then [] else [ToDisplay(projects[0])] + MapProjects(projects[1..])
  }

  /** The inverse renaming, from the display shape back to the API's shape. */
  function ToRaw(p: Project): RawProject {
    RawProject(p.id, p.name, p.imageUrl)
  }

  function UnmapProjects(projects: seq<Project>): seq<RawProject> {
    if projects == [] then [] else [ToRaw(projects[0])] + UnmapProjects(projects[1..])
  }

  /** The mapping loses nothing: undoing the renaming gives back the response's records. */
  lemma {:induction false} MapProjectsRoundTrip(projects: seq<RawProject>)
    ensures UnmapProjects(MapProjects(projects)) == projects
  {
    if projects != [] {
      MapProjectsRoundTrip(projects[1..]);
      assert MapProjects(projects)[1..] == MapProjects(projects[1..]);
    }
  }

  /** Different responses give different lists. */
  lemma MapProjectsInjective(a: seq<RawProject>, b: seq<RawProject>)
    requires MapProjects(a) == MapProjects(b)
    ensures a == b
  {
    MapProjectsRoundTrip(a);
    MapProjectsRoundTrip(b);
  }

  /** The mapping works record by record: mapping a concatenation maps each part in place. */
  lemma MapProjectsAppend(a: seq<RawProject>, b: seq<RawProject>)
    ensures MapProjects(a + b) == MapProjects(a) + MapProjects(b)
  {
  }
}
