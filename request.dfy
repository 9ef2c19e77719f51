/** The request the component sends for a category. */
module Request {

  datatype Option<T> = None | Some(value: T)

  /** The fixed endpoint, up to and including the query parameter's name. */
  const ProjectsEndpoint: string := "https://apis.ccbp.in/ps/projects?category="

  /** The URL requested for the category `activeId`: the endpoint with the id appended. */
  function RequestUrl(activeId: string): (url: string)
    ensures |url| == |ProjectsEndpoint| + |activeId|
    ensures url[..|ProjectsEndpoint|] == ProjectsEndpoint
    ensures url[|ProjectsEndpoint|..] == activeId
  {
    ProjectsEndpoint + activeId
  }

  /** The inverse of `RequestUrl`: the category a URL asks for, when it is the request URL of
      some category. */
  function CategoryOfUrl(url: string): (c: Option<string>)
    ensures c.Some? <==> exists a :: url == RequestUrl(a)
    ensures c.Some? ==> RequestUrl(c.value) == url
  {
    if |url| >= |ProjectsEndpoint| && url[..|ProjectsEndpoint|] == ProjectsEndpoint
    then
      var a := url[|ProjectsEndpoint|..];
      assert url == ProjectsEndpoint + a == RequestUrl(a);
      Some(a)
    else
      None
  }

  /** The request for a category asks for exactly that category. */
  lemma RequestUrlRoundTrip(activeId: string)
    ensures CategoryOfUrl(RequestUrl(activeId)) == Some(activeId)
  {
  }

  /** Every URL of the projects endpoint is the request for the category it names. */
  lemma CategoryOfUrlRoundTrip(url: string)
    requires CategoryOfUrl(url).Some?
    ensures RequestUrl(CategoryOfUrl(url).value) == url
  {
    assert url == url[..|ProjectsEndpoint|] + url[|ProjectsEndpoint|..];
  }

  /** Two categories give the same request only when they are the same category. */
  lemma RequestUrlInjective(a: string, b: string)
    ensures RequestUrl(a) == RequestUrl(b) <==> a == b
  {
    if RequestUrl(a) == RequestUrl(b) {
      RequestUrlRoundTrip(a);
      RequestUrlRoundTrip(b);
    }
  }
}
