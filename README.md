# ProjectShowcase — a Dafny model

`ProjectShowcase` is a React component that shows a filterable gallery of portfolio projects.
Its state holds three things:

- `activeId`: the selected category;
- `projectsList`: the projects on display;
- `apiStatus`: the request status, one of `INITIAL`, `IN_PROGRESS`, `SUCCESS` and `FAILURE`.

On mount, on a change of category and on a retry, the component loads the projects of the current
category. A load sets the status to in progress and requests
`https://apis.ccbp.in/ps/projects?category=<activeId>`. It then awaits the response and parses its
body as JSON. An ok response replaces the list with the response's records, renaming `image_url` to
`imageUrl`, and sets success. A non-ok response whose body parses as JSON sets failure and keeps
the list. The component then shows nothing, a loader, the list or a failure view with a retry
button, depending on the status.

The model has one module per concern:

- `Categories` (`categories.dfy`): the category table, the default category and the selector.
- `Projects` (`projects.dfy`): the raw and display records, and the renaming map.
- `Request` (`request.dfy`): the request URL.
- `Views` (`view.dfy`): the status and the status-to-view switch.
- `ShowcaseComponent` (`component.dfy`): the component as a class whose methods update
  `activeId`, `projectsList` and `apiStatus` in place.

The asynchronous `getProjectsList` is split into two methods:

- `StartProjectsLoad` runs up to the `fetch` and returns the URL it requests.
- `CompleteProjectsLoad` runs after the awaited `fetch` and `response.json()`. It takes a
  `FetchOutcome` that stands for their result. That is either `Responded(ok, projects)` or
  `Rejected`, for a load that ends in an exception.

A transport error does not set failure. Nothing catches an exception from `fetch`, from
`response.json()` or from a missing `projects` field. Also, `response.json()` is awaited before
`response.ok` is checked, so a non-ok response whose body is not JSON (an HTML error page, say)
throws too. In all these cases the async function rejects, no state update follows, and the status
stays `IN_PROGRESS`. `CompleteProjectsLoad(Rejected)` therefore changes nothing, and
`RejectedLoadKeepsLoading` shows that the component stays on the loading view.

## Model

| member | source | states |
|---|---|---|
| `Categories.CategoriesTable` | src/components/ProjectShowcase/index.js:5-11 | the category table has exactly five entries, with ids ALL, STATIC, RESPONSIVE, DYNAMIC, REACT in that order, and the ids are pairwise distinct |
| `Categories.Ids` | src/components/ProjectShowcase/index.js:5-11 | the id list has one entry per category, and entry i is category i's id |
| `Categories.DefaultActiveId` | src/components/ProjectShowcase/index.js:22 | the initial category is "ALL", and it is one of the table's ids |
| `Categories.SelectOptions` | src/components/ProjectShowcase/index.js:86-90 | the selector has one option per category, in table order; option i's key and value are category i's id and its text is category i's label |
| `Categories.OptionsRoundTrip` | src/components/ProjectShowcase/index.js:86-90 | the table can be read back from the selector's options, so no category is dropped, duplicated or reordered |
| `Categories.SelectableValues` | src/components/ProjectShowcase/index.js:84-90 | a value is offered by the selector if and only if it is a category id |
| `Projects.MapProjects` | src/components/ProjectShowcase/index.js:42-46 | the mapped list has the response's length; entry i keeps record i's `id` and `name` and has `imageUrl` equal to record i's `image_url` |
| `Projects.MapProjectsRoundTrip` | src/components/ProjectShowcase/index.js:42-46 | undoing the renaming gives back the response's three-field records exactly |
| `Projects.MapProjectsInjective` | src/components/ProjectShowcase/index.js:42-46 | two responses that map to the same list are equal |
| `Projects.MapProjectsAppend` | src/components/ProjectShowcase/index.js:42-46 | mapping a concatenation is the concatenation of the mapped parts, so order is kept record by record |
| `Request.RequestUrl` | src/components/ProjectShowcase/index.js:35 | the request URL is the fixed prefix `https://apis.ccbp.in/ps/projects?category=` followed by exactly the category id |
| `Request.CategoryOfUrl` | src/components/ProjectShowcase/index.js:35 | the inverse of the URL template: a URL yields a category if and only if it is the request URL of some category, and the category it yields has exactly that URL |
| `Request.RequestUrlRoundTrip` | src/components/ProjectShowcase/index.js:35 | the category read from a category's request URL is that category |
| `Request.CategoryOfUrlRoundTrip` | src/components/ProjectShowcase/index.js:35 | every URL with the endpoint prefix is the request URL of the category it names |
| `Request.RequestUrlInjective` | src/components/ProjectShowcase/index.js:34-35 | two categories give the same URL if and only if they are equal |
| `Views.CodesDistinct` | src/components/ProjectShowcase/index.js:13-18 | two statuses have the same string constant if and only if they are the same status, so the string switch tells them apart |
| `Views.Cards` | src/components/ProjectShowcase/index.js:100-111 | one card per project, in list order; card i has key = id, image source = imageUrl, alt text = name and caption = name |
| `Views.CardsRoundTrip` | src/components/ProjectShowcase/index.js:100-111 | the projects can be read back from the cards |
| `Views.RenderProjectShowcase` | src/components/ProjectShowcase/index.js:139-151 | the view is chosen by status alone: IN_PROGRESS if and only if loading, SUCCESS if and only if the list view (one card per project), FAILURE if and only if the failure view, INITIAL if and only if nothing |
| `Views.RenderDeterminesState` | src/components/ProjectShowcase/index.js:139-151 | the status can be read back from the view, and on success so can the list |
| `Views.EmptySuccessIsEmptyList` | src/components/ProjectShowcase/index.js:144-145 | success with no projects shows an empty list, not the failure view |
| `ShowcaseComponent.ProjectShowcase.constructor` | src/components/ProjectShowcase/index.js:21-25 | the initial state is activeId "ALL", an empty list and status INITIAL |
| `ShowcaseComponent.ProjectShowcase.StartProjectsLoad` | src/components/ProjectShowcase/index.js:31-35 | starting a load sets the status to IN_PROGRESS, keeps activeId and the list, and requests the URL of the current activeId |
| `ShowcaseComponent.ProjectShowcase.CompleteProjectsLoad` | src/components/ProjectShowcase/index.js:37-56 | an ok response sets the list to the mapped records and the status to SUCCESS; a non-ok response whose body parsed sets FAILURE and keeps the list; a rejected load (an exception from `fetch` or `response.json()`) changes nothing; activeId never changes |
| `ShowcaseComponent.ProjectShowcase.ComponentDidMount` | src/components/ProjectShowcase/index.js:27-29 | mounting starts a load for the current category |
| `ShowcaseComponent.ProjectShowcase.OnChangeActiveId` | src/components/ProjectShowcase/index.js:59-61 | activeId becomes the selected value before the load starts, so the request asks for the new category; the list is kept |
| `ShowcaseComponent.ProjectShowcase.Retry` | src/components/ProjectShowcase/index.js:63-65 | a retry is exactly a new load for the current activeId and changes nothing else first |
| `ShowcaseComponent.MountThenSuccess` | src/components/ProjectShowcase/index.js:27-51 | mounting requests category ALL; an ok response with one record gives status SUCCESS, that record renamed, and a list view with its card |
| `ShowcaseComponent.FailureThenRetry` | src/components/ProjectShowcase/index.js:40-65 | a non-ok response after a category change sets FAILURE and keeps the earlier list; a retry then requests the newly selected category |
| `ShowcaseComponent.RejectedLoadKeepsLoading` | src/components/ProjectShowcase/index.js:37-40 | a load that ends in an exception leaves the status IN_PROGRESS and the loading view on screen |

## Left out

- The `fetch` call and `response.json()` (index.js:37-38) are network I/O and a foreign parser. They become the `FetchOutcome` passed to `CompleteProjectsLoad`, and the request becomes the URL returned by `StartProjectsLoad`.
- Overlapping loads are not modelled. The component never cancels an earlier load, so an older response can overwrite a newer one. That is an interleaving of asynchronous continuations. The methods allow a completion in any state, so any order of completions can be replayed, but the model has no scheduler. No request numbering is added, because the code has none.
- React's `setState` batching and lifecycle are not modelled. The model keeps only what matters here: the update in `onChangeActiveId` is applied before its callback `getProjectsList` runs. `getProjectsList` reads `activeId` right after queueing its status update, and the value it reads is the same either way, because that update does not touch `activeId`.
- `ShowcaseComponent.ProjectShowcase.OnChangeActiveId` accepts any string, as the handler does. That the value is a category id comes from the selector (`Categories.SelectableValues`), not from the handler.
- JSX markup, CSS classes, the header logo, the failure view's texts and image, and the `react-loader-spinner` loader and its props (index.js:67-137, 153-163) are presentation. Views are modelled only as which view is shown and, for the list, its cards.
- Raw records are modelled as exactly the three fields the map reads, all strings. In the source the `.map` (index.js:42-46) drops any other field of a record and copies a non-string or missing value (`undefined`) as it is. `Projects.MapProjectsRoundTrip` gives back the records exactly only under this abstraction.
- Duplicate project ids would give duplicate React keys. The model keeps them like any other record and does not model React's key handling.
