/**
 * The pure part of `updateProjectItemStatus` before and after the
 * `getProject` call: from the project URL to the query variables, and from
 * the response to the project id.
 */
module Resolve {
  import opened Wrappers
  import opened Digits
  import opened ResolveErrors
  import opened ProjectUrl
  import opened OwnerType

  /** The root field and the variables of the `getProject` query. */
  datatype ProjectQuery = ProjectQuery(ownerTypeQuery: OwnerTypeQuery, ownerName: string, projectNumber: nat)

  /**
   * Match the URL, read its groups and map the owner type; an unmatched URL
   * is an invalid project URL. The owner-type mapper never fails here, since
   * the pattern only lets `orgs` and `users` through.
   */
  function ResolveProjectQuery(url: string): (r: Result<ProjectQuery, Error>)
    ensures r.Failure? <==> Parse(url).InvalidUrl?
    ensures r.Failure? ==> r.error == InvalidProjectUrl(url)
    ensures r.Success? ==>
      Parse(url) == Ok(r.value.ownerTypeQuery.Token(), r.value.ownerName, r.value.projectNumber)
  {
    match Parse(url)
    case InvalidUrl(original) => Failure(InvalidProjectUrl(original))
    case Ok(ownerType, ownerName, projectNumber) =>
      match MustGetOwnerTypeQuery(Some(ownerType))
      case Failure(e) => Failure(e)
      case Success(q) => Success(ProjectQuery(q, ownerName, projectNumber))
  }

  /** Every owner type a successful parse yields is accepted by the mapper. */
  lemma ParsedOwnerTypeSupported(url: string)
    ensures Parse(url).Ok? ==> MustGetOwnerTypeQuery(Some(Parse(url).ownerType)).Success?
  {
  }

  /** A project URL built from a query resolves back to that query, with or without the scheme. */
  lemma ResolveRoundTrip(scheme: string, q: OwnerTypeQuery, ownerName: string, projectNumber: nat)
    requires scheme == "" || scheme == Scheme
    requires IsOwnerName(ownerName)
    ensures ResolveProjectQuery(ProjectUrlOf(scheme, q.Token(), ownerName, ToDecimal(projectNumber)))
      == Success(ProjectQuery(q, ownerName, projectNumber))
  {
    RoundTrip(scheme, q.Token(), ownerName, projectNumber);
    MustGetOwnerTypeQueryInvertsToken(q, Some(q.Token()));
  }

  /**
   * The project id read for a URL: from the branch of the response keyed by
   * the URL's owner type.
   */
  function ProjectIdForUrl(url: string, resp: ProjectNodeIdResponse): (r: Result<Option<string>, Error>)
    ensures r.Failure? <==> Parse(url).InvalidUrl?
    ensures r.Success? && Parse(url).ownerType == "orgs" ==>
      r.value == if resp.organization.Some? then Some(resp.organization.value.projectNext.id) else None
    ensures r.Success? && Parse(url).ownerType == "users" ==>
      r.value == if resp.user.Some? then Some(resp.user.value.projectNext.id) else None
  {
    match ResolveProjectQuery(url)
    case Failure(e) => Failure(e)
    case Success(query) => Success(ProjectId(resp, query.ownerTypeQuery))
  }

  /** The URL of the action's examples, piece by piece. */
  lemma ExampleUrlShape()
    ensures "https://github.com/orgs/github/projects/1" == ProjectUrlOf(Scheme, "orgs", "github", "1")
  {
  }

  /** The URL of the action's examples resolves to the `organization` query for `github`, project 1. */
  lemma ExampleUrlResolves()
    ensures ResolveProjectQuery("https://github.com/orgs/github/projects/1")
      == Success(ProjectQuery(Organization, "github", 1))
  {
    assert ToDecimal(1) == "1";
    ExampleUrlShape();
    ResolveRoundTrip(Scheme, Organization, "github", 1);
  }

  /** For that URL the id is read from the `organization` branch of the response. */
  lemma ExampleProjectId(id: string, other: Option<OwnerNode>)
    ensures ProjectIdForUrl("https://github.com/orgs/github/projects/1",
                            ProjectNodeIdResponse(Some(OwnerNode(ProjectNext(id))), other))
      == Success(Some(id))
  {
    ExampleUrlResolves();
  }

  /** The repository-list URL of the examples is an invalid project URL. */
  lemma ExampleRepositoriesUrlFails()
    ensures ResolveProjectQuery("https://github.com/orgs/github/repositories")
      == Failure(InvalidProjectUrl("https://github.com/orgs/github/repositories"))
  {
    RepositoriesUrlRejected();
  }
}
