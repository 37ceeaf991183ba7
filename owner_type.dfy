/**
 * The owner-type mapper (`mustGetOwnerTypeQuery`) and the read of the
 * project id from the `getProject` response under the owner-type key.
 */
module OwnerType {
  import opened Wrappers
  import opened ResolveErrors
  import opened ProjectUrl

  /** The root field of the `getProject` query: `organization` or `user`. */
  datatype OwnerTypeQuery = Organization | User {

    /** The field name, which is also the key of the response object. */
    function Key(): string {
      match this
      case Organization => "organization"
      case User => "user"
    }

    /** The URL path segment that selects this query. */
    function Token(): string {
      match this
      case Organization => "orgs"
      case User => "users"
    }
  }

  /**
   * Maps the owner-type group of a project URL to the query root field;
   * any other value, present or absent, is an unsupported owner type.
   */
  function MustGetOwnerTypeQuery(ownerType: Option<string>): (r: Result<OwnerTypeQuery, Error>)
    ensures r.Success? <==> ownerType.Some? && IsOwnerType(ownerType.value)
    ensures r.Success? ==> ownerType == Some(r.value.Token())
    ensures r.Failure? ==> r.error == UnsupportedOwnerType(ownerType)
  {
    if ownerType == Some("orgs") then Success(Organization)
    else if ownerType == Some("users") then Success(User)
    else Failure(UnsupportedOwnerType(ownerType))
  }

  /** `orgs` selects `organization` and `users` selects `user`. */
  lemma MustGetOwnerTypeQueryResults()
    ensures MustGetOwnerTypeQuery(Some("orgs")) == Success(Organization)
    ensures MustGetOwnerTypeQuery(Some("users")) == Success(User)
    ensures Organization.Key() == "organization" && User.Key() == "user"
  {
  }

  /** The mapper inverts `Token`: each query is selected by its own token and no other. */
  lemma {:induction false} MustGetOwnerTypeQueryInvertsToken(q: OwnerTypeQuery, ownerType: Option<string>)
    ensures MustGetOwnerTypeQuery(ownerType) == Success(q) <==> ownerType == Some(q.Token())
  {
    if ownerType == Some(q.Token()) {
      var r := MustGetOwnerTypeQuery(ownerType);
      assert r.Success?;
      assert r.value.Token() == q.Token();
    }
  }

  /** Every unsupported value, `undefined` included, fails with a message that names it. */
  lemma UnsupportedOwnerTypeNamed(ownerType: Option<string>)
    requires ownerType != Some("orgs") && ownerType != Some("users")
    ensures MustGetOwnerTypeQuery(ownerType).Failure?
    ensures UnsupportedPrefix + Show(ownerType) <= Message(MustGetOwnerTypeQuery(ownerType).error)
  {
  }

  /** The `projectNext { id }` selection of one owner. */
  datatype ProjectNext = ProjectNext(id: string)

  /** One owner branch of the response. */
  datatype OwnerNode = OwnerNode(projectNext: ProjectNext)

  /** The `getProject` response: only the branch of the queried owner is filled in. */
  datatype ProjectNodeIdResponse = ProjectNodeIdResponse(organization: Option<OwnerNode>, user: Option<OwnerNode>) {

    /** Property access `response[key]`; `undefined` for any other key. */
    function Get(key: string): Option<OwnerNode> {
      if key == "organization" then organization
      else if key == "user" then user
      else None
    }
  }

  /**
   * `idResp[ownerTypeQuery]?.projectNext.id`: the id under the branch keyed
   * by the query, absent when that branch is missing.
   */
  function ProjectId(resp: ProjectNodeIdResponse, q: OwnerTypeQuery): (id: Option<string>)
    ensures q == Organization ==> id.Some? == resp.organization.Some?
    ensures q == User ==> id.Some? == resp.user.Some?
    ensures q == Organization && resp.organization.Some? ==> id == Some(resp.organization.value.projectNext.id)
    ensures q == User && resp.user.Some? ==> id == Some(resp.user.value.projectNext.id)
  {
    match resp.Get(q.Key())
    case None => None
    case Some(owner) => Some(owner.projectNext.id)
  }

  /** Whatever the other branch holds, it is never read. */
  lemma ProjectIdIgnoresOtherBranch(resp: ProjectNodeIdResponse, other: Option<OwnerNode>)
    ensures ProjectId(resp.(user := other), Organization) == ProjectId(resp, Organization)
    ensures ProjectId(resp.(organization := other), User) == ProjectId(resp, User)
  {
  }
}
