/** Permission scheme grants. The grant API knows a holder (here a project
    role) by its numeric id, while callers name it; so Get lists the scheme's
    grants and keeps the last one matching the permission, the holder type (up
    to case) and the decimal text of the resolved role id, then puts the
    caller's holder parameter back. Create posts the role id and re-attaches
    the caller's names; Delete finds the grant id through Get.

    The scheme and role lookups are inputs: the scheme lookup as
    PermissionSchemeService.Selected would answer it, the role lookup as
    ProjectRoleService.Selected would, and, for Get, the result of List. */
module GrantService {

  import opened Wrappers
  import opened Decimal
  import opened Http
  import opened Strings
  import Lookup
  import PermissionSchemeService
  import ProjectRoleService

  type PermissionScheme = PermissionSchemeService.PermissionScheme
  type ProjectRole = ProjectRoleService.ProjectRole

  /** A holder as callers see it: `kind` is the JSON field `type`, and the
      parameter is text (a role name on the way in, a decimal id when listed). */
  datatype Holder = Holder(kind: string, parameter: string)

  /** A holder as the create endpoint expects it: the parameter is the role id. */
  datatype ApiHolder = ApiHolder(kind: string, parameter: Int64)

  /** A listed grant. */
  datatype Grant = Grant(id: Int64, permissionSchemeId: Int64, permission: string, holder: Holder)

  /** The Go zero value, which Get starts from. */
  const Zero := Grant(0, 0, "", Holder("", ""))

  /** The requests as the service reads them: the scheme by name, the holder
      by type and role name. */
  datatype GetRequest = GetRequest(permissionSchemeName: string, permission: string, holder: Holder)
  datatype CreateRequest = CreateRequest(permissionSchemeName: string, permission: string, holder: Holder)
  datatype DeleteRequest = DeleteRequest(permissionSchemeName: string, permission: string, holder: Holder)

  /** What Create returns. */
  datatype Created = Created(id: Int64, permissionSchemeName: string, permission: string, holder: Holder)

  /** The JSON object Create posts. */
  datatype Body = CreateBody(permission: string, holder: ApiHolder)

  const SchemeNotFound := "failed to find permission scheme"
  const GrantNotFound := "failed to find permission scheme grant in returned grants list"
  const SendError := "error result from http request"

  function RoleNotFound(name: string): string
  {
    "failed to find project role with role name " + name
  }

  /** https://{domain}/rest/api/2/permissionscheme/{schemeId}/permission */
  function GrantsUrl(conn: JiraServerBase, schemeId: Int64): string
  {
    ApiUrl(conn, "permissionscheme/" + FormatInt(schemeId) + "/permission")
  }

  /** https://{domain}/rest/api/2/permissionscheme/{schemeId}/permission/{grantId} */
  function GrantUrl(conn: JiraServerBase, schemeId: Int64, grantId: Int64): string
  {
    ApiUrl(conn, "permissionscheme/" + GrantPath(schemeId, grantId))
  }

  /** The part of a grant's URL after ".../permissionscheme/". */
  function GrantPath(schemeId: Int64, grantId: Int64): string
  {
    FormatInt(schemeId) + "/permission/" + FormatInt(grantId)
  }

  /** List: resolve the scheme, then GET its grants. */
  function List(conn: JiraServerBase, scheme: Result<PermissionScheme>, reply: Outcome<seq<Grant>>)
    : (e: Effect<seq<Grant>, Body>)
    ensures scheme.Err? ==> e == Effect(Err(SchemeNotFound), None)
    ensures scheme.Ok? ==> e.result == Decode(reply, SendError)
    ensures e.sent.Some? <==> scheme.Ok? && !reply.BuildFailed?
    ensures e.sent.Some? ==>
      e.sent.value == Request(GET, GrantsUrl(conn, scheme.value.id), [Authorization(conn), AcceptJson], None)
  {
    if scheme.Err? then Effect(Err(SchemeNotFound), None)
    else
      var request := Request(GET, GrantsUrl(conn, scheme.value.id), [Authorization(conn), AcceptJson], None);
      Effect(Decode(reply, SendError), Sent(request, reply))
  }

  /** The test Get applies to each listed grant: the same permission key, the
      same holder type once both are lower-cased, and a holder parameter equal
      to the decimal text of the role id. */
  predicate Matches(g: Grant, req: GetRequest, roleId: Int64)
  {
    && g.permission == req.permission
    && ToLower(g.holder.kind) == ToLower(req.holder.kind)
    && g.holder.parameter == FormatInt(roleId)
  }

  function Matcher(req: GetRequest, roleId: Int64): Grant -> bool
  {
    (g: Grant) => Matches(g, req, roleId)
  }

  /** `i` is the last position of the listing that matches. */
  predicate IsLastMatch(s: seq<Grant>, req: GetRequest, roleId: Int64, i: int)
  {
    0 <= i < |s| && Matches(s[i], req, roleId) && forall j :: i < j < |s| ==> !Matches(s[j], req, roleId)
  }

  /** The grant with its holder parameter replaced. */
  function WithParameter(g: Grant, parameter: string): Grant
  {
    g.(holder := g.holder.(parameter := parameter))
  }

  /** What Get returns: the listing is checked first and the role second;
      then the last matching grant, reported missing when its permission is
      empty (the zero value stands for "nothing matched"), with the caller's
      holder parameter in place of the role id. */
  function Found(listed: Result<seq<Grant>>, role: Result<ProjectRole>, req: GetRequest): (r: Result<Grant>)
    ensures listed.Err? ==> r == Err(SchemeNotFound)
    ensures listed.Ok? && role.Err? ==> r == Err(RoleNotFound(req.holder.parameter))
    ensures listed.Ok? && role.Ok? ==>
      (r.Ok? <==> exists i :: IsLastMatch(listed.value, req, role.value.id, i) && listed.value[i].permission != "")
    ensures listed.Ok? && role.Ok? && r.Err? ==> r.msg == GrantNotFound
    ensures r.Ok? ==> (listed.Ok? && role.Ok? &&
      exists i :: IsLastMatch(listed.value, req, role.value.id, i)
                  && r.value == WithParameter(listed.value[i], req.holder.parameter))
    ensures r.Ok? ==>
      && r.value.permission == req.permission
      && ToLower(r.value.holder.kind) == ToLower(req.holder.kind)
      && r.value.holder.parameter == req.holder.parameter
  {
    if listed.Err? then Err(SchemeNotFound)
    else if role.Err? then Err(RoleNotFound(req.holder.parameter))
    else
      var found := Lookup.LastOr(listed.value, Matcher(req, role.value.id), Zero);
      if found.permission == "" then Err(GrantNotFound)
      else Ok(WithParameter(found, req.holder.parameter))
  }

  /** Get: scan every listed grant with no early exit, then overwrite the
      holder parameter of the one kept. */
  method Get(listed: Result<seq<Grant>>, role: Result<ProjectRole>, req: GetRequest) returns (r: Result<Grant>)
    ensures r == Found(listed, role, req)
  {
    if listed.Err? {
      return Err(SchemeNotFound);
    }
    if role.Err? {
      return Err(RoleNotFound(req.holder.parameter));
    }
    var foundGrant := Lookup.ScanLast(listed.value, Matcher(req, role.value.id), Zero);
    if foundGrant.permission == "" {
      return Err(GrantNotFound);
    }
    foundGrant := foundGrant.(holder := foundGrant.holder.(parameter := req.holder.parameter));
    return Ok(foundGrant);
  }

  /** The object Create posts: the caller's permission and holder type, and
      the role id as the numeric holder parameter. */
  function PostBody(req: CreateRequest, roleId: Int64): Body
  {
    CreateBody(req.permission, ApiHolder(req.holder.kind, roleId))
  }

  /** Create: resolve the role, then the scheme; POST the grant; re-attach the
      caller's scheme name and holder parameter to the decoded answer. */
  method Create(conn: JiraServerBase, role: Result<ProjectRole>, scheme: Result<PermissionScheme>,
                req: CreateRequest, reply: Outcome<Created>)
    returns (r: Result<Created>, sent: Option<Request<Body>>)
    ensures role.Err? ==> r == Err("failed to find project role") && sent == None
    ensures role.Ok? && scheme.Err? ==> r == Err(SchemeNotFound) && sent == None
    ensures sent.Some? <==> role.Ok? && scheme.Ok? && !reply.BuildFailed?
    ensures sent.Some? ==>
      sent.value == Request(POST, GrantsUrl(conn, scheme.value.id), [Authorization(conn), ContentTypeJson],
                            Some(PostBody(req, role.value.id)))
    ensures role.Ok? && scheme.Ok? && Decode(reply, SendError).Err? ==> r == Decode(reply, SendError)
    ensures role.Ok? && scheme.Ok? && Decode(reply, SendError).Ok? ==> r.Ok?
    ensures r.Ok? ==> reply.Responded? && reply.payload.Decoded?
    ensures r.Ok? ==> (
      var answer := reply.payload.value;
      && r.value.id == answer.id
      && r.value.permission == answer.permission
      && r.value.holder.kind == answer.holder.kind
      && r.value.permissionSchemeName == req.permissionSchemeName
      && r.value.holder.parameter == req.holder.parameter)
  {
    if role.Err? {
      return Err("failed to find project role"), None;
    }
    if scheme.Err? {
      return Err(SchemeNotFound), None;
    }
    var request := Request(POST, GrantsUrl(conn, scheme.value.id), [Authorization(conn), ContentTypeJson],
                           Some(PostBody(req, role.value.id)));
    sent := Sent(request, reply);
    var decoded := Decode(reply, SendError);
    if decoded.Err? {
      return decoded, sent;
    }
    var result := decoded.value;
    result := result.(permissionSchemeName := req.permissionSchemeName);
    result := result.(holder := result.holder.(parameter := req.holder.parameter));
    r := Ok(result);
  }

  /** The Get request Delete issues for its own request. */
  function AsGetRequest(req: DeleteRequest): GetRequest
  {
    GetRequest(req.permissionSchemeName, req.permission, req.holder)
  }

  /** Delete: resolve the scheme, find the grant through Get, and only then
      DELETE it by scheme id and grant id; any answer counts as success.
      `listed` is what the List inside Get returned. */
  method Delete(conn: JiraServerBase, scheme: Result<PermissionScheme>, listed: Result<seq<Grant>>,
                role: Result<ProjectRole>, req: DeleteRequest, reply: Outcome<Unit>)
    returns (r: Result<Unit>, sent: Option<Request<Body>>)
    ensures scheme.Err? ==> r == Err(SchemeNotFound) && sent == None
    ensures scheme.Ok? && Found(listed, role, AsGetRequest(req)).Err? ==>
      r == Err("failed to find perm. scheme grant") && sent == None
    ensures scheme.Ok? && Found(listed, role, AsGetRequest(req)).Ok? ==>
      r == Complete(reply, SendError)
    ensures sent.Some? <==> scheme.Ok? && Found(listed, role, AsGetRequest(req)).Ok? && !reply.BuildFailed?
    ensures sent.Some? ==>
      sent.value == Request(DELETE, GrantUrl(conn, scheme.value.id, Found(listed, role, AsGetRequest(req)).value.id),
                            [Authorization(conn)], None)
  {
    if scheme.Err? {
      return Err(SchemeNotFound), None;
    }
    var foundGrant := Get(listed, role, AsGetRequest(req));
    if foundGrant.Err? {
      return Err("failed to find perm. scheme grant"), None;
    }
    var url := GrantUrl(conn, scheme.value.id, foundGrant.value.id);
    sent := Sent(Request(DELETE, url, [Authorization(conn)], None), reply);
    r := Complete(reply, SendError);
  }

  /** When the server lists holder parameters as decimal ids, the string
      comparison in Matches is exactly a comparison of ids. */
  lemma MatchesComparesIds(g: Grant, req: GetRequest, roleId: Int64, listedId: Int64)
    requires g.holder.parameter == FormatInt(listedId)
    ensures Matches(g, req, roleId) <==>
      g.permission == req.permission && ToLower(g.holder.kind) == ToLower(req.holder.kind) && listedId == roleId
  {
    FormatInjective(listedId, roleId);
  }

  /** The holder type is compared without regard to ASCII case: lower-casing
      the requested type changes nothing. */
  lemma HolderTypeIgnoresCase(g: Grant, req: GetRequest, roleId: Int64)
    ensures Matches(g, req, roleId) <==>
      Matches(g, req.(holder := req.holder.(kind := ToLower(req.holder.kind))), roleId)
  {
  }

  /** The permission key, unlike the holder type, must match exactly: a
      listed permission that differs from the requested one in any way, case
      included, never matches. */
  lemma PermissionIsCaseSensitive(g: Grant, req: GetRequest, roleId: Int64)
    requires g.permission != req.permission
    ensures !Matches(g, req, roleId)
    ensures Found(Ok([g]), Ok(ProjectRoleService.ProjectRole(roleId, "", "")), req) == Err(GrantNotFound)
  {
  }

  /** Two listed grants matching the same request: Get returns the later one,
      its id and all, with the caller's holder parameter. */
  lemma LaterDuplicateWins(g1: Grant, g2: Grant, role: ProjectRole, req: GetRequest)
    requires Matches(g1, req, role.id) && Matches(g2, req, role.id) && req.permission != ""
    ensures Found(Ok([g1, g2]), Ok(role), req) == Ok(WithParameter(g2, req.holder.parameter))
    ensures Found(Ok([g1, g2]), Ok(role), req).value.id == g2.id
  {
  }

  /** Create followed by Get: if the scheme's listing shows the posted grant
      the way the server reports it (the role id as decimal text) and nothing
      later in the listing matches, Get with the same permission and holder
      finds that grant and hands back the caller's role name, although the
      wire only ever carried the id. */
  lemma CreatedGrantIsFound(req: CreateRequest, role: ProjectRole, s: seq<Grant>, i: int)
    requires req.permission != "" && 0 <= i < |s|
    requires PostBody(req, role.id) == CreateBody(s[i].permission, ApiHolder(s[i].holder.kind, role.id))
    requires s[i].holder.parameter == FormatInt(role.id)
    requires forall j :: i < j < |s| ==> !Matches(s[j], GetRequest(req.permissionSchemeName, req.permission, req.holder), role.id)
    ensures
      var found := Found(Ok(s), Ok(role), GetRequest(req.permissionSchemeName, req.permission, req.holder));
      && found == Ok(WithParameter(s[i], req.holder.parameter))
      && found.value.id == s[i].id
      && found.value.holder.parameter == req.holder.parameter
  {
  }

  /** Joining two texts with "/permission/" can be undone when the first
      holds no `/`. */
  lemma SplitGrantPath(a1: string, b1: string, a2: string, b2: string)
    requires forall i :: 0 <= i < |a1| ==> a1[i] != '/'
    requires forall i :: 0 <= i < |a2| ==> a2[i] != '/'
    requires a1 + "/permission/" + b1 == a2 + "/permission/" + b2
    ensures a1 == a2 && b1 == b2
  {
    var rest1, rest2 := "permission/" + b1, "permission/" + b2;
    assert a1 + "/permission/" + b1 == a1 + ['/'] + rest1;
    assert a2 + "/permission/" + b2 == a2 + ['/'] + rest2;
    SplitAtSeparator(a1, rest1, a2, rest2, '/');
    CancelPrefix("permission/", b1, b2);
  }

  /** The path after ".../permissionscheme/" determines both ids: the
      scheme id's text holds no `/`, so the first `/` ends it. */
  lemma GrantPathInjective(scheme1: Int64, grant1: Int64, scheme2: Int64, grant2: Int64)
    requires GrantPath(scheme1, grant1) == GrantPath(scheme2, grant2)
    ensures scheme1 == scheme2 && grant1 == grant2
  {
    SplitGrantPath(FormatInt(scheme1), FormatInt(grant1), FormatInt(scheme2), FormatInt(grant2));
    FormatInjective(scheme1, scheme2);
    FormatInjective(grant1, grant2);
  }

  /** The DELETE URL names one grant: equal URLs mean equal scheme ids and
      equal grant ids. */
  lemma GrantUrlInjective(conn: JiraServerBase, scheme1: Int64, grant1: Int64, scheme2: Int64, grant2: Int64)
    ensures GrantUrl(conn, scheme1, grant1) == GrantUrl(conn, scheme2, grant2) <==>
      scheme1 == scheme2 && grant1 == grant2
  {
    var path1, path2 := GrantPath(scheme1, grant1), GrantPath(scheme2, grant2);
    ApiUrlInjective(conn, "permissionscheme/" + path1, "permissionscheme/" + path2);
    if "permissionscheme/" + path1 == "permissionscheme/" + path2 {
      CancelPrefix("permissionscheme/", path1, path2);
      GrantPathInjective(scheme1, grant1, scheme2, grant2);
    }
  }
}
