/** Permission schemes: Get lists every scheme and keeps the last one whose id
    matches; Update and Delete resolve the scheme through Get and then address
    it by its decimal id. */
module PermissionSchemeService {

  import opened Wrappers
  import opened Decimal
  import opened Http
  import Lookup

  datatype PermissionScheme = PermissionScheme(id: Int64, name: string, description: string)

  /** The Go zero value, which Get starts from. */
  const Zero := PermissionScheme(0, "", "")

  /** Get's request carries a name too, but only the id is compared. */
  datatype GetRequest = GetRequest(id: Int64, name: string)
  datatype UpdateRequest = UpdateRequest(id: Int64, name: string, description: string)
  datatype DeleteRequest = DeleteRequest(id: Int64)

  /** The JSON object Update sends. */
  datatype Body = UpdateBody(name: string, description: string)

  /** Get reports both a failed listing and a missing scheme with this text. */
  const NotFound := "failed to list roles"

  /** GET https://{domain}/rest/api/2/permissionscheme */
  function ListRequest(conn: JiraServerBase): Request<Body>
  {
    Request(GET, ApiUrl(conn, "permissionscheme"), [Authorization(conn), AcceptJson], None)
  }

  /** List: send ListRequest and decode the answer; a failed send is
      reported as "http request returned error". */
  function List(conn: JiraServerBase, reply: Outcome<seq<PermissionScheme>>): (e: Effect<seq<PermissionScheme>, Body>)
    ensures e.sent.Some? <==> !reply.BuildFailed?
    ensures e.sent.Some? ==>
      && e.sent.value.verb == GET
      && e.sent.value.url == ApiUrl(conn, "permissionscheme")
      && e.sent.value.headers == [Authorization(conn), AcceptJson]
    ensures e.result.Ok? <==> reply.Responded? && reply.payload.Decoded?
    ensures e.result.Ok? ==> e.result.value == reply.payload.value
    ensures reply.BuildFailed? ==> e.result == Err(BuildError)
    ensures reply.SendFailed? ==> e.result == Err("http request returned error")
    ensures reply.Responded? && reply.payload.Unreadable? ==> e.result == Err(ReadError)
    ensures reply.Responded? && reply.payload.Malformed? ==> e.result == Err(DecodeError)
  {
    Effect(Decode(reply, "http request returned error"), Sent(ListRequest(conn), reply))
  }

  function HasId(id: Int64): PermissionScheme -> bool
  {
    (ps: PermissionScheme) => ps.id == id
  }

  /** `i` is the last position of the listing holding the id. */
  predicate IsLastWithId(s: seq<PermissionScheme>, id: Int64, i: int)
  {
    0 <= i < |s| && s[i].id == id && forall j :: i < j < |s| ==> s[j].id != id
  }

  /** What Get returns, given what List returned: the last scheme with the
      requested id, reported missing when that scheme's name is empty (the zero
      value stands for "nothing matched"). */
  function Selected(listed: Result<seq<PermissionScheme>>, id: Int64): (r: Result<PermissionScheme>)
    ensures listed.Err? ==> r == Err(NotFound)
    ensures r.Err? ==> r.msg == NotFound
    ensures listed.Ok? ==>
      (r.Ok? <==> exists i :: IsLastWithId(listed.value, id, i) && listed.value[i].name != "")
    ensures r.Ok? ==> listed.Ok? && exists i :: IsLastWithId(listed.value, id, i) && r.value == listed.value[i]
  {
    if listed.Err? then Err(NotFound)
    else
      var found := Lookup.LastOr(listed.value, HasId(id), Zero);
      if found.name == "" then Err(NotFound) else Ok(found)
  }

  /** Get: list the schemes, scan them all, and test the selection's name. */
  method Get(listed: Result<seq<PermissionScheme>>, req: GetRequest) returns (r: Result<PermissionScheme>)
    ensures r == Selected(listed, req.id)
  {
    if listed.Err? {
      return Err(NotFound);
    }
    var found := Lookup.ScanLast(listed.value, HasId(req.id), Zero);
    if found.name == "" {
      return Err(NotFound);
    }
    return Ok(found);
  }

  /** Update: resolve the scheme, then PUT the scheme's own name together with
      the caller's description to the scheme's item URL. */
  method Update(conn: JiraServerBase, listed: Result<seq<PermissionScheme>>, req: UpdateRequest,
                reply: Outcome<PermissionScheme>)
    returns (r: Result<PermissionScheme>, sent: Option<Request<Body>>)
    ensures Selected(listed, req.id).Err? ==> r == Selected(listed, req.id) && sent == None
    ensures Selected(listed, req.id).Ok? ==> r == Decode(reply, "error result from http request")
    ensures sent.Some? <==> Selected(listed, req.id).Ok? && !reply.BuildFailed?
    ensures sent.Some? ==>
      && sent.value.verb == PUT
      && sent.value.url == ApiUrl(conn, "permissionscheme/" + FormatInt(req.id))
      && sent.value.headers == [Authorization(conn), ContentTypeJson]
      && sent.value.body == Some(UpdateBody(Selected(listed, req.id).value.name, req.description))
  {
    var permissionScheme := Get(listed, GetRequest(req.id, ""));
    if permissionScheme.Err? {
      return permissionScheme, None;
    }
    var found := permissionScheme.value;
    var url := ApiUrl(conn, "permissionscheme/" + FormatInt(found.id));
    var body := UpdateBody(found.name, req.description);
    sent := Sent(Request(PUT, url, [Authorization(conn), ContentTypeJson], Some(body)), reply);
    r := Decode(reply, "error result from http request");
  }

  /** Delete: the error of the lookup is overwritten before it is tested, so a
      scheme that is not found is deleted as id 0; any answer counts as success. */
  method Delete(conn: JiraServerBase, listed: Result<seq<PermissionScheme>>, req: DeleteRequest,
                reply: Outcome<Unit>)
    returns (r: Result<Unit>, sent: Option<Request<Body>>)
    ensures r.Ok? <==> reply.Responded?
    ensures reply.BuildFailed? ==> r == Err(BuildError)
    ensures reply.SendFailed? ==> r == Err("error result from http request")
    ensures sent.Some? <==> !reply.BuildFailed?
    ensures sent.Some? ==>
      && sent.value.verb == DELETE
      && sent.value.url == ApiUrl(conn, "permissionscheme/" + FormatInt(if Selected(listed, req.id).Ok? then req.id else 0))
      && sent.value.headers == [Authorization(conn)]
      && sent.value.body == None
  {
    var permissionScheme := Get(listed, GetRequest(req.id, ""));
    var found := if permissionScheme.Ok? then permissionScheme.value else Zero;
    var url := ApiUrl(conn, "permissionscheme/" + FormatInt(found.id));
    sent := Sent(Request(DELETE, url, [Authorization(conn)], None), reply);
    r := Complete(reply, "error result from http request");
  }

  /** Schemes sharing an id: the one listed last is the one Get returns. */
  lemma LaterDuplicateWins(a: PermissionScheme, b: PermissionScheme)
    requires a.id == b.id && b.name != ""
    ensures Selected(Ok([a, b]), a.id) == Ok(b)
  {
  }

  /** A listed scheme with an empty name is indistinguishable from the zero
      value: Get reports it missing even though its id matched. */
  lemma EmptyNameIsNotFound(s: seq<PermissionScheme>, id: Int64, i: int)
    requires IsLastWithId(s, id, i) && s[i].name == ""
    ensures Selected(Ok(s), id) == Err(NotFound)
  {
  }
}
