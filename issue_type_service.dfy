/** Issue types: Get lists every type and keeps the first one with the
    requested name; Create posts the type and then sets its description and
    avatar through Update; Update and Delete resolve the type by name and
    address it by its string id. */
module IssueTypeService {

  import opened Wrappers
  import opened Decimal
  import opened Http
  import Lookup

  datatype IssueType = IssueType(id: string, name: string, description: string, avatarId: Int64)

  /** The Go zero value, which Get starts from and returns when nothing matches. */
  const Zero := IssueType("", "", "", 0)

  datatype GetRequest = GetRequest(name: string)
  /** `kind` is the JSON field `type`; the avatar id is never serialised. */
  datatype CreateRequest = CreateRequest(name: string, description: string, kind: string, avatarId: Int64)
  /** The id is never serialised. */
  datatype UpdateRequest = UpdateRequest(id: string, name: string, description: string, avatarId: Int64)
  datatype DeleteRequest = DeleteRequest(name: string)

  /** The JSON objects Create and Update send. */
  datatype Body =
    | CreateBody(name: string, description: string, kind: string)
    | UpdateBody(name: string, description: string, avatarId: Int64)

  /** The type discriminator Create always sends. */
  const Standard := "standard"

  /** GET https://{domain}/rest/api/2/issuetype, with no Accept header. */
  function ListRequest(conn: JiraServerBase): Request<Body>
  {
    Request(GET, ApiUrl(conn, "issuetype"), [Authorization(conn)], None)
  }

  /** List: send ListRequest and decode the answer; a failed send is
      reported as "http request returned error". */
  function List(conn: JiraServerBase, reply: Outcome<seq<IssueType>>): (e: Effect<seq<IssueType>, Body>)
    ensures e.sent.Some? <==> !reply.BuildFailed?
    ensures e.sent.Some? ==>
      && e.sent.value.verb == GET
      && e.sent.value.url == ApiUrl(conn, "issuetype")
      && e.sent.value.headers == [Authorization(conn)]
    ensures e.result.Ok? <==> reply.Responded? && reply.payload.Decoded?
    ensures e.result.Ok? ==> e.result.value == reply.payload.value
    ensures reply.BuildFailed? ==> e.result == Err(BuildError)
    ensures reply.SendFailed? ==> e.result == Err("http request returned error")
    ensures reply.Responded? && reply.payload.Unreadable? ==> e.result == Err(ReadError)
    ensures reply.Responded? && reply.payload.Malformed? ==> e.result == Err(DecodeError)
  {
    Effect(Decode(reply, "http request returned error"), Sent(ListRequest(conn), reply))
  }

  /** The ladder of Create and Update, which hand the HTTP library's own error
      back when building or sending fails. */
  function Relay(reply: Outcome<IssueType>): (r: Result<IssueType>)
    ensures r.Ok? <==> reply.Responded? && reply.payload.Decoded?
    ensures r.Ok? ==> r.value == reply.payload.value
    ensures reply.BuildFailed? || reply.SendFailed? ==> r == Err(reply.reason)
    ensures reply.Responded? && reply.payload.Unreadable? ==> r == Err(ReadError)
    ensures reply.Responded? && reply.payload.Malformed? ==> r == Err(DecodeError)
  {
    match reply
    case BuildFailed(e) => Err(e)
    case SendFailed(e) => Err(e)
    case Responded(_, Unreadable) => Err(ReadError)
    case Responded(_, Malformed) => Err(DecodeError)
    case Responded(_, Decoded(v)) => Ok(v)
  }

  function HasName(name: string): IssueType -> bool
  {
    (it: IssueType) => it.name == name
  }

  /** `i` is the first position of the listing holding the name. */
  predicate IsFirstNamed(s: seq<IssueType>, name: string, i: int)
  {
    0 <= i < |s| && s[i].name == name && forall j :: 0 <= j < i ==> s[j].name != name
  }

  /** What Get returns, given what List returned: List's error unchanged, or
      the first type with the requested name; a type that is not found (or
      found with an empty id) comes back as the zero value with no error. */
  function Selected(listed: Result<seq<IssueType>>, name: string): (r: Result<IssueType>)
    ensures listed.Err? ==> r == Err(listed.msg)
    ensures listed.Ok? ==> r.Ok?
    ensures listed.Ok? ==>
      (r.value.id != "" <==> exists i :: IsFirstNamed(listed.value, name, i) && listed.value[i].id != "")
    ensures r.Ok? && r.value.id != "" ==>
      exists i :: IsFirstNamed(listed.value, name, i) && r.value == listed.value[i]
    ensures r.Ok? && r.value.id == "" ==> r.value == Zero
  {
    if listed.Err? then Err(listed.msg)
    else
      var found := Lookup.FirstOr(listed.value, HasName(name), Zero);
      if found.id == "" then Ok(Zero) else Ok(found)
  }

  /** Get: list the types, stop at the first name match, and test its id. */
  method Get(listed: Result<seq<IssueType>>, req: GetRequest) returns (r: Result<IssueType>)
    ensures r == Selected(listed, req.name)
  {
    if listed.Err? {
      return Err(listed.msg);
    }
    var foundIssueType := Lookup.ScanFirst(listed.value, HasName(req.name), Zero);
    if foundIssueType.id == "" {
      return Ok(Zero);
    }
    return Ok(foundIssueType);
  }

  /** Update: resolve the type by name, then PUT name, description and avatar
      id to "issuetype/" followed by the id Get gave, which is empty when the
      name was not listed. */
  method Update(conn: JiraServerBase, listed: Result<seq<IssueType>>, req: UpdateRequest,
                reply: Outcome<IssueType>)
    returns (r: Result<IssueType>, sent: Option<Request<Body>>)
    ensures Selected(listed, req.name).Err? ==> r == Selected(listed, req.name) && sent == None
    ensures Selected(listed, req.name).Ok? ==> r == Relay(reply)
    ensures sent.Some? <==> Selected(listed, req.name).Ok? && !reply.BuildFailed?
    ensures sent.Some? ==>
      && sent.value.verb == PUT
      && sent.value.url == ApiUrl(conn, "issuetype/" + Selected(listed, req.name).value.id)
      && sent.value.headers == [Authorization(conn), ContentTypeJson]
      && sent.value.body == Some(UpdateBody(req.name, req.description, req.avatarId))
    ensures listed.Ok? && (forall i :: 0 <= i < |listed.value| ==> listed.value[i].name != req.name)
            && !reply.BuildFailed? ==>
      sent.Some? && sent.value.url == ApiUrl(conn, "issuetype/")
  {
    var foundIssueType := Get(listed, GetRequest(req.name));
    if foundIssueType.Err? {
      return foundIssueType, None;
    }
    var url := ApiUrl(conn, "issuetype/" + foundIssueType.value.id);
    var body := UpdateBody(req.name, req.description, req.avatarId);
    sent := Sent(Request(PUT, url, [Authorization(conn), ContentTypeJson], Some(body)), reply);
    r := Relay(reply);
  }

  /** Delete: resolve the type by name, then DELETE "issuetype/" followed by
      its id; any answer from the server is a success. */
  method Delete(conn: JiraServerBase, listed: Result<seq<IssueType>>, req: DeleteRequest,
                reply: Outcome<Unit>)
    returns (r: Result<Unit>, sent: Option<Request<Body>>)
    ensures listed.Err? ==> r == Err(listed.msg) && sent == None
    ensures listed.Ok? ==> r == Complete(reply, "http request returned error")
    ensures sent.Some? <==> listed.Ok? && !reply.BuildFailed?
    ensures sent.Some? ==>
      && sent.value.verb == DELETE
      && sent.value.url == ApiUrl(conn, "issuetype/" + Selected(listed, req.name).value.id)
      && sent.value.headers == [Authorization(conn)]
      && sent.value.body == None
  {
    var foundIssueType := Get(listed, GetRequest(req.name));
    if foundIssueType.Err? {
      return Err(foundIssueType.msg), None;
    }
    var url := ApiUrl(conn, "issuetype/" + foundIssueType.value.id);
    sent := Sent(Request(DELETE, url, [Authorization(conn)], None), reply);
    r := Complete(reply, "http request returned error");
  }

  /** Create: force the type to "standard", POST name, description and type,
      then call Update with the caller's name, description and avatar id. The
      POST's decoded answer is the result; a failed Update is reported as
      "error unmarshalling response body". `listed` is what the List inside
      Update's Get returns, `putReply` the answer to Update's PUT. */
  method Create(conn: JiraServerBase, req: CreateRequest, postReply: Outcome<IssueType>,
                listed: Result<seq<IssueType>>, putReply: Outcome<IssueType>)
    returns (r: Result<IssueType>, sent: seq<Request<Body>>)
    ensures |sent| <= 2
    ensures postReply.BuildFailed? <==> sent == []
    ensures sent != [] ==>
      sent[0] == Request(POST, ApiUrl(conn, "issuetype"), [Authorization(conn), ContentTypeJson],
                         Some(CreateBody(req.name, req.description, Standard)))
    ensures Relay(postReply).Err? ==> r == Relay(postReply) && |sent| <= 1
    ensures Relay(postReply).Ok? ==>
      (|sent| == 2 <==> Selected(listed, req.name).Ok? && !putReply.BuildFailed?)
    ensures |sent| == 2 ==>
      && sent[1].verb == PUT
      && sent[1].url == ApiUrl(conn, "issuetype/" + Selected(listed, req.name).value.id)
      && sent[1].headers == [Authorization(conn), ContentTypeJson]
      && sent[1].body == Some(UpdateBody(req.name, req.description, req.avatarId))
    ensures Relay(postReply).Ok? ==>
      (r.Ok? <==> Selected(listed, req.name).Ok? && Relay(putReply).Ok?)
    ensures Relay(postReply).Ok? && r.Err? ==> r.msg == DecodeError
    ensures r.Ok? ==> r == Relay(postReply)
  {
    var model := req;
    model := model.(kind := Standard);
    var post := Request(POST, ApiUrl(conn, "issuetype"), [Authorization(conn), ContentTypeJson],
                        Some(CreateBody(model.name, model.description, model.kind)));
    sent := if postReply.BuildFailed? then [] else [post];
    var result := Relay(postReply);
    if result.Err? {
      return result, sent;
    }
    var updated, put := Update(conn, listed, UpdateRequest("", model.name, model.description, model.avatarId), putReply);
    if put.Some? {
      sent := sent + [put.value];
    }
    if updated.Err? {
      return Err(DecodeError), sent;
    }
    return result, sent;
  }
}
