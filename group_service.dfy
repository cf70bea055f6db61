/** Groups: Get asks the group picker for the name and takes the first group it
    returns; Delete addresses the group by its name, with no lookup. */
module GroupService {

  import opened Wrappers
  import opened Http

  datatype Group = Group(name: string)

  /** The Go zero value, which Get returns for an empty answer. */
  const Zero := Group("")

  datatype GetRequest = GetRequest(name: string)
  datatype DeleteRequest = DeleteRequest(name: string)

  /** GET https://{domain}/rest/api/2/groups/picker?query={name}: the name is
      appended as it is, without escaping, and no Accept header is sent. */
  function ListRequest(conn: JiraServerBase, groupName: string): Request<Unit>
  {
    Request(GET, ApiUrl(conn, "groups/picker?query=" + groupName), [Authorization(conn)], None)
  }

  /** List: send ListRequest and decode the answer; a failed send is
      reported as "http request returned error". */
  function List(conn: JiraServerBase, groupName: string, reply: Outcome<seq<Group>>): (e: Effect<seq<Group>, Unit>)
    ensures e.sent.Some? <==> !reply.BuildFailed?
    ensures e.sent.Some? ==>
      && e.sent.value.verb == GET
      && e.sent.value.url == ApiUrl(conn, "groups/picker?query=" + groupName)
      && e.sent.value.headers == [Authorization(conn)]
    ensures e.result.Ok? <==> reply.Responded? && reply.payload.Decoded?
    ensures e.result.Ok? ==> e.result.value == reply.payload.value
    ensures reply.BuildFailed? ==> e.result == Err(BuildError)
    ensures reply.SendFailed? ==> e.result == Err("http request returned error")
    ensures reply.Responded? && reply.payload.Unreadable? ==> e.result == Err(ReadError)
    ensures reply.Responded? && reply.payload.Malformed? ==> e.result == Err(DecodeError)
  {
    Effect(Decode(reply, "http request returned error"), Sent(ListRequest(conn, groupName), reply))
  }

  /** Get, given what List returned for the requested name: List's error
      unchanged, else the first group of the answer whatever its name; an empty
      answer is not an error but the zero-valued group. */
  function Get(listed: Result<seq<Group>>, req: GetRequest): (r: Result<Group>)
    ensures listed.Err? ==> r == Err(listed.msg)
    ensures listed.Ok? ==> r.Ok?
    ensures listed.Ok? && |listed.value| == 0 ==> r.value == Zero
    ensures listed.Ok? && |listed.value| > 0 ==> r.value == listed.value[0]
  {
    if listed.Err? then Err(listed.msg)
    else if |listed.value| == 0 then Ok(Zero)
    else Ok(listed.value[0])
  }

  /** Delete: DELETE https://{domain}/rest/api/2/group?groupname={name}, the
      name unescaped; once the body is read the group counts as deleted,
      whatever the status. */
  function Delete(conn: JiraServerBase, req: DeleteRequest, reply: Outcome<Unit>): (e: Effect<Unit, Unit>)
    ensures e.result.Ok? <==> reply.Responded? && !reply.payload.Unreadable?
    ensures reply.BuildFailed? ==> e.result == Err(BuildError)
    ensures reply.SendFailed? ==> e.result == Err("http request returned error")
    ensures reply.Responded? && reply.payload.Unreadable? ==> e.result == Err(ReadError)
    ensures e.sent.Some? <==> !reply.BuildFailed?
    ensures e.sent.Some? ==>
      && e.sent.value.verb == DELETE
      && e.sent.value.url == ApiUrl(conn, "group?groupname=" + req.name)
      && e.sent.value.headers == [Authorization(conn)]
      && e.sent.value.body == None
  {
    var request := Request(DELETE, ApiUrl(conn, "group?groupname=" + req.name), [Authorization(conn)], None);
    var result :=
      match reply
      case BuildFailed(_) => Err(BuildError)
      case SendFailed(_) => Err("http request returned error")
      case Responded(_, Unreadable) => Err(ReadError)
      case Responded(_, _) => Ok(Unit);
    Effect(result, Sent(request, reply))
  }

  /** Whatever was asked, an empty answer and an answer whose first group
      has an empty name are indistinguishable: both give the zero-valued
      group with no error. */
  lemma EmptyAnswerLooksLikeUnnamedGroup(s: seq<Group>, req: GetRequest)
    requires s != [] && s[0].name == ""
    ensures Get(Ok([]), req) == Get(Ok(s), req) == Ok(Zero)
  {
  }

  /** Because the name is not escaped, a name holding `&` adds a second query
      parameter to the picker request. */
  lemma RawNameCanAddParameter(conn: JiraServerBase, groupName: string)
    requires '&' in groupName
    ensures
      var prefix := ApiUrl(conn, "groups/picker?query=");
      var url := ListRequest(conn, groupName).url;
      && |prefix| < |url| && url[..|prefix|] == prefix
      && url[|prefix|..] == groupName && '&' in url[|prefix|..]
  {
    var prefix := ApiUrl(conn, "groups/picker?query=");
    assert ListRequest(conn, groupName).url == prefix + groupName;
  }
}
