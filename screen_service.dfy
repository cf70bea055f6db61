/** Screens: Get asks the server for screens matching a query string and takes
    the first one it returns; Update and Delete resolve the screen through Get
    and address it by its decimal id. */
module ScreenService {

  import opened Wrappers
  import opened Decimal
  import opened Http
  import opened UrlEscape

  datatype Screen = Screen(id: Int64, name: string, description: string)

  datatype GetRequest = GetRequest(name: string)
  datatype UpdateRequest = UpdateRequest(name: string, description: string)
  datatype DeleteRequest = DeleteRequest(name: string)

  /** The JSON object Update sends: the caller's request as given. */
  datatype Body = UpdateBody(name: string, description: string)

  /** Get reports a failed listing and an empty one with this text. */
  const NotFound := "failed to list roles"

  /** GET https://{domain}/rest/api/2/screens?querystring={escaped name} */
  function ListRequest(conn: JiraServerBase, name: string): Request<Body>
  {
    Request(GET, ApiUrl(conn, "screens?querystring=" + QueryEscape(name)), [Authorization(conn), AcceptJson], None)
  }

  /** List: send ListRequest and decode the answer; a failed send is
      reported as "http request returned error". */
  function List(conn: JiraServerBase, name: string, reply: Outcome<seq<Screen>>): (e: Effect<seq<Screen>, Body>)
    ensures e.sent.Some? <==> !reply.BuildFailed?
    ensures e.sent.Some? ==>
      && e.sent.value.verb == GET
      && e.sent.value.url == ApiUrl(conn, "screens?querystring=" + QueryEscape(name))
      && e.sent.value.headers == [Authorization(conn), AcceptJson]
    ensures e.result.Ok? <==> reply.Responded? && reply.payload.Decoded?
    ensures e.result.Ok? ==> e.result.value == reply.payload.value
    ensures reply.BuildFailed? ==> e.result == Err(BuildError)
    ensures reply.SendFailed? ==> e.result == Err("http request returned error")
    ensures reply.Responded? && reply.payload.Unreadable? ==> e.result == Err(ReadError)
    ensures reply.Responded? && reply.payload.Malformed? ==> e.result == Err(DecodeError)
  {
    Effect(Decode(reply, "http request returned error"), Sent(ListRequest(conn, name), reply))
  }

  /** Get, given what List returned for the requested name: the first screen
      of the answer, whatever its name, or an error when there is none. */
  function Get(listed: Result<seq<Screen>>, req: GetRequest): (r: Result<Screen>)
    ensures r.Err? <==> listed.Err? || |listed.value| == 0
    ensures r.Err? ==> r.msg == NotFound
    ensures r.Ok? ==> r.value == listed.value[0]
  {
    if listed.Err? then Err(NotFound)
    else if |listed.value| == 0 then Err(NotFound)
    else Ok(listed.value[0])
  }

  /** Update: resolve the screen, then PUT the caller's request to
      "screens/" followed by the decimal id of the first listed screen. */
  function Update(conn: JiraServerBase, listed: Result<seq<Screen>>, req: UpdateRequest,
                  reply: Outcome<Screen>): (e: Effect<Screen, Body>)
    ensures Get(listed, GetRequest(req.name)).Err? ==> e == Effect(Err(NotFound), None)
    ensures Get(listed, GetRequest(req.name)).Ok? ==> e.result == Decode(reply, "error result from http request")
    ensures e.sent.Some? <==> listed.Ok? && |listed.value| > 0 && !reply.BuildFailed?
    ensures e.sent.Some? ==>
      && e.sent.value.verb == PUT
      && e.sent.value.url == ApiUrl(conn, "screens/" + FormatInt(listed.value[0].id))
      && e.sent.value.headers == [Authorization(conn), ContentTypeJson]
      && e.sent.value.body == Some(UpdateBody(req.name, req.description))
  {
    var foundScreen := Get(listed, GetRequest(req.name));
    if foundScreen.Err? then Effect(Err(foundScreen.msg), None)
    else
      var url := ApiUrl(conn, "screens/" + FormatInt(foundScreen.value.id));
      var request := Request(PUT, url, [Authorization(conn), ContentTypeJson], Some(UpdateBody(req.name, req.description)));
      Effect(Decode(reply, "error result from http request"), Sent(request, reply))
  }

  /** Delete: resolve the screen, then DELETE its item URL; any answer from
      the server, whatever its status, is a success. */
  function Delete(conn: JiraServerBase, listed: Result<seq<Screen>>, req: DeleteRequest,
                  reply: Outcome<Unit>): (e: Effect<Unit, Body>)
    ensures Get(listed, GetRequest(req.name)).Err? ==> e == Effect(Err(NotFound), None)
    ensures Get(listed, GetRequest(req.name)).Ok? ==> e.result == Complete(reply, "error result from http request")
    ensures e.sent.Some? <==> listed.Ok? && |listed.value| > 0 && !reply.BuildFailed?
    ensures e.sent.Some? ==>
      && e.sent.value.verb == DELETE
      && e.sent.value.url == ApiUrl(conn, "screens/" + FormatInt(listed.value[0].id))
      && e.sent.value.headers == [Authorization(conn)]
      && e.sent.value.body == None
  {
    var foundScreen := Get(listed, GetRequest(req.name));
    if foundScreen.Err? then Effect(Err(foundScreen.msg), None)
    else
      var url := ApiUrl(conn, "screens/" + FormatInt(foundScreen.value.id));
      Effect(Complete(reply, "error result from http request"), Sent(Request(DELETE, url, [Authorization(conn)], None), reply))
  }

  /** The name the caller asked for is never compared: a screen with another
      name that the server lists first is the one Get returns. */
  lemma FirstScreenWhateverItsName(listed: seq<Screen>, name: string)
    requires |listed| > 0 && listed[0].name != name
    ensures Get(Ok(listed), GetRequest(name)).Ok? && Get(Ok(listed), GetRequest(name)).value.name != name
  {
  }

  /** Text appended after a prefix that holds only escaped-safe characters
      adds no `&`, `#` or `=`. */
  lemma SafeSuffix(prefix: string, escaped: string)
    requires forall i :: 0 <= i < |escaped| ==> IsEscapedChar(escaped[i])
    ensures forall i :: |prefix| <= i < |prefix + escaped| ==>
      (prefix + escaped)[i] != '&' && (prefix + escaped)[i] != '#' && (prefix + escaped)[i] != '='
  {
    forall i | |prefix| <= i < |prefix + escaped|
      ensures (prefix + escaped)[i] != '&' && (prefix + escaped)[i] != '#' && (prefix + escaped)[i] != '='
    {
      assert (prefix + escaped)[i] == escaped[i - |prefix|];
    }
  }

  /** The escaped name cannot leave the query-string parameter: nothing after
      "?querystring=" is an `&`, `#` or `=`, whatever the name. */
  lemma {:induction false} ListQueryIsOneParameter(conn: JiraServerBase, name: string)
    ensures
      var prefix := ApiUrl(conn, "screens?querystring=");
      var url := ListRequest(conn, name).url;
      && |prefix| <= |url| && url[..|prefix|] == prefix
      && forall i :: |prefix| <= i < |url| ==> url[i] != '&' && url[i] != '#' && url[i] != '='
  {
    var prefix := ApiUrl(conn, "screens?querystring=");
    var escaped := QueryEscape(name);
    var url := ListRequest(conn, name).url;
    assert url == prefix + escaped;
    QueryEscapeIsSafe(name);
    SafeSuffix(prefix, escaped);
  }
}
