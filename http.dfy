/** The connection every service carries, the requests the services build,
    and the outcomes of sending them. The transport itself (http.NewRequest,
    client.Do with its 30-second timeout, io.ReadAll, json.Unmarshal) is not
    modelled: its outcome is an input of each operation. */
module Http {

  import opened Wrappers
  import opened Decimal

  /** The server connection (domain, authorisation scheme and token) each
      service is constructed with. */
  datatype JiraServerBase = JiraServerBase(domain: string, authorizationMethod: string, token: string)

  datatype Method = GET | POST | PUT | DELETE

  datatype Header = Header(name: string, value: string)

  /** A request as handed to the HTTP client; `body` is the already-encoded
      JSON object, `None` for requests without a body. */
  datatype Request<B> = Request(verb: Method, url: string, headers: seq<Header>, body: Option<B>)

  /** What reading and decoding a response body gave. */
  datatype Payload<T> = Unreadable | Malformed | Decoded(value: T)

  /** What happened to one request: http.NewRequest failed (nothing was sent),
      client.Do failed, or the server answered with some status, which no
      service inspects. */
  datatype Outcome<T> =
    | BuildFailed(reason: string)
    | SendFailed(reason: string)
    | Responded(status: int, payload: Payload<T>)

  /** The result of an operation together with the request it put on the
      wire, if any. */
  datatype Effect<T, B> = Effect(result: Result<T>, sent: Option<Request<B>>)

  const BuildError := "error building http request"
  const ReadError := "error reading response body"
  const DecodeError := "error unmarshalling response body"

  /** "https://" + domain + "/rest/api/2/" + path. */
  function ApiUrl(conn: JiraServerBase, path: string): string
  {
    "https://" + conn.domain + "/rest/api/2/" + path
  }

  /** Authorization: <scheme> <token>, sent with every request. */
  function Authorization(conn: JiraServerBase): Header
  {
    Header("Authorization", conn.authorizationMethod + " " + conn.token)
  }

  const AcceptJson := Header("Accept", "application/json")
  const ContentTypeJson := Header("Content-Type", "application/json")

  /** The request reaches the server unless http.NewRequest refused it. */
  function Sent<B, T>(request: Request<B>, outcome: Outcome<T>): (sent: Option<Request<B>>)
    ensures sent.Some? <==> !outcome.BuildFailed?
    ensures sent.Some? ==> sent.value == request
  {
    if outcome.BuildFailed? then None else Some(request)
  }

  /** The error ladder shared by the operations that decode a response: a
      failed build, a failed send (whose message each operation chooses), an
      unreadable body, a body that does not decode, or the decoded value. */
  function Decode<T>(outcome: Outcome<T>, sendError: string): (r: Result<T>)
    ensures r.Ok? <==> outcome.Responded? && outcome.payload.Decoded?
    ensures r.Ok? ==> r.value == outcome.payload.value
    ensures outcome.BuildFailed? ==> r == Err(BuildError)
    ensures outcome.SendFailed? ==> r == Err(sendError)
    ensures outcome.Responded? && outcome.payload.Unreadable? ==> r == Err(ReadError)
    ensures outcome.Responded? && outcome.payload.Malformed? ==> r == Err(DecodeError)
  {
    match outcome
    case BuildFailed(_) => Err(BuildError)
    case SendFailed(_) => Err(sendError)
    case Responded(_, Unreadable) => Err(ReadError)
    case Responded(_, Malformed) => Err(DecodeError)
    case Responded(_, Decoded(v)) => Ok(v)
  }

  /** The ladder of the delete operations, which never read the body: any
      answer from the server, whatever its status, is a success. */
  function Complete<T>(outcome: Outcome<T>, sendError: string): (r: Result<Unit>)
    ensures r.Ok? <==> outcome.Responded?
    ensures outcome.BuildFailed? ==> r == Err(BuildError)
    ensures outcome.SendFailed? ==> r == Err(sendError)
  {
    match outcome
    case BuildFailed(_) => Err(BuildError)
    case SendFailed(_) => Err(sendError)
    case Responded(_, _) => Ok(Unit)
  }

  /** Splitting at the first separator: when neither left part contains `sep`,
      equal joined strings have equal parts. */
  lemma SplitAtSeparator(x1: string, y1: string, x2: string, y2: string, sep: char)
    requires forall i :: 0 <= i < |x1| ==> x1[i] != sep
    requires forall i :: 0 <= i < |x2| ==> x2[i] != sep
    requires x1 + [sep] + y1 == x2 + [sep] + y2
    ensures x1 == x2 && y1 == y2
  {
    var j1 := x1 + [sep] + y1;
    var j2 := x2 + [sep] + y2;
    assert j1[|x1|] == sep && j2[|x2|] == sep;
    assert |x1| == |x2|;
    assert x1 == j1[..|x1|];
    assert y1 == j1[|x1| + 1..];
  }

  lemma CancelPrefix(prefix: string, x: string, y: string)
    requires prefix + x == prefix + y
    ensures x == y
  {
    assert x == (prefix + x)[|prefix|..];
    assert y == (prefix + y)[|prefix|..];
  }

  /** Two API URLs of one server are equal exactly when their paths are. */
  lemma ApiUrlInjective(conn: JiraServerBase, path1: string, path2: string)
    ensures ApiUrl(conn, path1) == ApiUrl(conn, path2) <==> path1 == path2
  {
    if ApiUrl(conn, path1) == ApiUrl(conn, path2) {
      CancelPrefix("https://" + conn.domain + "/rest/api/2/", path1, path2);
    }
  }

  /** Item URLs ending in a decimal id name the same item exactly when the
      ids are equal. */
  lemma ItemUrlInjective(conn: JiraServerBase, collection: string, a: int, b: int)
    ensures ApiUrl(conn, collection + FormatInt(a)) == ApiUrl(conn, collection + FormatInt(b)) <==> a == b
  {
    var prefix := "https://" + conn.domain + "/rest/api/2/" + collection;
    assert ApiUrl(conn, collection + FormatInt(a)) == prefix + FormatInt(a);
    assert ApiUrl(conn, collection + FormatInt(b)) == prefix + FormatInt(b);
    if prefix + FormatInt(a) == prefix + FormatInt(b) {
      assert FormatInt(a) == (prefix + FormatInt(a))[|prefix|..];
      assert FormatInt(b) == (prefix + FormatInt(b))[|prefix|..];
    }
    FormatInjective(a, b);
  }
}
