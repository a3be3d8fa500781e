/**
 * The MusicBrainz web-service client of src/mb.rs: a client object holding the
 * service root URL and the User-Agent it sends, the GET request it builds for a
 * path-and-query, and the disc-id lookup built on top of it.
 *
 * `ureq::Request` is stood in for by the Request datatype: a verb, a URL and the
 * headers in the order they were set.
 */
module MbClient {
  import opened Wrappers
  import opened MbRecords

  const DEFAULT_ROOT_URL: string := "https://musicbrainz.org/ws/2"
  const USER_AGENT_HEADER: string := "User-Agent"
  const ACCEPT_HEADER: string := "Accept"
  const ACCEPT_JSON: string := "application/json"
  /** The sub-resources a disc-id lookup asks the service to inline. */
  const LOOKUP_INCLUDES: string := "artist-credits+recordings+labels"
  const LOOKUP_PREFIX: string := "discid/"
  const LOOKUP_QUERY: string := "?inc=" + LOOKUP_INCLUDES

  // ---------------------------------------------------------------- strings

  /** The index of the first occurrence of `c` in `s`, or `|s|` if there is none. */
  function FirstIndex(s: string, c: char): (i: nat)
    ensures i <= |s|
    ensures forall j :: 0 <= j < i ==> s[j] != c
    ensures i < |s| ==> s[i] == c
  {
    if s == [] || s[0] == c then 0 else 1 + FirstIndex(s[1..], c)
  }

  /** The text before the first `c` (all of `s` if there is none). */
  function BeforeFirst(s: string, c: char): string
  {
    s[..FirstIndex(s, c)]
  }

  /** The text after the first `c`, if `c` occurs. */
  function AfterFirst(s: string, c: char): Option<string>
  {
    var i := FirstIndex(s, c);
    if i < |s| then Some(s[i + 1..]) else None
  }

  /** Splitting at a separator that the head does not contain recovers head and tail. */
  lemma SplitAtFirst(head: string, c: char, tail: string)
    requires c !in head
    ensures BeforeFirst(head + [c] + tail, c) == head
    ensures AfterFirst(head + [c] + tail, c) == Some(tail)
  {
    var s := head + [c] + tail;
    var i := FirstIndex(s, c);
    assert s[|head|] == c;
    assert forall j :: 0 <= j < |head| ==> s[j] == head[j];
    assert s[..|head|] == head;
    assert s[|head| + 1..] == tail;
  }

  // --------------------------------------------------------------- requests

  datatype Header = Header(name: string, value: string)

  /** What `ureq::get(url)` followed by `.set(..)` calls describes. */
  datatype Request = Request(verb: string, url: string, headers: seq<Header>)

  /** The value a header name carries in a request: the one set last. */
  function HeaderValue(headers: seq<Header>, name: string): Option<string>
  {
    if headers == [] then None
    else if headers[|headers| - 1].name == name then Some(headers[|headers| - 1].value)
    else HeaderValue(headers[..|headers| - 1], name)
  }

  /** `ureq::get`: a GET request for a URL, with no headers yet. */
  function NewGet(url: string): (req: Request)
    ensures req.verb == "GET" && req.url == url
    ensures forall name :: HeaderValue(req.headers, name) == None
  {
    Request("GET", url, [])
  }

  /** `Request::set`: the header now carries `value`; every other header is as before. */
  function SetHeader(req: Request, name: string, value: string): (r: Request)
    ensures r.verb == req.verb && r.url == req.url
    ensures HeaderValue(r.headers, name) == Some(value)
    ensures forall other :: other != name ==> HeaderValue(r.headers, other) == HeaderValue(req.headers, other)
  {
    var r := req.(headers := req.headers + [Header(name, value)]);
    assert r.headers[..|r.headers| - 1] == req.headers;
    r
  }

  /** The path-and-query a URL addresses below a root URL, if it lies below it. */
  function PathBelow(url: string, root: string): Option<string>
  {
    if |url| > |root| && url[..|root|] == root && url[|root|] == '/'
    then Some(url[|root| + 1..])
    else None
  }

  // ----------------------------------------------------------------- client

  /** The compile-time package metadata that makes up the default User-Agent. */
  datatype PackageMetadata = PackageMetadata(name: string, version: string, homepage: string)

  /** "<name>/<version> ( <homepage> )". */
  function DefaultUserAgent(pkg: PackageMetadata): (ua: string)
    ensures '/' !in pkg.name ==> BeforeFirst(ua, '/') == pkg.name
    ensures '/' !in pkg.name ==> AfterFirst(ua, '/') == Some(pkg.version + " ( " + pkg.homepage + " )")
  {
    var ua := pkg.name + "/" + pkg.version + " ( " + pkg.homepage + " )";
    var tail := pkg.version + " ( " + pkg.homepage + " )";
    assert ua == pkg.name + ['/'] + tail;
    if '/' in pkg.name then ua
    else
      SplitAtFirst(pkg.name, '/', tail);
      ua
  }

  class Client {
    var rootUrl: string
    var userAgent: string

    /** `Client::new`: the MusicBrainz production service and the package's own User-Agent. */
    constructor (pkg: PackageMetadata)
      ensures rootUrl == DEFAULT_ROOT_URL
      ensures userAgent == DefaultUserAgent(pkg)
    {
      rootUrl := DEFAULT_ROOT_URL;
      userAgent := DefaultUserAgent(pkg);
    }

    method SetRootUrl(rootUrl: string)
      modifies this
      ensures this.rootUrl == rootUrl
      ensures userAgent == old(userAgent)
    {
      this.rootUrl := rootUrl;
    }

    method SetUserAgent(userAgent: string)
      modifies this
      ensures this.userAgent == userAgent
      ensures rootUrl == old(rootUrl)
    {
      this.userAgent := userAgent;
    }

    /** `Client::get`: a GET below the root URL, identifying the client and asking for JSON. */
    function Get(pathAndQuery: string): (req: Request)
      reads this
      ensures req.verb == "GET"
      ensures req.url == rootUrl + "/" + pathAndQuery
      ensures HeaderValue(req.headers, USER_AGENT_HEADER) == Some(userAgent)
      ensures HeaderValue(req.headers, ACCEPT_HEADER) == Some(ACCEPT_JSON)
      ensures forall name :: name != USER_AGENT_HEADER && name != ACCEPT_HEADER ==>
        HeaderValue(req.headers, name) == None
    {
      var req := NewGet(rootUrl + "/" + pathAndQuery);
      SetHeader(SetHeader(req, USER_AGENT_HEADER, userAgent), ACCEPT_HEADER, ACCEPT_JSON)
    }
  }

  /** The URL of a request built by `get` gives back the path-and-query it was built from. */
  lemma GetPathRoundTrip(client: Client, pathAndQuery: string)
    ensures PathBelow(client.Get(pathAndQuery).url, client.rootUrl) == Some(pathAndQuery)
  {
  }

  /** A client sends distinct path-and-queries to distinct URLs. */
  lemma GetInjective(client: Client, p: string, q: string)
    requires client.Get(p).url == client.Get(q).url
    ensures p == q
  {
    GetPathRoundTrip(client, p);
    GetPathRoundTrip(client, q);
  }

  // ----------------------------------------------------------------- lookup

  /** The disc id a lookup path asks for, if it is a lookup path. */
  function DiscIdOfPath(path: string): Option<string>
  {
    if |path| >= |LOOKUP_PREFIX| + |LOOKUP_QUERY|
       && path[..|LOOKUP_PREFIX|] == LOOKUP_PREFIX
       && path[|path| - |LOOKUP_QUERY|..] == LOOKUP_QUERY
    then Some(path[|LOOKUP_PREFIX|..|path| - |LOOKUP_QUERY|])
    else None
  }

  /** The path-and-query of `DiscId::lookup`: "discid/<id>?inc=artist-credits+recordings+labels". */
  function LookupPath(discId: string): (path: string)
    ensures DiscIdOfPath(path) == Some(discId)
    ensures '?' !in discId ==> BeforeFirst(path, '?') == LOOKUP_PREFIX + discId
    ensures '?' !in discId ==> AfterFirst(path, '?') == Some("inc=" + LOOKUP_INCLUDES)
  {
    var path := "discid/" + discId + "?inc=" + LOOKUP_INCLUDES;
    assert path == LOOKUP_PREFIX + discId + LOOKUP_QUERY;
    assert path[..|LOOKUP_PREFIX|] == LOOKUP_PREFIX;
    assert path[|path| - |LOOKUP_QUERY|..] == LOOKUP_QUERY;
    assert path[|LOOKUP_PREFIX|..|path| - |LOOKUP_QUERY|] == discId;
    assert path == (LOOKUP_PREFIX + discId) + ['?'] + ("inc=" + LOOKUP_INCLUDES);
    if '?' in discId then path
    else
      SplitAtFirst(LOOKUP_PREFIX + discId, '?', "inc=" + LOOKUP_INCLUDES);
      path
  }

  /** Distinct disc ids are looked up at distinct paths. */
  lemma LookupPathInjective(a: string, b: string)
    requires LookupPath(a) == LookupPath(b)
    ensures a == b
  {
  }

  /** The full lookup URL below a root URL. */
  lemma LookupUrl(root: string, discId: string)
    ensures root + "/" + LookupPath(discId) == root + "/discid/" + discId + "?inc=" + LOOKUP_INCLUDES
  {
  }

  /** The disc id can be read back from the URL of the request a lookup builds. */
  lemma LookupIdFromUrl(client: Client, discId: string)
    ensures PathBelow(client.Get(LookupPath(discId)).url, client.rootUrl).Some?
    ensures DiscIdOfPath(PathBelow(client.Get(LookupPath(discId)).url, client.rootUrl).value) == Some(discId)
  {
  }

  /** What the transport hands back for a request. */
  datatype Response = Response(status: nat, body: string)

  /** Why a lookup failed: the request could not be completed, or its answer did not decode. */
  datatype LookupError = CallFailed(reason: string) | DecodeFailed(reason: string)

  /**
   * `DiscId::lookup`: sends the lookup request through `call` and decodes the
   * answer with `decode`; the first failure is the result.
   */
  method Lookup(
    client: Client,
    discId: string,
    call: Request -> Result<Response, string>,
    decode: Response -> Result<DiscId, string>)
    returns (sent: Request, result: Result<DiscId, LookupError>)
    ensures sent == client.Get(LookupPath(discId))
    ensures sent.verb == "GET"
    ensures sent.url == client.rootUrl + "/discid/" + discId + "?inc=" + LOOKUP_INCLUDES
    ensures HeaderValue(sent.headers, USER_AGENT_HEADER) == Some(client.userAgent)
    ensures HeaderValue(sent.headers, ACCEPT_HEADER) == Some(ACCEPT_JSON)
    ensures forall name :: name != USER_AGENT_HEADER && name != ACCEPT_HEADER ==>
      HeaderValue(sent.headers, name) == None
    ensures call(sent).Failure? ==> result == Failure(CallFailed(call(sent).error))
    ensures call(sent).Success? && decode(call(sent).value).Failure? ==>
      result == Failure(DecodeFailed(decode(call(sent).value).error))
    ensures result.Success? <==> call(sent).Success? && decode(call(sent).value).Success?
    ensures result.Success? ==> result.value == decode(call(sent).value).value
  {
    var path := LookupPath(discId);
    sent := client.Get(path);
    LookupUrl(client.rootUrl, discId);
    var response := call(sent);
    if response.Failure? {
      return sent, Failure(CallFailed(response.error));
    }
    var decoded := decode(response.value);
    if decoded.Failure? {
      return sent, Failure(DecodeFailed(decoded.error));
    }
    result := Success(decoded.value);
  }
}
