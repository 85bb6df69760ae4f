/** The Cloud Foundry API client of the cf-api-controllers: a typed facade that
    fetches a bearer token and PATCHes a build or a droplet on the CF API.
    The two collaborators it is given, the token source and the REST transport,
    are modelled as recording fakes that answer from a script and append every
    call they receive to one shared call log. */
module Cf {
  import Fmt

  datatype Option<T> = None | Some(value: T)

  newtype byte = b: int | 0 <= b < 256

  /** A Go `error`, known by its message. */
  datatype Error = Error(message: string)

  /** The two CF API resources the client updates. */
  datatype Resource = Builds | Droplets

  /** The outcome of `json.Marshal` on a payload. */
  datatype Marshalled = Marshalled(raw: seq<byte>) | Unmarshallable(err: Error)

  /** What `TokenFetcher.Fetch` returns: a token and a possibly nil error. */
  datatype FetchReply = FetchReply(token: string, err: Option<Error>)

  /** What `Rest.Patch` returns: a response with its status code, or a transport error. */
  datatype PatchReply = Response(statusCode: int) | TransportError(err: Error)

  /** One call received by a collaborator, as the shared log records it. */
  datatype Call = FetchCall | PatchCall(url: string, authToken: string, body: seq<byte>)

  /** What one client operation returns and which calls it makes, in order. */
  datatype Exchange = Exchange(result: Option<Error>, calls: seq<Call>)

  /** The collection path of each resource on the CF API. */
  function ResourcePath(resource: Resource): string {
    match resource
    case Builds => "/v3/builds/"
    case Droplets => "/v3/droplets/"
  }

  /** The format string of the PATCH target (client.go, lines 56 and 82):
      "%s/v3/builds/%s" and "%s/v3/droplets/%s". */
  function UrlFormat(resource: Resource): string {
    "%s" + (ResourcePath(resource) + "%s")
  }

  /** The format string of the bad-status error (client.go, lines 64 and 90):
      "failed to patch build, received status %d" and its droplet twin. */
  function StatusFormat(resource: Resource): string {
    StatusText(resource) + "%d"
  }

  /** `fmt.Sprintf("%s/v3/builds/%s", host, guid)` and its droplet twin. */
  function ResourceUrl(host: string, resource: Resource, guid: string): (url: string)
    ensures resource == Builds ==> url == host + "/v3/builds/" + guid
    ensures resource == Droplets ==> url == host + "/v3/droplets/" + guid
  {
    UrlFormatted(host, resource, guid);
    Fmt.Sprintf(UrlFormat(resource), [Fmt.Str(host), Fmt.Str(guid)])
  }

  /** `fmt.Errorf("failed to patch build, received status %d", code)` and its
      droplet twin. */
  function StatusError(resource: Resource, code: int): (e: Error)
    ensures resource == Builds ==>
      e.message == "failed to patch build, received status " + Fmt.FormatInt(code)
    ensures resource == Droplets ==>
      e.message == "failed to patch droplet, received status " + Fmt.FormatInt(code)
  {
    StatusFormatted(resource, code);
    Error(Fmt.Sprintf(StatusFormat(resource), [Fmt.Int(code)]))
  }

  lemma UrlFormatted(host: string, resource: Resource, guid: string)
    ensures Fmt.Sprintf(UrlFormat(resource), [Fmt.Str(host), Fmt.Str(guid)]) == host + (ResourcePath(resource) + guid)
  {
    match resource
    case Builds => Fmt.SprintfAround(ResourcePath(Builds), host, guid);
    case Droplets => Fmt.SprintfAround(ResourcePath(Droplets), host, guid);
  }

  lemma StatusFormatted(resource: Resource, code: int)
    ensures Fmt.Sprintf(StatusFormat(resource), [Fmt.Int(code)]) == StatusText(resource) + Fmt.FormatInt(code)
  {
    match resource
    case Builds => Fmt.SprintfTrailingInt(StatusText(Builds), code);
    case Droplets => Fmt.SprintfTrailingInt(StatusText(Droplets), code);
  }

  /** Maps the transport's answer to the operation's result: nil only for
      status 200; a transport error unchanged; any other status an error
      carrying that status. */
  function Classify(resource: Resource, reply: PatchReply): (r: Option<Error>)
    ensures r == None <==> reply == Response(200)
    ensures reply.TransportError? ==> r == Some(reply.err)
    ensures reply.Response? && reply.statusCode != 200 ==>
      r == Some(StatusError(resource, reply.statusCode))
  {
    match reply
    case TransportError(e) => Some(e)
    case Response(code) => if code != 200 then Some(StatusError(resource, code)) else None
  }

  /** A call log made by exactly one client operation: one fetch, first,
      then at most one patch. */
  predicate OneOperation(calls: seq<Call>) {
    calls == [FetchCall] || (|calls| == 2 && calls[0] == FetchCall && calls[1].PatchCall?)
  }

  /** The behaviour of `UpdateBuild` / `UpdateDroplet` on a client for `host`,
      given what the token source answers, what marshalling yields, and how
      the transport answers a PATCH of (url, token, body). */
  function Update(host: string, resource: Resource, guid: string, fetched: FetchReply,
                  marshalled: Marshalled, transport: (string, string, seq<byte>) -> PatchReply): (x: Exchange)
    ensures OneOperation(x.calls)
    ensures fetched.err.Some? ==> x == Exchange(fetched.err, [FetchCall])
    ensures fetched.err.None? && marshalled.Unmarshallable? ==>
      x == Exchange(Some(marshalled.err), [FetchCall])
    ensures |x.calls| == 2 <==> fetched.err.None? && marshalled.Marshalled?
    ensures |x.calls| == 2 ==>
      x.calls[1] == PatchCall(ResourceUrl(host, resource, guid), fetched.token, marshalled.raw)
    ensures |x.calls| == 2 ==>
      x.result == Classify(resource, transport(ResourceUrl(host, resource, guid), fetched.token, marshalled.raw))
    ensures x.result == None <==>
      fetched.err.None? && marshalled.Marshalled? &&
      transport(ResourceUrl(host, resource, guid), fetched.token, marshalled.raw) == Response(200)
  {
    if fetched.err.Some? then Exchange(fetched.err, [FetchCall])
    else match marshalled
      case Unmarshallable(e) => Exchange(Some(e), [FetchCall])
      case Marshalled(raw) =>
        var url := ResourceUrl(host, resource, guid);
        Exchange(Classify(resource, transport(url, fetched.token, raw)),
                 [FetchCall, PatchCall(url, fetched.token, raw)])
  }

  /** The PATCH target names the resource and the GUID: on one host, no two
      different (resource, guid) pairs share a URL. */
  lemma UrlDeterminesTarget(host: string, r1: Resource, g1: string, r2: Resource, g2: string)
    requires ResourceUrl(host, r1, g1) == ResourceUrl(host, r2, g2)
    ensures r1 == r2 && g1 == g2
  {
    assert ResourceUrl(host, r1, g1) == host + ResourcePath(r1) + g1;
    assert ResourceUrl(host, r2, g2) == host + ResourcePath(r2) + g2;
    PathDeterminesTarget(host, r1, g1, r2, g2);
  }

  lemma PathDeterminesTarget(host: string, r1: Resource, g1: string, r2: Resource, g2: string)
    requires host + ResourcePath(r1) + g1 == host + ResourcePath(r2) + g2
    ensures r1 == r2 && g1 == g2
  {
    var u := host + ResourcePath(r1) + g1;
    var n := |host|;
    assert u[n + 4] == if r1 == Builds then 'b' else 'd';
    assert (host + ResourcePath(r2) + g2)[n + 4] == if r2 == Builds then 'b' else 'd';
    var p := ResourcePath(r1);
    assert u[n + |p|..] == g1;
  }

  /** The bad-status error carries its status: the message determines both
      the resource and the code. */
  lemma StatusErrorDeterminesCode(r1: Resource, c1: int, r2: Resource, c2: int)
    requires StatusError(r1, c1) == StatusError(r2, c2)
    ensures r1 == r2 && c1 == c2
  {
    assert StatusError(r1, c1).message == StatusText(r1) + Fmt.FormatInt(c1);
    assert StatusError(r2, c2).message == StatusText(r2) + Fmt.FormatInt(c2);
    MessageDeterminesCode(r1, c1, r2, c2);
  }

  lemma MessageDeterminesCode(r1: Resource, c1: int, r2: Resource, c2: int)
    requires StatusText(r1) + Fmt.FormatInt(c1) == StatusText(r2) + Fmt.FormatInt(c2)
    ensures r1 == r2 && c1 == c2
  {
    StatusTextNamesResource(r1, Fmt.FormatInt(c1));
    StatusTextNamesResource(r2, Fmt.FormatInt(c2));
    CancelPrefix(StatusText(r1), Fmt.FormatInt(c1), Fmt.FormatInt(c2));
    Fmt.FormatIntInjective(c1, c2);
  }

  /** The 17th character of the message is the resource's initial. */
  lemma StatusTextNamesResource(resource: Resource, s: string)
    ensures (StatusText(resource) + s)[16] == if resource == Builds then 'b' else 'd'
  {
    assert StatusText(resource)[16] == if resource == Builds then 'b' else 'd';
  }

  lemma CancelPrefix(a: string, b: string, c: string)
    requires a + b == a + c
    ensures b == c
  {
    assert b == (a + b)[|a|..];
    assert c == (a + c)[|a|..];
  }

  /** The fixed text of the bad-status message, before the code. */
  function StatusText(resource: Resource): string {
    if resource == Builds then "failed to patch build, received status "
    else "failed to patch droplet, received status "
  }

  /** The call log left by a series of client operations, in order. */
  function Concat(ops: seq<seq<Call>>): seq<Call> {
    if ops == [] then [] else Concat(ops[..|ops| - 1]) + ops[|ops| - 1]
  }

  /** Appending one more operation appends its calls to the log. */
  lemma ConcatSnoc(ops: seq<seq<Call>>, last: seq<Call>)
    ensures Concat(ops + [last]) == Concat(ops) + last
  {
    assert (ops + [last])[..|ops|] == ops;
  }

  function Fetches(calls: seq<Call>): nat {
    if calls == [] then 0
    else Fetches(calls[..|calls| - 1]) + if calls[|calls| - 1] == FetchCall then 1 else 0
  }

  function Patches(calls: seq<Call>): nat {
    if calls == [] then 0
    else Patches(calls[..|calls| - 1]) + if calls[|calls| - 1].PatchCall? then 1 else 0
  }

  /** Every PATCH comes straight after a token fetch. */
  predicate PatchesFollowFetches(calls: seq<Call>) {
    forall i :: 0 <= i < |calls| && calls[i].PatchCall? ==> 0 < i && calls[i - 1] == FetchCall
  }

  lemma {:induction false} CountsAppend(a: seq<Call>, b: seq<Call>)
    ensures Fetches(a + b) == Fetches(a) + Fetches(b)
    ensures Patches(a + b) == Patches(a) + Patches(b)
    decreases |b|
  {
    if b == [] {
      assert a + b == a;
    } else {
      var front := b[..|b| - 1];
      assert (a + b)[..|a + b| - 1] == a + front;
      CountsAppend(a, front);
    }
  }

  /** Over any series of operations the log holds exactly one fetch per
      operation, at most one PATCH per operation, and no PATCH that is not
      directly preceded by a fetch: the client never retries. */
  lemma {:induction false} SeriesOfOperations(ops: seq<seq<Call>>)
    requires forall k :: 0 <= k < |ops| ==> OneOperation(ops[k])
    ensures Fetches(Concat(ops)) == |ops|
    ensures Patches(Concat(ops)) <= |ops|
    ensures PatchesFollowFetches(Concat(ops))
  {
    if ops != [] {
      var front, last := ops[..|ops| - 1], ops[|ops| - 1];
      assert OneOperation(last);
      SeriesOfOperations(front);
      CountsAppend(Concat(front), last);
      assert Fetches(last) == 1 && Patches(last) == |last| - 1 by {
        assert last[..|last| - 1] == [FetchCall] || last == [FetchCall];
        assert [FetchCall][..0] == [];
      }
      var all := Concat(ops);
      assert all == Concat(front) + last;
      forall i | 0 <= i < |all| && all[i].PatchCall?
        ensures 0 < i && all[i - 1] == FetchCall
      {
        if i >= |Concat(front)| {
          assert i == |Concat(front)| + 1;
        }
      }
    }
  }

  /** The shared recorder both fake collaborators write to. */
  class CallLog {
    var calls: seq<Call>

    constructor ()
      ensures calls == []
    {
      calls := [];
    }
  }

  /** The `TokenFetcher` interface (client.go, lines 33-35), as a fake whose
      n-th `Fetch` answers `replies(n)`. */
  class TokenFetcher {
    const log: CallLog
    const replies: nat -> FetchReply
    var fetches: nat

    constructor (log: CallLog, replies: nat -> FetchReply)
      ensures this.log == log && this.replies == replies && fetches == 0
    {
      this.log := log;
      this.replies := replies;
      fetches := 0;
    }

    method Fetch() returns (token: string, err: Option<Error>)
      modifies this`fetches, log
      ensures FetchReply(token, err) == replies(old(fetches))
      ensures fetches == old(fetches) + 1
      ensures log.calls == old(log.calls) + [FetchCall]
    {
      var reply := replies(fetches);
      token, err := reply.token, reply.err;
      fetches := fetches + 1;
      log.calls := log.calls + [FetchCall];
    }
  }

  /** The `Rest` interface (client.go, lines 26-28), as a fake whose n-th
      `Patch` of (url, token, body) answers `replies(n, url, token, body)`. */
  class Rest {
    const log: CallLog
    const replies: (nat, string, string, seq<byte>) -> PatchReply
    var patches: nat

    constructor (log: CallLog, replies: (nat, string, string, seq<byte>) -> PatchReply)
      ensures this.log == log && this.replies == replies && patches == 0
    {
      this.log := log;
      this.replies := replies;
      patches := 0;
    }

    /** How the next `Patch` will be answered. */
    function Transport(): (string, string, seq<byte>) -> PatchReply
      reads this
    {
      var n, f := patches, replies;
      (url, token, body) => f(n, url, token, body)
    }

    method Patch(url: string, authToken: string, body: seq<byte>) returns (reply: PatchReply)
      modifies this`patches, log
      ensures reply == old(Transport())(url, authToken, body)
      ensures patches == old(patches) + 1
      ensures log.calls == old(log.calls) + [PatchCall(url, authToken, body)]
    {
      reply := replies(patches, url, authToken, body);
      patches := patches + 1;
      log.calls := log.calls + [PatchCall(url, authToken, body)];
    }
  }

  /** The `Client` struct (client.go, lines 38-42); its fields are never
      assigned after construction. */
  class Client {
    const host: string
    const restClient: Rest
    const uaaClient: TokenFetcher

    /** `NewClient`: stores the three arguments as given. */
    constructor NewClient(host: string, restClient: Rest, uaaClient: TokenFetcher)
      ensures this.host == host && this.restClient == restClient && this.uaaClient == uaaClient
    {
      this.host := host;
      this.restClient := restClient;
      this.uaaClient := uaaClient;
    }

    /** The steps `UpdateBuild` and `UpdateDroplet` share: fetch a token,
        marshal the payload, PATCH it, check the status. */
    method UpdateResource<P>(resource: Resource, guid: string, payload: P, marshal: P -> Marshalled)
      returns (err: Option<Error>)
      requires uaaClient.log == restClient.log
      modifies uaaClient`fetches, restClient`patches, uaaClient.log
      ensures var x := Update(host, resource, guid, uaaClient.replies(old(uaaClient.fetches)),
                              marshal(payload), old(restClient.Transport()));
        err == x.result &&
        uaaClient.log.calls == old(uaaClient.log.calls) + x.calls &&
        restClient.patches == old(restClient.patches) + |x.calls| - 1
      ensures uaaClient.fetches == old(uaaClient.fetches) + 1
    {
      var token, fetchErr := uaaClient.Fetch();
      if fetchErr.Some? {
        return fetchErr;
      }

      var marshalled := marshal(payload);
      if marshalled.Unmarshallable? {
        return Some(marshalled.err);
      }

      var reply := restClient.Patch(ResourceUrl(host, resource, guid), token, marshalled.raw);
      if reply.TransportError? {
        return Some(reply.err);
      }
      if reply.statusCode != 200 {
        return Some(StatusError(resource, reply.statusCode));
      }

      return None;
    }

    /** `UpdateBuild`: PATCH `{host}/v3/builds/{buildGUID}`. */
    method UpdateBuild<B>(buildGUID: string, build: B, marshal: B -> Marshalled)
      returns (err: Option<Error>)
      requires uaaClient.log == restClient.log
      modifies uaaClient`fetches, restClient`patches, uaaClient.log
      ensures var x := Update(host, Builds, buildGUID, uaaClient.replies(old(uaaClient.fetches)),
                              marshal(build), old(restClient.Transport()));
        err == x.result &&
        uaaClient.log.calls == old(uaaClient.log.calls) + x.calls &&
        restClient.patches == old(restClient.patches) + |x.calls| - 1
      ensures uaaClient.fetches == old(uaaClient.fetches) + 1
    {
      err := UpdateResource(Builds, buildGUID, build, marshal);
    }

    /** `UpdateDroplet`: PATCH `{host}/v3/droplets/{dropletGUID}`. */
    method UpdateDroplet<D>(dropletGUID: string, droplet: D, marshal: D -> Marshalled)
      returns (err: Option<Error>)
      requires uaaClient.log == restClient.log
      modifies uaaClient`fetches, restClient`patches, uaaClient.log
      ensures var x := Update(host, Droplets, dropletGUID, uaaClient.replies(old(uaaClient.fetches)),
                              marshal(droplet), old(restClient.Transport()));
        err == x.result &&
        uaaClient.log.calls == old(uaaClient.log.calls) + x.calls &&
        restClient.patches == old(restClient.patches) + |x.calls| - 1
      ensures uaaClient.fetches == old(uaaClient.fetches) + 1
    {
      err := UpdateResource(Droplets, dropletGUID, droplet, marshal);
    }
  }
}
