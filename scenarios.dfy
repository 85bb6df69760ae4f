/** Runs of the client against scripted collaborators, for any host, GUID,
    token and marshalled body. */
module CfScenarios {
  import opened Cf

  /** A build PATCH that the CF API accepts: one fetch, then one PATCH of
      `{host}/v3/builds/{guid}` carrying the fetched token, and a nil error. */
  method BuildAccepted(host: string, guid: string, token: string, body: seq<byte>)
    returns (err: Option<Error>, calls: seq<Call>)
    ensures err == None
    ensures calls == [FetchCall, PatchCall(host + "/v3/builds/" + guid, token, body)]
  {
    var log := new CallLog();
    var uaa := new TokenFetcher(log, n => FetchReply(token, None));
    var rest := new Rest(log, (n, url, authToken, raw) => Response(200));
    var client := new Client.NewClient(host, rest, uaa);
    err := client.UpdateBuild(guid, "STAGED", build => Marshalled(body));
    calls := log.calls;
  }

  /** Another 2xx status is not success: the droplet update fails with an
      error naming the status. */
  method OtherSuccessStatusIsAnError(host: string, guid: string, token: string, body: seq<byte>, code: int)
    returns (err: Option<Error>, calls: seq<Call>)
    requires 200 < code < 300
    ensures err == Some(Error("failed to patch droplet, received status " + Fmt.FormatInt(code)))
    ensures calls == [FetchCall, PatchCall(host + "/v3/droplets/" + guid, token, body)]
  {
    var log := new CallLog();
    var uaa := new TokenFetcher(log, n => FetchReply(token, None));
    var rest := new Rest(log, (n, url, authToken, raw) => Response(code));
    var client := new Client.NewClient(host, rest, uaa);
    err := client.UpdateDroplet(guid, "image", droplet => Marshalled(body));
    calls := log.calls;
    assert err == Some(StatusError(Droplets, code));
  }

  /** A failed token fetch is returned as it is and nothing is PATCHed. */
  method FetchFailureStopsTheUpdate(host: string, guid: string, failure: Error)
    returns (err: Option<Error>, calls: seq<Call>, patches: nat)
    ensures err == Some(failure)
    ensures calls == [FetchCall] && patches == 0
  {
    var log := new CallLog();
    var uaa := new TokenFetcher(log, n => FetchReply("", Some(failure)));
    var rest := new Rest(log, (n, url, authToken, raw) => Response(200));
    var client := new Client.NewClient(host, rest, uaa);
    err := client.UpdateBuild(guid, "STAGED", build => Marshalled([]));
    calls, patches := log.calls, rest.patches;
  }

  /** Two updates fetch two tokens, and each PATCH carries the token fetched
      just before it. */
  method EachUpdateFetchesItsOwnToken(host: string, buildGUID: string, dropletGUID: string,
                                      t0: string, t1: string)
    returns (calls: seq<Call>)
    ensures calls == [FetchCall, PatchCall(host + "/v3/builds/" + buildGUID, t0, []),
                      FetchCall, PatchCall(host + "/v3/droplets/" + dropletGUID, t1, [])]
  {
    var log := new CallLog();
    var uaa := new TokenFetcher(log, n => FetchReply(if n == 0 then t0 else t1, None));
    var rest := new Rest(log, (n, url, authToken, raw) => Response(200));
    var client := new Client.NewClient(host, rest, uaa);
    var buildErr := client.UpdateBuild(buildGUID, "STAGED", build => Marshalled([]));
    assert log.calls == [FetchCall, PatchCall(host + "/v3/builds/" + buildGUID, t0, [])];
    var dropletErr := client.UpdateDroplet(dropletGUID, "image", droplet => Marshalled([]));
    calls := log.calls;
  }

  /** Two operations logged one after the other form a series of two. */
  lemma TwoOperations(a: seq<Call>, b: seq<Call>)
    requires OneOperation(a) && OneOperation(b)
    ensures Fetches(a + b) == 2 && Patches(a + b) <= 2
    ensures PatchesFollowFetches(a + b)
  {
    var ops := [a, b];
    ConcatSnoc([], a);
    assert [] + [a] == [a] && Concat([]) + a == a;
    ConcatSnoc([a], b);
    assert [a] + [b] == ops;
    SeriesOfOperations(ops);
  }

  /** Any two updates, whatever the collaborators answer, make exactly two
      fetches and at most two PATCHes, each PATCH right after its fetch. */
  method TwoUpdatesNeverRetry(host: string, buildGUID: string, dropletGUID: string,
                              fetchReplies: nat -> FetchReply,
                              patchReplies: (nat, string, string, seq<byte>) -> PatchReply,
                              marshalBuild: string -> Marshalled, marshalDroplet: string -> Marshalled)
    returns (calls: seq<Call>)
    ensures Fetches(calls) == 2 && Patches(calls) <= 2
    ensures PatchesFollowFetches(calls)
  {
    var log := new CallLog();
    var uaa := new TokenFetcher(log, fetchReplies);
    var rest := new Rest(log, patchReplies);
    var client := new Client.NewClient(host, rest, uaa);
    var buildErr := client.UpdateBuild(buildGUID, "STAGED", marshalBuild);
    ghost var first := log.calls;
    assert OneOperation(first);
    var dropletErr := client.UpdateDroplet(dropletGUID, "image", marshalDroplet);
    calls := log.calls;
    ghost var second := calls[|first|..];
    assert calls == first + second;
    assert OneOperation(second);
    TwoOperations(first, second);
  }
}
