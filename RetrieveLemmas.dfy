/**
 * What the detail view promises, and how its cache entries relate to the
 * records the list view caches.
 */
module RetrieveProperties {
  import opened Wrappers
  import opened Json
  import opened Ids
  import opened Keys
  import opened Detail
  import opened Pagination
  import opened Cache
  import opened Upstream
  import opened Views

  /** A missing or malformed id is a 400 that touches neither the cache nor the upstream. */
  lemma BadIdIsClientError(c0: map<string, Json>, answer: Request -> Fetch, pk: Option<string>)
    requires pk.None? || ParseInt(pk.value).None?
    ensures var run := RetrieveSpec(c0, answer, pk);
      && run.resp.status == 400 && run.resp.body.JObj? && "detail" in run.resp.body.fields
      && run.cache == c0 && run.writes == [] && run.calls == []
  {
  }

  /** A cached record is returned as stored, with no request and no write, whichever spelling of the id names it. */
  lemma CachedRecordIsServed(c0: map<string, Json>, answer: Request -> Fetch, pk: string, id: int)
    requires ParseInt(pk) == Some(id) && Truthy(Read(c0, DetailKey(id)))
    ensures RetrieveSpec(c0, answer, Some(pk)) == Run(Response(200, Read(c0, DetailKey(id))), c0, [], [])
  {
  }

  /**
   * On a miss the one detail request is made; a payload that normalises is
   * answered with the record, which reads back as the normalised item, and
   * is cached once under the id's key for the detail TTL.
   */
  lemma MissCachesNormalisedRecord(c0: map<string, Json>, answer: Request -> Fetch, pk: string, id: int)
    requires ParseInt(pk) == Some(id) && !Truthy(Read(c0, DetailKey(id)))
    requires answer(DetailOf(id)).Ok? && Normalize(answer(DetailOf(id)).payload).Some?
    ensures var run := RetrieveSpec(c0, answer, Some(pk));
      var item := Normalize(answer(DetailOf(id)).payload).value;
      && run.resp.status == 200 && ItemOf(run.resp.body) == Some(item)
      && run.writes == [Write(DetailKey(id), run.resp.body, CacheTtl)]
      && run.cache == c0[DetailKey(id) := run.resp.body]
      && run.calls == [DetailOf(id)]
  {
  }

  /** An upstream error status reaches the client unchanged, 404 included, and nothing is cached. */
  lemma UpstreamStatusIsForwarded(c0: map<string, Json>, answer: Request -> Fetch, pk: string, id: int)
    requires ParseInt(pk) == Some(id) && !Truthy(Read(c0, DetailKey(id))) && answer(DetailOf(id)).HttpErr?
    ensures var run := RetrieveSpec(c0, answer, Some(pk));
      && run.resp == Response(answer(DetailOf(id)).status, ErrorBody(DetailFailedMessage(id)))
      && run.cache == c0 && run.writes == [] && run.calls == [DetailOf(id)]
  {
    ForwardedErrorKeepsStatus(id, answer(DetailOf(id)).status);
  }

  /**
   * The dedicated not-found answer is unreachable: an error response is
   * never truthy, so every upstream error status is forwarded as is.
   */
  lemma ForwardedErrorKeepsStatus(id: int, code: ErrorStatus)
    ensures ForwardedError(id, code) == Response(code, ErrorBody(DetailFailedMessage(id)))
    ensures ForwardedError(id, code).body.JObj? && "detail" !in ForwardedError(id, code).body.fields
  {
  }

  /** A transport failure is a 503 and nothing is cached. */
  lemma TransportFailureIsUnavailable(c0: map<string, Json>, answer: Request -> Fetch, pk: string, id: int)
    requires ParseInt(pk) == Some(id) && !Truthy(Read(c0, DetailKey(id))) && answer(DetailOf(id)).NetErr?
    ensures var run := RetrieveSpec(c0, answer, Some(pk));
      && run.resp == Response(503, ErrorBody(DetailFailedMessage(id)))
      && run.cache == c0 && run.writes == [] && run.calls == [DetailOf(id)]
  {
  }

  /**
   * Whatever happens, a call for an id writes at most its own record, and
   * only together with a 200 response whose body is what it stores.
   */
  lemma OnlyOwnRecordWritten(c0: map<string, Json>, answer: Request -> Fetch, pk: Option<string>)
    ensures var run := RetrieveSpec(c0, answer, pk);
      && |run.writes| <= 1 && |run.calls| <= 1
      && (|run.writes| == 1 ==>
            && pk.Some? && ParseInt(pk.value).Some?
            && run.writes[0].key == DetailKey(ParseInt(pk.value).value)
            && run.resp == Response(200, run.writes[0].value)
            && run.cache == c0[run.writes[0].key := run.writes[0].value])
      && (run.writes == [] ==> run.cache == c0)
  {
    if pk.Some? && ParseInt(pk.value).Some? {
      var id := ParseInt(pk.value).value;
      var fetched := answer(DetailOf(id));
      if !Truthy(Read(c0, DetailKey(id))) && fetched.Ok? && Normalize(fetched.payload).Some? {
        var record := ItemJson(Normalize(fetched.payload).value);
        assert RetrieveSpec(c0, answer, pk)
          == Run(Response(200, record), c0[DetailKey(id) := record], [Write(DetailKey(id), record, CacheTtl)], [DetailOf(id)]);
      }
    }
  }

  /** A record served with 200 is served again, identically, from the cache, whatever the upstream then answers. */
  lemma RetrieveTwiceServesFromCache(c0: map<string, Json>, answer: Request -> Fetch, later: Request -> Fetch, pk: Option<string>)
    requires RetrieveSpec(c0, answer, pk).resp.status == 200
    ensures var run := RetrieveSpec(c0, answer, pk);
      RetrieveSpec(run.cache, later, pk) == Run(run.resp, run.cache, [], [])
  {
    var id := ParseInt(pk.value).value;
    var key := DetailKey(id);
    var run := RetrieveSpec(c0, answer, pk);
    if !Truthy(Read(c0, key)) {
      var record := ItemJson(Normalize(answer(DetailOf(id)).payload).value);
      assert run == Run(Response(200, record), c0[key := record], [Write(key, record, CacheTtl)], [DetailOf(id)]);
    }
    assert run.resp == Response(200, Read(run.cache, key)) && Truthy(Read(run.cache, key));
  }

  /**
   * The list and detail views share the record cache: on a miss, when the
   * upstream answers the reference's url as it answers the id, the loop
   * caches exactly what the detail view caches, under the same key, and
   * appends the record the detail view returns.
   */
  lemma ListAndRetrieveCacheTheSameRecord(c: map<string, Json>, answer: Request -> Fetch, ref: Json, pk: string)
    requires Parseable(ref) && ParseInt(pk) == Some(RefId(ref)) && !Truthy(Read(c, DetailKey(RefId(ref))))
    requires answer(DetailAt(EntryUrl(ref).value)) == answer(DetailOf(RefId(ref)))
    ensures var step := EntryStep(c, answer, ref);
      var run := RetrieveSpec(c, answer, Some(pk));
      && step.writes == run.writes && step.cache == run.cache
      && (step.writes != [] ==> step.added == [run.resp.body])
  {
  }

  /** A record cached by either view is what both views serve for that id, without any request. */
  lemma CachedRecordServesBothViews(c: map<string, Json>, answer: Request -> Fetch, ref: Json, pk: string)
    requires Parseable(ref) && ParseInt(pk) == Some(RefId(ref)) && Truthy(Read(c, DetailKey(RefId(ref))))
    ensures EntryStep(c, answer, ref) == Step(c, [Read(c, DetailKey(RefId(ref)))], [], [], false)
    ensures RetrieveSpec(c, answer, Some(pk))
      == Run(Response(200, Read(c, DetailKey(RefId(ref)))), c, [], [])
  {
  }

  /**
   * `int()` reads a digit string the same with a leading zero or a leading
   * `+`, so `7`, `07` and `+7` all name the record of item 7.
   */
  lemma LeadingZerosAndPlus(s: string)
    requires |s| >= 1 && AllDigits(s)
    ensures ParseInt("0" + s) == ParseInt(s) && ParseInt("+" + s) == ParseInt(s)
  {
    DigitsValueLeadingZero(s);
    assert ("+" + s)[1..] == s;
  }
}
