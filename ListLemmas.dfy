/**
 * What the list view promises: the loop over the references, the count and
 * page caches, and serving a page a second time.
 */
module ListProperties {
  import opened Wrappers
  import opened Json
  import opened Ids
  import opened Keys
  import opened Detail
  import opened Pagination
  import opened Cache
  import opened Upstream
  import opened Views

  /** A key of the per-record family. */
  ghost predicate IsDetailKey(key: string)
  {
    exists id :: key == DetailKey(id)
  }

  /** The count key and every page key lie outside the per-record family. */
  lemma NotDetailKeys(offset: int, limit: int)
    ensures !IsDetailKey(CountKey) && !IsDetailKey(PageKey(offset, limit))
  {
    if IsDetailKey(CountKey) {
      var id :| CountKey == DetailKey(id);
      KeysDisjoint(id, offset, limit);
    }
    if IsDetailKey(PageKey(offset, limit)) {
      var id :| PageKey(offset, limit) == DetailKey(id);
      KeysDisjoint(id, offset, limit);
    }
  }

  /** The references that contribute an item, in order. */
  function Parsed(refs: seq<Json>): (r: seq<Json>)
    ensures |r| <= |refs|
    ensures forall k :: 0 <= k < |r| ==> Parseable(r[k])
  {
    if refs == [] then []
    else
      var last := refs[|refs| - 1];
      Parsed(refs[..|refs| - 1]) + (if Parseable(last) then [last] else [])
  }

  /** The ids of those references, in order. */
  function ParsedIds(refs: seq<Json>): (ids: seq<int>)
    ensures |ids| == |Parsed(refs)|
    ensures forall k :: 0 <= k < |ids| ==> ids[k] == RefId(Parsed(refs)[k])
  {
    if refs == [] then []
    else
      var last := refs[|refs| - 1];
      ParsedIds(refs[..|refs| - 1]) + (if Parseable(last) then [RefId(last)] else [])
  }

  predicate Distinct(ids: seq<int>)
  {
    forall i, j :: 0 <= i < j < |ids| ==> ids[i] != ids[j]
  }

  /** The record the loop appends for a parseable reference, read against cache `c`. */
  function ItemFor(c: map<string, Json>, answer: Request -> Fetch, ref: Json): Json
    requires Parseable(ref)
  {
    EntryStep(c, answer, ref).added[0]
  }

  /** Every reference has a string `url`. */
  predicate HasUrls(refs: seq<Json>)
  {
    forall k :: 0 <= k < |refs| ==> EntryUrl(refs[k]).Some?
  }

  lemma HasUrlsSnoc(refs: seq<Json>)
    requires refs != []
    ensures HasUrls(refs) <==> HasUrls(refs[..|refs| - 1]) && EntryUrl(refs[|refs| - 1]).Some?
  {
    assert forall k :: 0 <= k < |refs| - 1 ==> refs[..|refs| - 1][k] == refs[k];
  }

  /** The loop raises exactly when some reference has no string `url`. */
  lemma {:induction false} AssembleAbortsOnMissingUrl(c: map<string, Json>, answer: Request -> Fetch, refs: seq<Json>)
    ensures !Assemble(c, answer, refs).aborted <==> HasUrls(refs)
  {
    if refs != [] {
      AssembleAbortsOnMissingUrl(c, answer, refs[..|refs| - 1]);
      HasUrlsSnoc(refs);
    }
  }

  /** Until it raises, the loop appends one record per parseable reference. */
  lemma {:induction false} AssembleOneItemPerParsed(c: map<string, Json>, answer: Request -> Fetch, refs: seq<Json>)
    ensures !Assemble(c, answer, refs).aborted ==> |Assemble(c, answer, refs).items| == |Parsed(refs)|
  {
    if refs != [] {
      AssembleOneItemPerParsed(c, answer, refs[..|refs| - 1]);
    }
  }

  /** Only detail requests. */
  predicate DetailCalls(calls: seq<Request>)
  {
    forall k :: 0 <= k < |calls| ==> calls[k].DetailAt?
  }

  /** Only normalised records, under record keys and the detail TTL. */
  ghost predicate RecordWrites(writes: seq<Write>)
  {
    forall k :: 0 <= k < |writes| ==>
      IsDetailKey(writes[k].key) && writes[k].ttl == CacheTtl && ItemOf(writes[k].value).Some?
  }

  lemma EffectsAppend(k1: seq<Request>, k2: seq<Request>, w1: seq<Write>, w2: seq<Write>)
    requires DetailCalls(k1) && DetailCalls(k2) && RecordWrites(w1) && RecordWrites(w2)
    ensures DetailCalls(k1 + k2) && RecordWrites(w1 + w2)
  {
    assert forall k :: |k1| <= k < |k1 + k2| ==> (k1 + k2)[k] == k2[k - |k1|];
    assert forall k :: |w1| <= k < |w1 + w2| ==> (w1 + w2)[k] == w2[k - |w1|];
  }

  /** What one pass of the loop body may write and request, stated on the pass's outcome `step` for the reference's id. */
  lemma StepEffects(step: Step, id: int)
    requires |step.calls| <= 1 && (|step.calls| == 1 ==> step.calls[0].DetailAt?)
    requires |step.writes| <= 1
    requires |step.writes| == 1 ==>
      (step.writes[0].key == DetailKey(id) && step.writes[0].ttl == CacheTtl && ItemOf(step.writes[0].value).Some?)
    ensures DetailCalls(step.calls) && RecordWrites(step.writes)
  {
    if |step.writes| == 1 {
      assert step.writes[0].key == DetailKey(id);
    }
  }

  lemma VisitEffects(acc: Acc, answer: Request -> Fetch, entry: Json)
    requires DetailCalls(acc.calls) && RecordWrites(acc.writes)
    ensures DetailCalls(Visit(acc, answer, entry).calls) && RecordWrites(Visit(acc, answer, entry).writes)
  {
    if !acc.aborted {
      var step := EntryStep(acc.cache, answer, entry);
      StepEffects(step, if Parseable(entry) then RefId(entry) else 0);
      EffectsAppend(acc.calls, step.calls, acc.writes, step.writes);
    }
  }

  /** The loop only requests details and caches only normalised records, under the detail TTL. */
  lemma {:induction false} AssembleEffects(c: map<string, Json>, answer: Request -> Fetch, refs: seq<Json>)
    ensures DetailCalls(Assemble(c, answer, refs).calls)
    ensures RecordWrites(Assemble(c, answer, refs).writes)
  {
    if refs != [] {
      var init := refs[..|refs| - 1];
      AssembleEffects(c, answer, init);
      VisitEffects(Assemble(c, answer, init), answer, refs[|refs| - 1]);
    }
  }

  /** `c2` reads like `c1` at every key outside the record family. */
  ghost predicate SameOutsideRecords(c1: map<string, Json>, c2: map<string, Json>)
  {
    forall key :: !IsDetailKey(key) ==> Read(c2, key) == Read(c1, key)
  }

  /** `c2` reads like `c1` at the record of every id not in `ids`. */
  ghost predicate SameRecordsExcept(c1: map<string, Json>, c2: map<string, Json>, ids: seq<int>)
  {
    forall id :: id !in ids ==> Read(c2, DetailKey(id)) == Read(c1, DetailKey(id))
  }

  /** One pass of the loop body changes at most the record of the entry's own id. */
  lemma StepFrame(c: map<string, Json>, step: Step, entry: Json)
    requires |step.writes| <= 1 && (step.writes == [] ==> step.cache == c)
    requires |step.writes| == 1 ==>
      (Parseable(entry) && step.writes[0].key == DetailKey(RefId(entry))
       && step.cache == c[step.writes[0].key := step.writes[0].value])
    ensures SameOutsideRecords(c, step.cache)
    ensures Parseable(entry) ==> SameRecordsExcept(c, step.cache, [RefId(entry)])
    ensures !Parseable(entry) ==> step.cache == c
  {
    if |step.writes| == 1 {
      var key := step.writes[0].key;
      assert key == DetailKey(RefId(entry));
      forall id | id != RefId(entry)
        ensures DetailKey(id) != key
      {
        if DetailKey(id) == key {
          DetailKeyInjective(id, RefId(entry));
        }
      }
    }
  }

  lemma FrameCompose(c0: map<string, Json>, c1: map<string, Json>, c2: map<string, Json>, ids: seq<int>, more: seq<int>)
    requires SameOutsideRecords(c0, c1) && SameOutsideRecords(c1, c2)
    requires SameRecordsExcept(c0, c1, ids) && SameRecordsExcept(c1, c2, more)
    ensures SameOutsideRecords(c0, c2) && SameRecordsExcept(c0, c2, ids + more)
  {
  }

  /**
   * The loop leaves every key outside the record family alone, and the
   * record of every id that no reference parses to.
   */
  lemma {:induction false} AssembleFrame(c: map<string, Json>, answer: Request -> Fetch, refs: seq<Json>)
    ensures SameOutsideRecords(c, Assemble(c, answer, refs).cache)
    ensures SameRecordsExcept(c, Assemble(c, answer, refs).cache, ParsedIds(refs))
  {
    if refs != [] {
      var init := refs[..|refs| - 1];
      var last := refs[|refs| - 1];
      AssembleFrame(c, answer, init);
      var acc0 := Assemble(c, answer, init);
      if !acc0.aborted {
        var step := EntryStep(acc0.cache, answer, last);
        StepFrame(acc0.cache, step, last);
        if Parseable(last) {
          FrameCompose(c, acc0.cache, step.cache, ParsedIds(init), [RefId(last)]);
        }
      }
    }
  }

  /**
   * A detail that cannot be fetched, or whose payload does not normalise,
   * puts a placeholder with the id, the reference's name (or "Unknown") and
   * the reason in the record's place, and caches nothing.
   */
  lemma FailedDetailIsPlaceholder(c: map<string, Json>, answer: Request -> Fetch, ref: Json)
    requires Parseable(ref) && !Truthy(Read(c, DetailKey(RefId(ref))))
    requires FetchedItem(answer(DetailAt(EntryUrl(ref).value))).None?
    ensures var step := EntryStep(c, answer, ref);
      var fetched := answer(DetailAt(EntryUrl(ref).value));
      && step.writes == [] && step.cache == c && |step.added| == 1
      && step.added[0].JObj?
      && step.added[0].fields["id"] == JInt(RefId(ref))
      && step.added[0].fields["error"] == JStr(if fetched.Ok? then DetailsProcessingFailed else DetailsUnavailable)
      && step.added[0].fields["name"] == Get(ref.fields, "name", JStr("Unknown"))
  {
  }

  /** Whether the record of a parseable reference is fetched depends only on the entry under its own key. */
  lemma EntryStepReadsOwnKey(c1: map<string, Json>, c2: map<string, Json>, answer: Request -> Fetch, ref: Json)
    requires Parseable(ref)
    requires Read(c1, DetailKey(RefId(ref))) == Read(c2, DetailKey(RefId(ref)))
    ensures EntryStep(c1, answer, ref).added == EntryStep(c2, answer, ref).added
    ensures EntryStep(c1, answer, ref).writes == EntryStep(c2, answer, ref).writes
    ensures EntryStep(c1, answer, ref).calls == EntryStep(c2, answer, ref).calls
  {
    var url := EntryUrl(ref).value;
    var key := DetailKey(RefId(ref));
    var s1 := EntryStep(c1, answer, ref);
    var s2 := EntryStep(c2, answer, ref);
    if Truthy(Read(c1, key)) {
      assert s1.added == [Read(c1, key)] && s2.added == [Read(c2, key)];
    } else {
      assert s1.calls == [DetailAt(url)] && s2.calls == [DetailAt(url)];
    }
  }

  lemma DistinctPrefix(ids: seq<int>, more: seq<int>)
    requires Distinct(ids + more)
    ensures Distinct(ids)
    ensures forall x :: x in more ==> x !in ids
  {
    forall i, j | 0 <= i < j < |ids|
      ensures ids[i] != ids[j]
    {
      assert (ids + more)[i] == ids[i] && (ids + more)[j] == ids[j];
    }
    forall i, j | 0 <= i < |ids| && 0 <= j < |more|
      ensures ids[i] != more[j]
    {
      assert (ids + more)[i] == ids[i] && (ids + more)[|ids| + j] == more[j];
    }
  }

  /** `rel` holds between the elements of `xs` and `ys` at every position. */
  predicate Pointwise<T, U>(xs: seq<T>, ys: seq<U>, rel: (T, U) -> bool)
  {
    && |xs| == |ys|
    && forall k :: 0 <= k < |xs| ==> rel(xs[k], ys[k])
  }

  lemma PointwiseSnoc<T, U>(xs: seq<T>, ys: seq<U>, x: T, y: U, rel: (T, U) -> bool)
    requires Pointwise(xs, ys, rel) && rel(x, y)
    ensures Pointwise(xs + [x], ys + [y], rel)
  {
    forall k | 0 <= k < |xs| + 1
      ensures rel((xs + [x])[k], (ys + [y])[k])
    {
      if k < |xs| {
        assert (xs + [x])[k] == xs[k] && (ys + [y])[k] == ys[k];
      }
    }
  }

  /** `item` is the record that the parseable reference `ref` yields against cache `c`. */
  function IsItemOf(c: map<string, Json>, answer: Request -> Fetch): (Json, Json) -> bool
  {
    (item: Json, ref: Json) => Parseable(ref) && item == ItemFor(c, answer, ref)
  }

  /** `items` are the records of the references `parsed`, one by one, read against cache `c`. */
  predicate ItemsMatch(c: map<string, Json>, answer: Request -> Fetch, items: seq<Json>, parsed: seq<Json>)
  {
    Pointwise(items, parsed, IsItemOf(c, answer))
  }

  lemma ItemsMatchSnoc(c: map<string, Json>, answer: Request -> Fetch, items: seq<Json>, parsed: seq<Json>, ref: Json, added: seq<Json>)
    requires ItemsMatch(c, answer, items, parsed)
    requires Parseable(ref) && added == [ItemFor(c, answer, ref)]
    ensures ItemsMatch(c, answer, items + added, parsed + [ref])
  {
    assert IsItemOf(c, answer)(added[0], ref);
    PointwiseSnoc(items, parsed, added[0], ref, IsItemOf(c, answer));
  }

  /** One more parseable reference whose record the loop has not touched appends what it yields against `c`. */
  lemma VisitAppendsItemFor(c: map<string, Json>, answer: Request -> Fetch, acc: Acc, ref: Json)
    requires !acc.aborted && Parseable(ref)
    requires Read(acc.cache, DetailKey(RefId(ref))) == Read(c, DetailKey(RefId(ref)))
    ensures Visit(acc, answer, ref).items == acc.items + [ItemFor(c, answer, ref)]
  {
    EntryStepReadsOwnKey(acc.cache, c, answer, ref);
    var step := EntryStep(acc.cache, answer, ref);
    assert step.added == [step.added[0]];
  }

  /**
   * When no id repeats, each record on the page is what that reference
   * alone yields against the cache before the loop: the records appear in
   * upstream order, and one reference's fetch never changes another's.
   */
  lemma {:induction false} AssembleInUpstreamOrder(c: map<string, Json>, answer: Request -> Fetch, refs: seq<Json>)
    requires !Assemble(c, answer, refs).aborted
    requires Distinct(ParsedIds(refs))
    ensures ItemsMatch(c, answer, Assemble(c, answer, refs).items, Parsed(refs))
  {
    if refs != [] {
      var init := refs[..|refs| - 1];
      var last := refs[|refs| - 1];
      var acc0 := Assemble(c, answer, init);
      assert !acc0.aborted;
      DistinctPrefix(ParsedIds(init), if Parseable(last) then [RefId(last)] else []);
      AssembleInUpstreamOrder(c, answer, init);
      assert Assemble(c, answer, refs) == Visit(acc0, answer, last);
      if Parseable(last) {
        assert Parsed(refs) == Parsed(init) + [last];
        AssembleFrame(c, answer, init);
        assert RefId(last) !in ParsedIds(init);
        VisitAppendsItemFor(c, answer, acc0, last);
        ItemsMatchSnoc(c, answer, acc0.items, Parsed(init), last, [ItemFor(c, answer, last)]);
      } else {
        assert Parsed(refs) == Parsed(init);
        assert Visit(acc0, answer, last).items == acc0.items + [];
      }
    }
  }

  // ---------------------------------------------------------------------
  // serving one page

  /** Only detail requests and `query`. */
  predicate CallsWithin(calls: seq<Request>, query: Request)
  {
    forall k :: 0 <= k < |calls| ==> calls[k].DetailAt? || calls[k] == query
  }

  /** Only record keys and `key`; and `key` only with a 200 response whose body is the value stored. */
  ghost predicate WritesWithin(run: Run, key: string)
  {
    forall k :: 0 <= k < |run.writes| ==>
      && (IsDetailKey(run.writes[k].key) || run.writes[k].key == key)
      && (run.writes[k].key == key ==> run.resp == Response(200, run.writes[k].value) && run.writes[k].ttl == CacheTtl)
  }

  /** `c2` reads like `c1` at every key outside the record family other than `key`. */
  ghost predicate SameOutsideRecordsBut(c1: map<string, Json>, c2: map<string, Json>, key: string)
  {
    forall k :: !IsDetailKey(k) && k != key ==> Read(c2, k) == Read(c1, k)
  }

  lemma AssembledPageEffects(acc: Acc, query: Request, s: PageState, key: string)
    requires !IsDetailKey(key) && s.size >= 1
    requires DetailCalls(acc.calls) && RecordWrites(acc.writes)
    ensures var body := Envelope(s, acc.items);
      var run := Run(Response(200, body), acc.cache[key := body], acc.writes + [Write(key, body, CacheTtl)], [query] + acc.calls);
      CallsWithin(run.calls, query) && WritesWithin(run, key)
  {
    var body := Envelope(s, acc.items);
    var writes := acc.writes + [Write(key, body, CacheTtl)];
    assert forall k :: 0 <= k < |acc.writes| ==> writes[k] == acc.writes[k] && IsDetailKey(writes[k].key);
    assert forall k :: 0 < k < |acc.calls| + 1 ==> ([query] + acc.calls)[k] == acc.calls[k - 1];
  }

  /**
   * A page call only requests the page's references and details; it writes
   * records and the page key alone, and the page key only together with a
   * 200 response whose body is what it stores.
   */
  lemma ServePageEffects(c1: map<string, Json>, answer: Request -> Fetch, s: PageState)
    requires ValidState(s)
    ensures CallsWithin(ServePage(c1, answer, s).calls, ListQuery(Window(s).0, Window(s).1))
    ensures WritesWithin(ServePage(c1, answer, s), PageKeyOf(s))
  {
    var key := PageKeyOf(s);
    var query := ListQuery(Window(s).0, Window(s).1);
    if !Truthy(Read(c1, key)) {
      NotDetailKeys(Window(s).0, Window(s).1);
      FetchPageEffects(c1, answer, s, key, query);
    }
  }

  /** `ServePageEffects` for a page missing from the cache, under any key outside the record family. */
  lemma FetchPageEffects(c1: map<string, Json>, answer: Request -> Fetch, s: PageState, key: string, query: Request)
    requires !IsDetailKey(key) && s.size >= 1
    ensures CallsWithin(FetchPage(c1, answer, s, key, query).calls, query)
    ensures WritesWithin(FetchPage(c1, answer, s, key, query), key)
  {
    if answer(query).Ok? && ReferenceList(answer(query).payload).Some? {
      var refs := ReferenceList(answer(query).payload).value;
      var acc := Assemble(c1, answer, refs);
      AssembleEffects(c1, answer, refs);
      if acc.aborted {
        assert forall k :: 0 < k < |acc.calls| + 1 ==> ([query] + acc.calls)[k] == acc.calls[k - 1];
      } else {
        AssembledPageEffects(acc, query, s, key);
      }
    }
  }

  /** A page call changes no key outside the record family but the page's own. */
  lemma ServePageFrame(c1: map<string, Json>, answer: Request -> Fetch, s: PageState)
    requires ValidState(s)
    ensures SameOutsideRecordsBut(c1, ServePage(c1, answer, s).cache, PageKeyOf(s))
  {
    var query := ListQuery(Window(s).0, Window(s).1);
    if !Truthy(Read(c1, PageKeyOf(s))) && answer(query).Ok? && ReferenceList(answer(query).payload).Some? {
      AssembleFrame(c1, answer, ReferenceList(answer(query).payload).value);
    }
  }

  /**
   * With the window taken from the selected page size, a page key names one
   * page: two valid pages of a non-empty catalogue that share a key are the
   * same page of the same size.
   */
  lemma PageKeyIdentifiesPage(a: PageState, b: PageState)
    requires ValidState(a) && ValidState(b) && a.count == b.count && a.count > 0
    requires PageKeyOf(a) == PageKeyOf(b)
    ensures a == b
  {
    PageKeyInjective(Window(a).0, Window(a).1, Window(b).0, Window(b).1);
    WindowIdentifiesPage(a, b);
  }

  /**
   * `?page=k` for a page that exists selects page k of the requested size,
   * whose upstream window starts at item (k-1)·size; any other integer
   * names no page.
   */
  lemma PageNumberSelectsWindow(n: int, p: int, sizeReq: Option<string>)
    requires n > 0
    ensures var size := PageSize(sizeReq);
      var s := SelectPage(n, Some(Show(p)), sizeReq);
      && (1 <= p <= NumPages(n, size) ==>
            && s == Some(PageState(n, p, size))
            && Window(s.value) == ((p - 1) * size, size))
      && (p < 1 || p > NumPages(n, size) ==> s.None?)
  {
    ParseShow(p);
  }

  /** `?page=last` selects the last page, whose window holds the catalogue's last item. */
  lemma LastPageHoldsLastItem(n: int, sizeReq: Option<string>)
    requires n > 0
    ensures var size := PageSize(sizeReq);
      var s := SelectPage(n, Some("last"), sizeReq);
      && s == Some(PageState(n, NumPages(n, size), size))
      && Window(s.value).0 < n <= Window(s.value).0 + Window(s.value).1
  {
  }

  /** A cached page is returned as stored, with no request and no write. */
  lemma PageHitServesCachedPage(c1: map<string, Json>, answer: Request -> Fetch, s: PageState)
    requires ValidState(s) && Truthy(Read(c1, PageKeyOf(s)))
    ensures ServePage(c1, answer, s) == Run(Response(200, Read(c1, PageKeyOf(s))), c1, [], [])
  {
  }

  /**
   * A failed list request ends the call with the upstream's own status
   * (503 without one), after exactly that request and without any write.
   */
  lemma ListFetchFailureForwardsStatus(c1: map<string, Json>, answer: Request -> Fetch, s: PageState)
    requires ValidState(s) && !Truthy(Read(c1, PageKeyOf(s)))
    requires !answer(ListQuery(Window(s).0, Window(s).1)).Ok?
    ensures var run := ServePage(c1, answer, s);
      var fetched := answer(ListQuery(Window(s).0, Window(s).1));
      && run.resp == Response(if fetched.HttpErr? then fetched.status else 503, ErrorBody(ListFailedMessage))
      && run.cache == c1 && run.writes == []
      && run.calls == [ListQuery(Window(s).0, Window(s).1)]
  {
  }

  /**
   * When every reference has a string `url`, failed detail fetches never
   * fail the page: it is served with 200 and cached, holding one record per
   * parseable reference.
   */
  lemma DetailFailuresKeepPage(c1: map<string, Json>, answer: Request -> Fetch, s: PageState, refs: seq<Json>)
    requires ValidState(s) && !Truthy(Read(c1, PageKeyOf(s)))
    requires answer(ListQuery(Window(s).0, Window(s).1)).Ok?
    requires ReferenceList(answer(ListQuery(Window(s).0, Window(s).1)).payload) == Some(refs)
    requires HasUrls(refs)
    ensures var run := ServePage(c1, answer, s);
      var items := Assemble(c1, answer, refs).items;
      && |items| == |Parsed(refs)|
      && run.resp == Response(200, Envelope(s, items))
      && Read(run.cache, PageKeyOf(s)) == Envelope(s, items)
      && run.writes[|run.writes| - 1] == Write(PageKeyOf(s), Envelope(s, items), CacheTtl)
  {
    AssembleAbortsOnMissingUrl(c1, answer, refs);
    AssembleOneItemPerParsed(c1, answer, refs);
  }

  /**
   * A reference without a string `url` fails the page with 500: the page is
   * neither served nor cached.
   */
  lemma MissingUrlFailsPage(c1: map<string, Json>, answer: Request -> Fetch, s: PageState, refs: seq<Json>)
    requires ValidState(s) && !Truthy(Read(c1, PageKeyOf(s)))
    requires answer(ListQuery(Window(s).0, Window(s).1)).Ok?
    requires ReferenceList(answer(ListQuery(Window(s).0, Window(s).1)).payload) == Some(refs)
    requires !HasUrls(refs)
    ensures var run := ServePage(c1, answer, s);
      && run.resp == Response(500, ErrorBody(InternalErrorMessage))
      && Read(run.cache, PageKeyOf(s)) == Read(c1, PageKeyOf(s))
      && (forall k :: 0 <= k < |run.writes| ==> run.writes[k].key != PageKeyOf(s))
  {
    AssembleAbortsOnMissingUrl(c1, answer, refs);
    AssembleFrame(c1, answer, refs);
    AssembleEffects(c1, answer, refs);
    NotDetailKeys(Window(s).0, Window(s).1);
  }

  // ---------------------------------------------------------------------
  // the count

  /** Neither a count request nor a count write. */
  predicate NoCountEffects(run: Run)
  {
    && (forall k :: 0 <= k < |run.calls| ==> run.calls[k] != CountQuery)
    && (forall k :: 0 <= k < |run.writes| ==> run.writes[k].key != CountKey)
  }

  /** Once the count is known, the call never asks for it or writes it again. */
  lemma FromCountLeavesCountAlone(c1: map<string, Json>, answer: Request -> Fetch, total: Json, pageReq: Option<string>, sizeReq: Option<string>)
    ensures NoCountEffects(ListFromCount(c1, answer, total, pageReq, sizeReq))
  {
    var n := CountNumber(total);
    if n.Some? && n.value != 0 {
      var s := SelectPage(n.value, pageReq, sizeReq);
      if s.Some? {
        assert ListFromCount(c1, answer, total, pageReq, sizeReq) == ServePage(c1, answer, s.value);
        ServePageLeavesCountAlone(c1, answer, s.value);
      }
    }
  }

  /** A page call neither requests nor writes the count. */
  lemma ServePageLeavesCountAlone(c1: map<string, Json>, answer: Request -> Fetch, s: PageState)
    requires ValidState(s)
    ensures NoCountEffects(ServePage(c1, answer, s))
  {
    ServePageEffects(c1, answer, s);
    NotDetailKeys(Window(s).0, Window(s).1);
    KeysDisjoint(0, Window(s).0, Window(s).1);
  }

  /** With a cached count, the call is the rest of the call from that count. */
  lemma CountHitIsRest(c0: map<string, Json>, answer: Request -> Fetch, pageReq: Option<string>, sizeReq: Option<string>)
    requires Read(c0, CountKey) != JNull
    ensures ListSpec(c0, answer, pageReq, sizeReq) == ListFromCount(c0, answer, Read(c0, CountKey), pageReq, sizeReq)
  {
    assert ResolveCount(c0, answer) == Counted(Read(c0, CountKey), c0, [], []);
  }

  /** Without a cached count, a count read upstream is written and the call goes on from the updated cache. */
  lemma CountMissIsRest(c0: map<string, Json>, answer: Request -> Fetch, pageReq: Option<string>, sizeReq: Option<string>)
    requires Read(c0, CountKey) == JNull
    requires answer(CountQuery).Ok? && answer(CountQuery).payload.JObj?
    ensures var total := Get(answer(CountQuery).payload.fields, "count", JInt(0));
      ListSpec(c0, answer, pageReq, sizeReq)
        == After([Write(CountKey, total, CountTtl)], [CountQuery], ListFromCount(c0[CountKey := total], answer, total, pageReq, sizeReq))
  {
  }

  /** Without a cached count, a non-`None` total read upstream is written first and the call then goes on as on a hit. */
  lemma CountMissThenHit(c0: map<string, Json>, answer: Request -> Fetch, pageReq: Option<string>, sizeReq: Option<string>)
    requires Read(c0, CountKey) == JNull
    requires answer(CountQuery).Ok? && answer(CountQuery).payload.JObj?
    requires Get(answer(CountQuery).payload.fields, "count", JInt(0)) != JNull
    ensures var total := Get(answer(CountQuery).payload.fields, "count", JInt(0));
      ListSpec(c0, answer, pageReq, sizeReq)
        == After([Write(CountKey, total, CountTtl)], [CountQuery], ListSpec(c0[CountKey := total], answer, pageReq, sizeReq))
  {
    var total := Get(answer(CountQuery).payload.fields, "count", JInt(0));
    CountMissIsRest(c0, answer, pageReq, sizeReq);
    CountHitIsRest(c0[CountKey := total], answer, pageReq, sizeReq);
  }

  /** The count request and write come first, and never again. */
  predicate CountedFirst(run: Run, total: Json)
  {
    && |run.calls| >= 1 && run.calls[0] == CountQuery
    && (forall k :: 1 <= k < |run.calls| ==> run.calls[k] != CountQuery)
    && |run.writes| >= 1 && run.writes[0] == Write(CountKey, total, CountTtl)
    && (forall k :: 1 <= k < |run.writes| ==> run.writes[k].key != CountKey)
  }

  lemma CountedFirstAfter(total: Json, tail: Run)
    requires NoCountEffects(tail)
    ensures CountedFirst(After([Write(CountKey, total, CountTtl)], [CountQuery], tail), total)
  {
    var run := After([Write(CountKey, total, CountTtl)], [CountQuery], tail);
    assert forall k :: 1 <= k < |run.calls| ==> run.calls[k] == tail.calls[k - 1];
    assert forall k :: 1 <= k < |run.writes| ==> run.writes[k] == tail.writes[k - 1];
  }

  /**
   * Without a cached count, a count read upstream is requested once and
   * written first, and neither happens again later in the call.
   */
  lemma CountMissFetchesOnce(c0: map<string, Json>, answer: Request -> Fetch, pageReq: Option<string>, sizeReq: Option<string>)
    requires Read(c0, CountKey) == JNull
    requires answer(CountQuery).Ok? && answer(CountQuery).payload.JObj?
    ensures CountedFirst(ListSpec(c0, answer, pageReq, sizeReq), Get(answer(CountQuery).payload.fields, "count", JInt(0)))
  {
    var stage := ResolveCount(c0, answer);
    var tail := ListFromCount(stage.cache, answer, stage.total, pageReq, sizeReq);
    FromCountLeavesCountAlone(stage.cache, answer, stage.total, pageReq, sizeReq);
    assert ListSpec(c0, answer, pageReq, sizeReq) == After([Write(CountKey, stage.total, CountTtl)], [CountQuery], tail);
    CountedFirstAfter(stage.total, tail);
  }

  /** A failed count request ends the call with 503, nothing written and no other request. */
  lemma CountFailureIsUnavailable(c0: map<string, Json>, answer: Request -> Fetch, pageReq: Option<string>, sizeReq: Option<string>)
    requires Read(c0, CountKey) == JNull && !answer(CountQuery).Ok?
    ensures ListSpec(c0, answer, pageReq, sizeReq) == Run(Response(503, ErrorBody(CountFailedMessage)), c0, [], [CountQuery])
  {
  }

  /** A cached count, even a stored 0, is used as is: no count request and no count write. */
  lemma CountHitSkipsCountQuery(c0: map<string, Json>, answer: Request -> Fetch, pageReq: Option<string>, sizeReq: Option<string>)
    requires Read(c0, CountKey) != JNull
    ensures NoCountEffects(ListSpec(c0, answer, pageReq, sizeReq))
  {
    CountHitIsRest(c0, answer, pageReq, sizeReq);
    FromCountLeavesCountAlone(c0, answer, Read(c0, CountKey), pageReq, sizeReq);
  }

  /** A catalogue counted as empty is answered with the empty first page, after the count stage alone. */
  lemma ZeroCountServesEmptyPage(c0: map<string, Json>, answer: Request -> Fetch, pageReq: Option<string>, sizeReq: Option<string>)
    requires ResolveCount(c0, answer).Counted?
    requires CountNumber(ResolveCount(c0, answer).total) == Some(0)
    ensures var run := ListSpec(c0, answer, pageReq, sizeReq);
      && run.resp == Response(200, EmptyEnvelope())
      && run.cache == ResolveCount(c0, answer).cache
      && (forall k :: 0 <= k < |run.writes| ==> run.writes[k].key == CountKey)
      && (forall k :: 0 <= k < |run.calls| ==> run.calls[k] == CountQuery)
  {
  }

  /** A count that is neither an integer nor a boolean ends the call with the framework's 500, after the count stage alone. */
  lemma NonNumericCountIsServerError(c0: map<string, Json>, answer: Request -> Fetch, pageReq: Option<string>, sizeReq: Option<string>)
    requires ResolveCount(c0, answer).Counted?
    requires CountNumber(ResolveCount(c0, answer).total).None?
    ensures var stage := ResolveCount(c0, answer);
      ListSpec(c0, answer, pageReq, sizeReq) == Run(ServerError, stage.cache, stage.writes, stage.calls)
  {
  }

  /**
   * A `?page=` that names no page of a non-empty catalogue is answered with
   * 404 `Invalid page.`, after the count stage alone.
   */
  lemma InvalidPageIsNotFound(c0: map<string, Json>, answer: Request -> Fetch, pageReq: Option<string>, sizeReq: Option<string>)
    requires ResolveCount(c0, answer).Counted?
    requires CountNumber(ResolveCount(c0, answer).total).Some?
    requires CountNumber(ResolveCount(c0, answer).total).value != 0
    requires SelectPage(CountNumber(ResolveCount(c0, answer).total).value, pageReq, sizeReq).None?
    ensures var stage := ResolveCount(c0, answer);
      ListSpec(c0, answer, pageReq, sizeReq) == Run(InvalidPage, stage.cache, stage.writes, stage.calls)
  {
  }

  /** The page call left behind a count other than `None` and, on 200, the page it served under the page key. */
  lemma ServedPageIsCached(c1: map<string, Json>, answer: Request -> Fetch, s: PageState, total: Json)
    requires ValidState(s) && Read(c1, CountKey) == total
    requires ServePage(c1, answer, s).resp.status == 200
    ensures var run := ServePage(c1, answer, s);
      && Read(run.cache, CountKey) == total
      && Truthy(Read(run.cache, PageKeyOf(s)))
      && Read(run.cache, PageKeyOf(s)) == run.resp.body
  {
    ServePageFrame(c1, answer, s);
    NotDetailKeys(Window(s).0, Window(s).1);
    KeysDisjoint(0, Window(s).0, Window(s).1);
  }

  /** After a 200, the rest of the call from the same count is served from the cache it left behind. */
  lemma FromCountTwice(c1: map<string, Json>, answer: Request -> Fetch, later: Request -> Fetch, total: Json,
                       pageReq: Option<string>, sizeReq: Option<string>)
    requires Read(c1, CountKey) == total
    requires ListFromCount(c1, answer, total, pageReq, sizeReq).resp.status == 200
    ensures var run := ListFromCount(c1, answer, total, pageReq, sizeReq);
      && Read(run.cache, CountKey) == total
      && ListFromCount(run.cache, later, total, pageReq, sizeReq) == Run(run.resp, run.cache, [], [])
  {
    var n := CountNumber(total);
    if n.value != 0 {
      var s := SelectPage(n.value, pageReq, sizeReq);
      ServedPageIsCached(c1, answer, s.value, total);
    }
  }

  /**
   * A page request served with 200 is served again, identically, from the
   * cache it left behind, with no upstream request and no write, whatever
   * the upstream then answers.
   */
  lemma ListTwiceServesFromCache(c0: map<string, Json>, answer: Request -> Fetch, later: Request -> Fetch,
                                 pageReq: Option<string>, sizeReq: Option<string>)
    requires ListSpec(c0, answer, pageReq, sizeReq).resp.status == 200
    ensures var run := ListSpec(c0, answer, pageReq, sizeReq);
      ListSpec(run.cache, later, pageReq, sizeReq) == Run(run.resp, run.cache, [], [])
  {
    var stage := ResolveCount(c0, answer);
    var rest := ListFromCount(stage.cache, answer, stage.total, pageReq, sizeReq);
    assert ListSpec(c0, answer, pageReq, sizeReq) == After(stage.writes, stage.calls, rest);
    FromCountTwice(stage.cache, answer, later, stage.total, pageReq, sizeReq);
    CountHitIsRest(rest.cache, later, pageReq, sizeReq);
  }
}
