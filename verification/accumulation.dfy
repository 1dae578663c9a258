/** The paginated accumulator behind both snapshots of PaginatedGamesProviderAssembler:
    one `loadMore(currentGames:)` step, the cache-first decision taken by the first-page
    closure, and what a caller sees when it keeps following the continuations. */
module Accumulation {
  import opened Games

  /** `pageSize` of the assembler: the limit of every remote request. */
  const PageSize: int := 10

  /** The continuation closure `{ try await loadMore(currentGames: games) }`: all it
      captures is the list of games to continue from. */
  datatype LoadMoreFrom = LoadMoreFrom(currentGames: seq<Game>)

  type Page = PaginatedGames<LoadMoreFrom>

  /** The request `loadMore(currentGames:)` sends: the next page after what is known. */
  function NextRequest(currentGames: seq<Game>): Request
  {
    Request(PageSize, |currentGames|)
  }

  /** One step of `loadMore`: the list it leaves in the cache (None: the cache is
      not changed) and what it returns or throws. */
  datatype Step = Step(written: Option<seq<Game>>, result: Result<Page>)

  /** `loadMore(currentGames:)`, given what the remote answered to `NextRequest` and
      whether `cache.store` throws. The remote is asked first, then the merged list
      is stored, then the page is built. */
  function LoadMoreStep(currentGames: seq<Game>, fetched: Result<seq<Game>>, storeFailure: Option<Failure>): (s: Step)
    // a page is returned exactly when both the fetch and the store succeed
    ensures s.result.Ok? <==> fetched.Ok? && storeFailure.None?
    // nothing is presented that is not in the cache, and nothing is cached that is not presented
    ensures s.written.Some? <==> s.result.Ok?
    ensures s.result.Ok? ==> s.written == Some(s.result.value.games)
    // a remote failure propagates; a store failure after a good fetch propagates instead
    ensures fetched.Err? ==> s.result == Err(fetched.error)
    ensures fetched.Ok? && storeFailure.Some? ==> s.result == Err(storeFailure.value)
    // the known games come first, then the batch, in order and without merging
    ensures s.result.Ok? ==> s.result.value.games == currentGames + fetched.value
    // only a batch of exactly PageSize games leaves a continuation (an oversized one ends too)
    ensures s.result.Ok? ==> (s.result.value.loadMore.Some? <==> |fetched.value| == PageSize)
    ensures s.result.Ok? && s.result.value.loadMore.Some? ==>
              s.result.value.loadMore.value.currentGames == s.result.value.games
  {
    match fetched
    case Err(e) => Step(None, Err(e))
    case Ok(batch) =>
      var games := currentGames + batch;
      match storeFailure
      case Some(e) => Step(None, Err(e))
      case None =>
        var reachedEnd := |batch| != PageSize;
        Step(Some(games), Ok(PaginatedGames(games, if reachedEnd then None else Some(LoadMoreFrom(games)))))
  }

  /** The guard of the cache-first closure: `try? cache.retrieveGames()` that gave a
      non-empty list is served as the first page; anything else (an error, which is
      swallowed, or an empty list) falls through to `loadMore(currentGames: [])`. */
  function ServedFromCache(retrieved: Result<seq<Game>>): (page: Option<Page>)
    ensures page.Some? <==> retrieved.Ok? && retrieved.value != []
    // the cached games unchanged, and a continuation that asks the remote for what follows them
    ensures page.Some? ==> page.value.games == retrieved.value
    ensures page.Some? ==> page.value.loadMore == Some(LoadMoreFrom(retrieved.value))
    ensures page.Some? ==> NextRequest(page.value.loadMore.value.currentGames) == Request(PageSize, |retrieved.value|)
  {
    match retrieved
    case Ok(cached) =>
      if cached == [] then None
      else Some(PaginatedGames(cached, Some(LoadMoreFrom(cached))))
    case Err(_) => None
  }

  /** The exchanges a caller sees when it calls `loadMore(currentGames:)` and then keeps
      invoking the continuation of each page it gets, at most `n` calls in all, while
      every store succeeds. The run ends early at an error or at a page without
      continuation. */
  function Follow(remote: Remote, currentGames: seq<Game>, n: nat): (run: seq<Exchange<LoadMoreFrom>>)
    ensures |run| <= n
    ensures n > 0 ==> |run| > 0 && run[0].request == NextRequest(currentGames)
    decreases n
  {
    if n == 0 then []
    else
      var request := NextRequest(currentGames);
      var step := LoadMoreStep(currentGames, remote(request), None);
      [Exchange(request, step.result)] +
        match step.result
        case Ok(PaginatedGames(_, Some(next))) => Follow(remote, next.currentGames, n - 1)
        case _ => []
  }

  /** Offsets advance by PageSize from the size of the known list: 0, 10, 20, ... from
      an empty start, |cached|, |cached| + 10, ... after a cached first page. */
  lemma {:induction false} FollowRequests(remote: Remote, currentGames: seq<Game>, n: nat)
    ensures forall i | 0 <= i < |Follow(remote, currentGames, n)| ::
              Follow(remote, currentGames, n)[i].request == Request(PageSize, |currentGames| + PageSize * i)
    decreases n
  {
    if n > 0 {
      var request := NextRequest(currentGames);
      var step := LoadMoreStep(currentGames, remote(request), None);
      match step.result
      case Ok(PaginatedGames(games, Some(next))) =>
        var rest := Follow(remote, next.currentGames, n - 1);
        assert |next.currentGames| == |currentGames| + PageSize;
        FollowRequests(remote, next.currentGames, n - 1);
        var run := Follow(remote, currentGames, n);
        assert run == [Exchange(request, step.result)] + rest;
        forall i | 1 <= i < |run|
          ensures run[i].request == Request(PageSize, |currentGames| + PageSize * i)
        {
          assert run[i] == rest[i - 1];
          assert rest[i - 1].request == Request(PageSize, |next.currentGames| + PageSize * (i - 1));
          assert PageSize * i == PageSize * (i - 1) + PageSize;
        }
      case _ =>
    }
  }

  /** Only the last exchange of a run can fail or end the pagination, and every page
      extends the previous one by exactly the batch the remote returned. */
  lemma {:induction false} FollowAccumulates(remote: Remote, currentGames: seq<Game>, n: nat)
    ensures var run := Follow(remote, currentGames, n);
            forall i | 0 <= i < |run| - 1 :: run[i].result.Ok? && run[i].result.value.loadMore.Some?
    ensures var run := Follow(remote, currentGames, n);
            forall i | 0 <= i < |run| && run[i].result.Ok? :: remote(run[i].request).Ok?
    ensures var run := Follow(remote, currentGames, n);
            |run| > 0 && run[0].result.Ok? ==>
              run[0].result.value.games == currentGames + remote(run[0].request).value
    ensures var run := Follow(remote, currentGames, n);
            forall i | 1 <= i < |run| && run[i].result.Ok? ::
              run[i].result.value.games == run[i - 1].result.value.games + remote(run[i].request).value
    decreases n
  {
    if n > 0 {
      var run := Follow(remote, currentGames, n);
      var request := NextRequest(currentGames);
      var step := LoadMoreStep(currentGames, remote(request), None);
      match step.result
      case Ok(PaginatedGames(games, Some(next))) =>
        var rest := Follow(remote, next.currentGames, n - 1);
        FollowAccumulates(remote, next.currentGames, n - 1);
        assert run == [Exchange(request, step.result)] + rest;
        forall i | 1 <= i < |run| && run[i].result.Ok?
          ensures run[i].result.value.games == run[i - 1].result.value.games + remote(run[i].request).value
        {
          assert run[i] == rest[i - 1];
          if i == 1 {
            assert rest[0].request == NextRequest(next.currentGames);
          } else {
            assert run[i - 1] == rest[i - 2];
          }
        }
      case _ =>
        assert |run| == 1;
    }
  }

  /** A run shorter than the number of calls allowed stopped for a reason: its last
      exchange failed or returned a page without continuation. */
  lemma {:induction false} FollowStops(remote: Remote, currentGames: seq<Game>, n: nat)
    ensures var run := Follow(remote, currentGames, n);
            0 < |run| < n ==>
              run[|run| - 1].result.Err? || run[|run| - 1].result.value.loadMore.None?
    decreases n
  {
    if n > 0 {
      var request := NextRequest(currentGames);
      var step := LoadMoreStep(currentGames, remote(request), None);
      match step.result
      case Ok(PaginatedGames(games, Some(next))) =>
        FollowStops(remote, next.currentGames, n - 1);
      case _ =>
    }
  }
}
