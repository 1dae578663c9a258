/** The current PaginatedGamesProviderAssembler (Games/Main): it owns a games cache and the
    remote games provider and builds two first-page providers over one `loadMore`
    accumulator: a cache-first one and a pure remote one. */
module MainAssembler {
  import opened Games
  import opened Accumulation

  /** The `GamesCache` protocol of this snapshot: `retrieveGames()` may throw, and
      `store(games:)` may throw or overwrite the whole cached list. */
  class GamesCache {
    /** What `retrieveGames()` answers now: the stored list, or the error it throws. */
    var retrieval: Result<seq<Game>>
    /** The error `store(games:)` throws, if it fails; a failed store leaves the cache as it was. */
    var storeFailure: Option<Failure>

    constructor (retrieval: Result<seq<Game>>, storeFailure: Option<Failure>)
      ensures this.retrieval == retrieval && this.storeFailure == storeFailure
    {
      this.retrieval := retrieval;
      this.storeFailure := storeFailure;
    }

    method RetrieveGames() returns (r: Result<seq<Game>>)
      ensures r == retrieval
    {
      r := retrieval;
    }

    method Store(games: seq<Game>) returns (failure: Option<Failure>)
      modifies this
      ensures failure == storeFailure == old(storeFailure)
      ensures retrieval == if failure.None? then Ok(games) else old(retrieval)
    {
      failure := storeFailure;
      if failure.None? {
        retrieval := Ok(games);
      }
    }
  }

  class PaginatedGamesProviderAssembler {
    const cache: GamesCache
    const remoteGamesProvider: RemoteGamesProvider
    const pageSize: int := PageSize

    constructor (cache: GamesCache, remoteGamesProvider: RemoteGamesProvider)
      ensures this.cache == cache && this.remoteGamesProvider == remoteGamesProvider
    {
      this.cache := cache;
      this.remoteGamesProvider := remoteGamesProvider;
    }

    /** One call of `loadMore(currentGames:)` happened between the two states and
        returned `r`: one request for the page after `currentGames`, the cache and the
        result as the accumulator step prescribes, nothing else changed. */
    twostate predicate LoadedMore(currentGames: seq<Game>, new r: Result<Page>)
      reads this, cache, remoteGamesProvider
    {
      var request := NextRequest(currentGames);
      var step := LoadMoreStep(currentGames, remoteGamesProvider.respond(request), old(cache.storeFailure));
      && remoteGamesProvider.requests == old(remoteGamesProvider.requests) + [request]
      && r == step.result
      && cache.retrieval == (if step.written.Some? then Ok(step.written.value) else old(cache.retrieval))
      && cache.storeFailure == old(cache.storeFailure)
    }

    /** `loadMore(currentGames:)`. It is also the body of every continuation it hands
        out: invoking `LoadMoreFrom(games)` is `LoadMore(games)`. */
    method LoadMore(currentGames: seq<Game>) returns (r: Result<Page>)
      modifies cache, remoteGamesProvider
      ensures LoadedMore(currentGames, r)
    {
      var fetched := remoteGamesProvider.GetGames(pageSize, |currentGames|);
      match fetched {
        case Err(e) =>
          r := Err(e);
        case Ok(nextBatchOfGames) =>
          var games := currentGames + nextBatchOfGames;
          var failure := cache.Store(games);
          if failure.Some? {
            r := Err(failure.value);
          } else {
            var reachedEnd := |nextBatchOfGames| != pageSize;
            r := Ok(PaginatedGames(games, if reachedEnd then None else Some(LoadMoreFrom(games))));
          }
      }
    }

    /** The provider made by `makeLocalWithCachingRemotePaginatedGamesProvider()`, invoked:
        a non-empty cache is served with no remote call and no cache write; an empty
        cache or a failing retrieve (its error swallowed) runs `loadMore(currentGames: [])`. */
    method LocalWithCachingRemoteGetGames() returns (r: Result<Page>)
      modifies cache, remoteGamesProvider
      ensures var served := ServedFromCache(old(cache.retrieval));
              if served.Some? then
                r == Ok(served.value) && unchanged(cache, remoteGamesProvider)
              else
                LoadedMore([], r)
    {
      var retrieved := cache.RetrieveGames();
      match retrieved {
        case Ok(cachedGames) =>
          if cachedGames == [] {
            r := LoadMore([]);
          } else {
            r := Ok(PaginatedGames(cachedGames, Some(LoadMoreFrom(cachedGames))));
          }
        case Err(_) =>
          r := LoadMore([]);
      }
    }

    /** The provider made by `makeCachingRemotePaginatedGamesProvider()`, invoked: whatever
        the cache holds, it fetches from offset 0 and caches what it got. */
    method CachingRemoteGetGames() returns (r: Result<Page>)
      modifies cache, remoteGamesProvider
      ensures LoadedMore([], r)
      ensures remoteGamesProvider.requests == old(remoteGamesProvider.requests) + [Request(PageSize, 0)]
    {
      r := LoadMore([]);
    }
  }

  /** A client of the cache-first provider: two games cached, then a remote that has two
      full batches of ten after them and a short batch of two after those. The pages are
      [a, b], then [a, b] extended by each batch in turn, the last without continuation;
      the remote is asked at offsets 2, 12 and 22 only; and the cache holds each page's
      games as soon as that page is returned. */
  method CachedThenThreeRemoteBatches(a: Game, b: Game, first: seq<Game>, second: seq<Game>, third: seq<Game>)
    returns (pages: seq<Page>, requests: seq<Request>, cachedAfter: seq<Result<seq<Game>>>)
    requires |first| == PageSize && |second| == PageSize && |third| == 2
    ensures |pages| == 4 && |cachedAfter| == 4
    ensures pages[0].games == [a, b]
    ensures pages[1].games == [a, b] + first
    ensures pages[2].games == [a, b] + first + second
    ensures pages[3].games == [a, b] + first + second + third && pages[3].loadMore.None?
    ensures forall i | 0 <= i < 3 :: pages[i].loadMore.Some?
    ensures requests == [Request(PageSize, 2), Request(PageSize, 12), Request(PageSize, 22)]
    ensures forall i | 0 <= i < 4 :: cachedAfter[i] == Ok(pages[i].games)
  {
    var remote := new RemoteGamesProvider(
      (request: Request) =>
        if request.offset == 2 then Ok(first)
        else if request.offset == 12 then Ok(second)
        else if request.offset == 22 then Ok(third)
        else Ok([]));
    var cache := new GamesCache(Ok([a, b]), None);
    var assembler := new PaginatedGamesProviderAssembler(cache, remote);

    var page0 := assembler.LocalWithCachingRemoteGetGames();
    assert page0 == Ok(PaginatedGames([a, b], Some(LoadMoreFrom([a, b]))));
    var cached0 := cache.retrieval;

    var page1 := assembler.LoadMore(page0.value.loadMore.value.currentGames);
    assert page1.Ok? && page1.value.loadMore == Some(LoadMoreFrom([a, b] + first));
    var cached1 := cache.retrieval;

    var page2 := assembler.LoadMore(page1.value.loadMore.value.currentGames);
    assert |[a, b] + first| == 12;
    assert page2.Ok? && page2.value.loadMore == Some(LoadMoreFrom([a, b] + first + second));
    var cached2 := cache.retrieval;

    var page3 := assembler.LoadMore(page2.value.loadMore.value.currentGames);
    assert |[a, b] + first + second| == 22;
    assert page3.Ok?;
    var cached3 := cache.retrieval;

    pages := [page0.value, page1.value, page2.value, page3.value];
    requests := remote.requests;
    cachedAfter := [cached0, cached1, cached2, cached3];
  }
}
