/** The earlier PaginatedGamesProviderAssembler (Games/PaginatedGamesProviderAssembler.swift):
    the same `loadMore` accumulator, but its only provider,
    `makeCachingRemotePaginatedGamesProvider`, is the cache-first one. */
module LegacyAssembler {
  import opened Games
  import opened Accumulation

  /** The cache of this snapshot, typed `GameCacheRetrievable & GameCacheStorable`:
      `retrieveGames()` may throw, `store(games:)` may throw or overwrite the whole list. */
  class RetrievableStorableCache {
    /** What `retrieveGames()` answers now: the stored list, or the error it throws. */
    var retrieval: Result<seq<Game>>
    /** The error `store(games:)` throws, if it fails; a failed store leaves the cache as it was. */
    var storeFailure: Option<Failure>

    constructor (retrieval: Result<seq<Game>>, storeFailure: Option<Failure>)
      ensures this.retrieval == retrieval && this.storeFailure == storeFailure
    {
      this.retrieval := retrieval;
      this.storeFailure := storeFailure;
    }

    method RetrieveGames() returns (r: Result<seq<Game>>)
      ensures r == retrieval
    {
      r := retrieval;
    }

    method Store(games: seq<Game>) returns (failure: Option<Failure>)
      modifies this
      ensures failure == storeFailure == old(storeFailure)
      ensures retrieval == if failure.None? then Ok(games) else old(retrieval)
    {
      failure := storeFailure;
      if failure.None? {
        retrieval := Ok(games);
      }
    }
  }

  class PaginatedGamesProviderAssembler {
    const cache: RetrievableStorableCache
    const remoteGamesProvider: RemoteGamesProvider
    const pageSize: int := PageSize

    constructor (cache: RetrievableStorableCache, remoteGamesProvider: RemoteGamesProvider)
      ensures this.cache == cache && this.remoteGamesProvider == remoteGamesProvider
    {
      this.cache := cache;
      this.remoteGamesProvider := remoteGamesProvider;
    }

    /** One call of `loadMore(currentGames:)` happened between the two states and
        returned `r`: one request for the page after `currentGames`, the cache and the
        result as the accumulator step prescribes, nothing else changed. */
    twostate predicate LoadedMore(currentGames: seq<Game>, new r: Result<Page>)
      reads this, cache, remoteGamesProvider
    {
      var request := NextRequest(currentGames);
      var step := LoadMoreStep(currentGames, remoteGamesProvider.respond(request), old(cache.storeFailure));
      && remoteGamesProvider.requests == old(remoteGamesProvider.requests) + [request]
      && r == step.result
      && cache.retrieval == (if step.written.Some? then Ok(step.written.value) else old(cache.retrieval))
      && cache.storeFailure == old(cache.storeFailure)
    }

    /** `loadMore(currentGames:)`, also the body of every continuation it hands out. */
    method LoadMore(currentGames: seq<Game>) returns (r: Result<Page>)
      modifies cache, remoteGamesProvider
      ensures LoadedMore(currentGames, r)
    {
      var fetched := remoteGamesProvider.GetGames(pageSize, |currentGames|);
      match fetched {
        case Err(e) =>
          r := Err(e);
        case Ok(nextBatchOfGames) =>
          var games := currentGames + nextBatchOfGames;
          var failure := cache.Store(games);
          if failure.Some? {
            r := Err(failure.value);
          } else {
            var reachedEnd := |nextBatchOfGames| != pageSize;
            r := Ok(PaginatedGames(games, if reachedEnd then None else Some(LoadMoreFrom(games))));
          }
      }
    }

    /** The provider made by `makeCachingRemotePaginatedGamesProvider()` in this snapshot,
        invoked: cache-first, exactly like the Main snapshot's local-with-caching-remote
        provider. */
    method CachingRemoteGetGames() returns (r: Result<Page>)
      modifies cache, remoteGamesProvider
      ensures var served := ServedFromCache(old(cache.retrieval));
              if served.Some? then
                r == Ok(served.value) && unchanged(cache, remoteGamesProvider)
              else
                LoadedMore([], r)
    {
      var retrieved := cache.RetrieveGames();
      match retrieved {
        case Ok(cachedGames) =>
          if cachedGames == [] {
            r := LoadMore([]);
          } else {
            r := Ok(PaginatedGames(cachedGames, Some(LoadMoreFrom(cachedGames))));
          }
        case Err(_) =>
          r := LoadMore([]);
      }
    }
  }
}
