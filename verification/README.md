# Paginated games: fetch, cache and present

A Dafny model of the data pipeline of the Games app (Swift). The pipeline fetches a game
catalogue ten games at a time from a remote API. It keeps the games it has in a local
cache, and hands the pages to a view model that publishes `loading`, `error` or
`loaded(games, loadMore?)`.

The repository keeps several snapshots of this feature side by side. Each snapshot is
modelled as written:

- `Accumulation` (accumulation.dfy) is the `loadMore(currentGames:)` accumulator that both
  `PaginatedGamesProviderAssembler` snapshots share. It holds one step as a function, the
  cache-first guard, and `Follow`, the run of pages a caller gets by invoking continuation
  after continuation, with lemmas about that run.
- `MainAssembler` (main_assembler.dfy) is the current assembler (Games/Main). It has two
  entry points: a cache-first one and a pure remote one that starts from offset 0.
- `LegacyAssembler` (legacy_assembler.dfy) is the earlier assembler. Its only entry point,
  `makeCachingRemotePaginatedGamesProvider`, is the cache-first one.
- `RemotePagination` is the cache-less remote paginator with a start offset.
  `LocalPagination` is the first page from a cache, with an injected `loadMore(offset)`.
- `Fallback` is the primary-with-fallback combinator.
- `CachingPaginatedDecorator` is the caching decorator whose store can throw.
  `CachingDecorator` is the one whose store cannot throw.
- `PaginatedGameList` and `GamesLoading` are the two view-model state machines.

How the Swift shapes are encoded:

- A Swift closure becomes a datatype of what it captures. `LoadMoreFrom(currentGames)` is
  `{ loadMore(currentGames: games) }`. `RemoteLoader(currentGames)` is the closure made by
  `makeRemoteLoadMoreLoader`. `LoadMoreAt(offset)` is `{ loadMore(games.count) }`.
  `NextPageLoader(k)` is the view model's wrapper around a provider continuation `k`.
  Invoking a continuation is a function or method of the provider that made it.
- The remote games provider is an oracle `Request -> Result<seq<Game>>`. Where the source
  holds it as an object, it is the class `Games.RemoteGamesProvider`, which also keeps the
  log of requests it received.
- The cache of each assembler is a class. Its `retrieval` field is what `retrieveGames()`
  answers, and a successful `store(games:)` replaces the whole list. Each snapshot has
  its own cache class, because each declares its own cache protocol.
- The storage of each caching decorator is a class that holds only the stored `games`.
  The decorators never read back from it.
- A closure injected from outside (`loadGames`, `reloadGames`, a wrapped provider, a
  primary or fallback provider, a provider continuation invoked by the view model) is
  code this model does not see. What it answers is a parameter. The view models (their
  `invocations` log) and `Fallback.GetGames` (its `called` list) also record which
  closures they invoked. The caching decorators do not: their one call to the wrapped
  provider is taken as given.
- Swift `throws` is `Result`. `async` is dropped: every call is sequential.

Behaviour of the code a reader might not expect:

- End of data is `batch.count != pageSize`, not "fewer than". An oversized batch also ends
  the pagination.
- `RemotePaginatedGamesProvider`'s first page always has a continuation, even when it is
  short.
- `LocalPaginatedGamesProvider` rejects only a nil cache. An empty list is a valid page.
- In the Main snapshot, `makeCachingRemotePaginatedGamesProvider` is the pure remote
  provider, and the cache-first one is `makeLocalWithCachingRemotePaginatedGamesProvider`.
  In the earlier snapshot, `makeCachingRemotePaginatedGamesProvider` is the cache-first one.
- `reload()` never publishes `.loading`, in both view models.

## Model

| member | source | states |
|---|---|---|
| `Games.RemoteGamesProvider.GetGames` | Games/IgdbRemoteGamesProvider.swift:25-37 | every request is logged, in order, and answered by the remote oracle |
| `Accumulation.LoadMoreStep` | Games/Main/PaginatedGamesProviderAssembler.swift:35-48 | a page is returned iff the fetch and the store both succeed; the cache is written iff a page is returned, and then holds exactly that page's games; a remote error propagates with no write; a store error propagates instead of the page; the games are the known ones followed by the batch, in order; a continuation exists iff the batch has exactly 10 games, and it resumes from the merged list |
| `Accumulation.ServedFromCache` | Games/Main/PaginatedGamesProviderAssembler.swift:19-29 | the cache is served iff retrieval succeeded with a non-empty list; the page is then exactly the cached games, and its continuation resumes from those cached games, so it asks for offset `|cached|`; an empty cache or a retrieval error (swallowed) falls through to `loadMore([])` |
| `Accumulation.Follow` | Games/Main/PaginatedGamesProviderAssembler.swift:42-46 | following continuations for `n` calls makes at most `n` requests, the first for the page after the known games |
| `Accumulation.FollowRequests` | Games/Main/PaginatedGamesProviderAssembler.swift:36-39 | the i-th request of a run is `limit 10, offset |start| + 10·i`: 0, 10, 20 … from the pure remote entry, or `|cached|`, `|cached| + 10` … after a cached page |
| `Accumulation.FollowAccumulates` | Games/Main/PaginatedGamesProviderAssembler.swift:40-46 | only the last exchange of a run can fail or lack a continuation; the first page is the start plus the first batch, and every later page is the previous page plus the remote's batch, with no reordering or dedup |
| `Accumulation.FollowStops` | Games/Main/PaginatedGamesProviderAssembler.swift:42-46 | a run that ends before its call budget ended at an error or at a page without continuation |
| `MainAssembler.GamesCache.RetrieveGames` | Games/Main/PaginatedGamesProviderAssembler.swift:21 | returns the stored list or the retrieval error |
| `MainAssembler.GamesCache.Store` | Games/Main/PaginatedGamesProviderAssembler.swift:41 | a successful store replaces the whole list; a failing store throws and changes nothing |
| `MainAssembler.PaginatedGamesProviderAssembler.constructor` | Games/Main/PaginatedGamesProviderAssembler.swift:11-17 | keeps the cache and remote it is given; the page size is 10 |
| `MainAssembler.PaginatedGamesProviderAssembler.LoadMore` | Games/Main/PaginatedGamesProviderAssembler.swift:35-48 | one request `(10, |currentGames|)` is logged; result and new cache contents are those of `LoadMoreStep` on the remote's answer and the cache's store outcome; nothing else changes |
| `MainAssembler.PaginatedGamesProviderAssembler.LocalWithCachingRemoteGetGames` | Games/Main/PaginatedGamesProviderAssembler.swift:19-29 | with a non-empty cache it returns the cached page and touches neither the remote nor the cache; otherwise it is exactly `loadMore(currentGames: [])` |
| `MainAssembler.PaginatedGamesProviderAssembler.CachingRemoteGetGames` | Games/Main/PaginatedGamesProviderAssembler.swift:31-33 | ignores the cache contents and is exactly `loadMore(currentGames: [])`: one request at offset 0 |
| `MainAssembler.CachedThenThreeRemoteBatches` | GamesTests/CachingRemotePaginatedGamesProviderTests.swift:93-158 | with two cached games, two batches of 10 and then a batch of 2, the pages are `[a,b]`, then `[a,b]` extended by each batch in turn; every page but the last has a continuation, and the last has none; the remote is asked only at offsets 2, 12 and 22; the cache holds each page's games when the page is returned |
| `LegacyAssembler.RetrievableStorableCache.RetrieveGames` | Games/GameCacheRetrievable.swift:5-7 | returns the stored list or the retrieval error |
| `LegacyAssembler.RetrievableStorableCache.Store` | Games/CachingPaginatedGamesProviderDecorator.swift:5-7 | a successful store replaces the whole list; a failing store throws and changes nothing |
| `LegacyAssembler.PaginatedGamesProviderAssembler.constructor` | Games/PaginatedGamesProviderAssembler.swift:11-17 | keeps the cache and remote it is given; the page size is 10 |
| `LegacyAssembler.PaginatedGamesProviderAssembler.LoadMore` | Games/PaginatedGamesProviderAssembler.swift:31-44 | one request `(10, |currentGames|)` is logged; result and new cache contents are those of `LoadMoreStep`; nothing else changes |
| `LegacyAssembler.PaginatedGamesProviderAssembler.CachingRemoteGetGames` | Games/PaginatedGamesProviderAssembler.swift:19-29 | cache-first: a non-empty cache is returned with no remote call and no write; an empty or failing cache runs `loadMore(currentGames: [])` |
| `RemotePagination.WithDefaultStartOffset` | Games/RemotePaginatedGamesProvider.swift:10-16 | the default start offset is 0 |
| `RemotePagination.GetGames` | Games/RemotePaginatedGamesProvider.swift:18-21 | asks for `(10, startOffset)`; a remote error propagates; the page is exactly the batch and always carries a continuation from it, whatever its size |
| `RemotePagination.LoadMore` | Games/RemotePaginatedGamesProvider.swift:23-37 | asks for `(10, |currentGames| + startOffset)`; a remote error propagates; the page is the known games then the batch; a continuation exists iff the batch has exactly 10 games, and it resumes from the merged list |
| `RemotePagination.Follow` | Games/RemotePaginatedGamesProvider.swift:29-33 | invoking continuations for `n` calls makes at most `n` requests, the first being the loader's own |
| `RemotePagination.FollowRequests` | Games/RemotePaginatedGamesProvider.swift:25-28 | the i-th request after a loader holding `k` games is at `startOffset + k + 10·i` |
| `RemotePagination.FollowAccumulates` | Games/RemotePaginatedGamesProvider.swift:29-34 | only the last exchange can fail or end; the first page is the loader's games plus the first batch, and every later page is the previous page plus exactly the remote's batch |
| `RemotePagination.FirstPageThenFollow` | Games/RemotePaginatedGamesProvider.swift:18-28 | after a first page of `b` games, the continuations ask at `startOffset + b`, then 10 further each time (0, 10, 20 or 15, 25, 35 with full batches) |
| `LocalPagination.GetGames` | Games/LocalPaginatedGamesProvider.swift:23-28 | fails with `MissingGamesError` iff the cache answers nil; otherwise the page is exactly the cached list (empty included) with a continuation at offset `|cached|`; the injected `loadMore` is not called |
| `LocalPagination.InvokeLoadMore` | Games/LocalPaginatedGamesProvider.swift:25-27 | invoking the continuation of a page served from a cached list returns the injected `loadMore`'s page for the size of that list, untouched and with its continuation |
| `Fallback.GetGames` | Games/PrimaryWithFallbackPaginatedGamesProvider.swift:18-21 | the primary is called first and exactly once; the fallback is called exactly once, iff the primary threw; a primary page is returned untouched; otherwise the fallback's page or its own error (not the primary's) is returned |
| `Fallback.NestingIsAssociative` | Games/PrimaryWithFallbackPaginatedGamesProvider.swift:18-21 | nesting the combinator either way gives the outcome of the first provider that does not throw, else the last provider's error |
| `CachingPaginatedDecorator.GameCacheStorable.Store` | Games/CachingPaginatedGamesProviderDecorator.swift:5-7 | a successful store replaces the whole list; a failing store throws and changes nothing |
| `CachingPaginatedDecorator.CachingPaginatedGamesProviderDecorator.constructor` | Games/CachingPaginatedGamesProviderDecorator.swift:14-17 | keeps the storage it is given |
| `CachingPaginatedDecorator.CachingPaginatedGamesProviderDecorator.GetGames` | Games/CachingPaginatedGamesProviderDecorator.swift:19-23 | a provider error propagates with storage untouched; a storage error propagates and no page is returned; on success the storage holds exactly the page's games and the page, continuation included, is returned unchanged |
| `CachingDecorator.GameCacheStorable.Store` | Games/CachingGamesProviderDecorator.swift:5-7 | the store replaces the whole list and cannot fail |
| `CachingDecorator.CachingGamesProviderDecorator.constructor` | Games/CachingGamesProviderDecorator.swift:14-17 | keeps the storage it is given |
| `CachingDecorator.CachingGamesProviderDecorator.GetGames` | Games/CachingGamesProviderDecorator.swift:19-23 | the result is always the provider's result, so storage never causes a failure; a provider error leaves storage untouched; on success the storage holds exactly the page's games |
| `PaginatedGameList.SamePresentable` | Games/PaginatedGameListViewModel.swift:70-77 | two presentables are equal iff they are equal as values once their load-more actions are erased; closures are never compared |
| `PaginatedGameList.SameState` | Games/PaginatedGameListViewModel.swift:15-19 | the synthesised state equality is value equality once every load-more action is erased: same case, and loaded states with the same games |
| `PaginatedGameList.SameStateComparesGamesOnly` | Games/PaginatedGameListViewModel.swift:70-77 | two loaded states are equal iff their games are, whatever their load-more actions; a state equals `.loading` iff it is `.loading` |
| `PaginatedGameList.LoadNextPage` | Games/PaginatedGameListViewModel.swift:57-67 | the presented action exists iff the provider's continuation does, and it wraps that continuation |
| `PaginatedGameList.Settled` | Games/PaginatedGameListViewModel.swift:43-55 | success gives `loaded` with the page's games and the action `loadNextPage(current: page)`, which exists iff the page has a continuation; failure gives `.error` |
| `PaginatedGameList.PaginatedGameListViewModel.constructor` | Games/PaginatedGameListViewModel.swift:24-32 | the initial state is `.loading`, and it is all a subscriber has seen |
| `PaginatedGameList.PaginatedGameListViewModel.Publish` | Games/PaginatedGameListViewModel.swift:32 | an assignment to the published state reaches subscribers |
| `PaginatedGameList.PaginatedGameListViewModel.Load` | Games/PaginatedGameListViewModel.swift:34-37 | publishes `.loading` only if the state is not already `.loading`, invokes `loadGames` once, then publishes the settled state |
| `PaginatedGameList.PaginatedGameListViewModel.Reload` | Games/PaginatedGameListViewModel.swift:39-41 | invokes `reloadGames` once and publishes only the settled state, never `.loading` |
| `PaginatedGameList.PaginatedGameListViewModel.LoadUsing` | Games/PaginatedGameListViewModel.swift:43-55 | publishes the settled state for the action's outcome |
| `PaginatedGameList.PaginatedGameListViewModel.InvokeLoadMore` | Games/PaginatedGameListViewModel.swift:59-66 | invokes the wrapped continuation once; on success it publishes `loaded` with the new page, re-wrapping that page's continuation (none once the provider has none), and never `.loading`; on failure it rethrows and leaves the state and the published trace unchanged |
| `GamesLoading.Settled` | Games/GamesLoadingViewModel.swift:29-38 | success gives `loaded(games)` with exactly the games; failure gives `.error`, which keeps no games |
| `GamesLoading.GamesLoadingViewModel.constructor` | Games/GamesLoadingViewModel.swift:19-27 | the initial state is `.loading` |
| `GamesLoading.GamesLoadingViewModel.Publish` | Games/GamesLoadingViewModel.swift:27 | an assignment to the published state reaches subscribers |
| `GamesLoading.GamesLoadingViewModel.Load` | Games/GamesLoadingViewModel.swift:29-33 | publishes `.loading` only if the state differs from it, invokes `loadGames` once, then publishes `loaded(games)` or `.error` |
| `GamesLoading.GamesLoadingViewModel.Reload` | Games/GamesLoadingViewModel.swift:35-38 | invokes `reloadGames` once and goes straight to `loaded(games)` or `.error`, never `.loading` |

## Left out

- The network transport and JSON decoding behind the remote games provider are left out. The remote is an oracle of the request.
- The disk codecs behind the caches are left out. Only whole-list overwrite and the chance of a throw are kept. The two codecs disagree on a missing file: Games/Cache/CodableGamesStore.swift answers `[]` and Games/CodableGamesStore.swift answers nil. A cache here answers whatever its `retrieval` field holds.
- A store that throws is assumed to leave the cache as it was. The source does not say what a failed write leaves on disk.
- `NullGameStore` is not modelled. Its store is a no-op, unlike the overwrite of every cache class here.
- `async`/`await`, `@MainActor` and cancellation are left out. Every call is sequential.
- Combine delivery is reduced to the `published` trace of assignments.
- `Game.rating` is a `Double` in the source. Here `Rating` wraps an integer, and no arithmetic is done on it.
- Swift `Int` is 64 bits, but offsets here are unbounded integers. Overflow of `startOffset + count` is not modelled.
- The SwiftUI views, the app wiring, the `.task` first-appearance latch and the generic `PaginatedListViewModel<Item>` of a later snapshot are not part of this model.
- Providers and continuations injected as closures are not run by the model. Their answers are parameters, so two invocations of the same closure may answer differently, as the stubs in the tests do.
- `Follow` in both `Accumulation` and `RemotePagination` bounds a run by a call budget `n`, because the remote may never end the pagination.
- CachingPaginatedDecorator.CachingPaginatedGamesProviderDecorator.GetGames and CachingDecorator.CachingGamesProviderDecorator.GetGames take the wrapped provider's outcome as a parameter. They do not record that the provider is called exactly once, before the store.
- `Follow` in `Accumulation` assumes every store succeeds. A failing store is covered one step at a time by `LoadMoreStep`.
