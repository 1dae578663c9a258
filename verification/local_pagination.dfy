/** LocalPaginatedGamesProvider: the first page straight from a non-throwing cache, whose
    continuation hands over to an injected `loadMore(offset)`. */
module LocalPagination {
  import opened Games

  /** The continuation `{ loadMore(games.count) }`: it captures the number of cached games. */
  datatype LoadMoreAt = LoadMoreAt(offset: nat)

  /** The provider holds the injected `loadMore: (Offset) -> PaginatedGames`; the cache is
      asked on every `getGames()`, so its answer (`cachedGames()`, nil or a list) is a
      parameter of `GetGames`. `K` is whatever continuation the injected pages carry. */
  datatype LocalPaginatedGamesProvider<K> = LocalPaginatedGamesProvider(loadMore: nat -> PaginatedGames<K>)

  /** `getGames()`: a nil cache throws `MissingGamesError`; any list, the empty one
      included, becomes the page, and it always has a continuation. The injected
      `loadMore` is not called here. */
  function GetGames<K>(p: LocalPaginatedGamesProvider<K>, cachedGames: Option<seq<Game>>): (r: Result<PaginatedGames<LoadMoreAt>>)
    ensures r.Err? <==> cachedGames.None?
    ensures r.Err? ==> r.error == MissingGamesError
    ensures r.Ok? ==> r.value.games == cachedGames.value
    ensures r.Ok? ==> r.value.loadMore == Some(LoadMoreAt(|cachedGames.value|))
  {
    match cachedGames
    case None => Err(MissingGamesError)
    case Some(games) => Ok(PaginatedGames(games, Some(LoadMoreAt(|games|))))
  }

  /** Invoking the continuation: the injected `loadMore` with the captured offset, its page
      returned as it is. */
  function InvokeLoadMore<K>(p: LocalPaginatedGamesProvider<K>, continuation: LoadMoreAt): (page: PaginatedGames<K>)
    // the continuation of a page served from `cached` asks `loadMore` for what follows those games
    ensures forall cached: seq<Game> | GetGames(p, Some(cached)).value.loadMore == Some(continuation) ::
              page == p.loadMore(|cached|)
  {
    p.loadMore(continuation.offset)
  }
}
