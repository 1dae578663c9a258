/** CachingGamesProviderDecorator: stores the first page its provider returns, through a
    storage whose `store(games:)` cannot throw, before returning that page. */
module CachingDecorator {
  import opened Games

  /** `GameCacheStorable` as declared beside this decorator: a non-throwing, whole-list store. */
  class GameCacheStorable {
    /** The list the storage holds. */
    var games: seq<Game>

    constructor (games: seq<Game>)
      ensures this.games == games
    {
      this.games := games;
    }

    method Store(games: seq<Game>)
      modifies this
      ensures this.games == games
    {
      this.games := games;
    }
  }

  class CachingGamesProviderDecorator {
    const storage: GameCacheStorable

    constructor (storage: GameCacheStorable)
      ensures this.storage == storage
    {
      this.storage := storage;
    }

    /** `getGames()`, given what the wrapped provider's `getGames()` returned: the
        decorator fails exactly when the provider does, storing nothing then; on success
        the storage holds the page's games and the page comes back unchanged. */
    method GetGames<K>(provided: Result<PaginatedGames<K>>) returns (r: Result<PaginatedGames<K>>)
      modifies storage
      ensures r == provided
      ensures provided.Err? ==> unchanged(storage)
      ensures provided.Ok? ==> storage.games == provided.value.games
    {
      match provided {
        case Err(e) =>
          r := Err(e);
        case Ok(page) =>
          storage.Store(page.games);
          r := Ok(page);
      }
    }
  }
}
