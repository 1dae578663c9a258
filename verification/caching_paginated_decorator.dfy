/** CachingPaginatedGamesProviderDecorator: stores the first page its provider returns,
    through a storage whose `store(games:)` may throw, before returning that page. */
module CachingPaginatedDecorator {
  import opened Games

  /** `GameCacheStorable` as declared beside this decorator: a throwing, whole-list store. */
  class GameCacheStorable {
    /** The list the storage holds. */
    var games: seq<Game>
    /** The error `store(games:)` throws, if it fails; a failed store leaves `games` as it was. */
    var insertionFailure: Option<Failure>

    constructor (games: seq<Game>, insertionFailure: Option<Failure>)
      ensures this.games == games && this.insertionFailure == insertionFailure
    {
      this.games := games;
      this.insertionFailure := insertionFailure;
    }

    method Store(games: seq<Game>) returns (failure: Option<Failure>)
      modifies this
      ensures failure == insertionFailure == old(insertionFailure)
      ensures failure.Some? ==> unchanged(this)
      ensures failure.None? ==> this.games == games
    {
      failure := insertionFailure;
      if failure.None? {
        this.games := games;
      }
    }
  }

  class CachingPaginatedGamesProviderDecorator {
    const storage: GameCacheStorable

    constructor (storage: GameCacheStorable)
      ensures this.storage == storage
    {
      this.storage := storage;
    }

    /** `getGames()`, given what the wrapped provider's `getGames()` returned: a provider
        error propagates with no store; otherwise the page's games are stored, a storage
        error propagates instead of the page, and on success the page comes back as the
        provider gave it (its continuation is not wrapped, so later pages are not stored). */
    method GetGames<K>(provided: Result<PaginatedGames<K>>) returns (r: Result<PaginatedGames<K>>)
      modifies storage
      ensures storage.insertionFailure == old(storage.insertionFailure)
      ensures provided.Err? ==> r == provided && unchanged(storage)
      ensures provided.Ok? && old(storage.insertionFailure).Some? ==>
                r == Err(old(storage.insertionFailure).value) && unchanged(storage)
      ensures provided.Ok? && old(storage.insertionFailure).None? ==>
                r == provided && storage.games == provided.value.games
    {
      match provided {
        case Err(e) =>
          r := Err(e);
        case Ok(page) =>
          var failure := storage.Store(page.games);
          if failure.Some? {
            r := Err(failure.value);
          } else {
            r := Ok(page);
          }
      }
    }
  }
}
