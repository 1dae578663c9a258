/** GamesLoadingViewModel: the non-paginated predecessor of the list view model, publishing
    `loading | error | loaded(games)`. */
module GamesLoading {
  import opened Games

  /** An error carries no games: after a failure nothing of the previous list is kept. */
  datatype LoadingState = Loading | Error | Loaded(games: seq<Game>)

  /** The state `load()` and `reload()` settle in once their closure answered `outcome`. */
  function Settled(outcome: Result<seq<Game>>): (s: LoadingState)
    ensures s.Loaded? <==> outcome.Ok?
    ensures s.Error? <==> outcome.Err?
    ensures s.Loaded? ==> s.games == outcome.value
  {
    match outcome
    case Ok(games) => Loaded(games)
    case Err(_) => Error
  }

  /** The closures the view model invoked, in order. */
  datatype Invocation = LoadGames | ReloadGames

  class GamesLoadingViewModel {
    /** The `@Published` state. */
    var state: LoadingState
    /** What a subscriber to `$state` has received: the value at subscription, then every assignment. */
    var published: seq<LoadingState>
    var invocations: seq<Invocation>

    constructor ()
      ensures state == Loading && published == [Loading] && invocations == []
    {
      state := Loading;
      published := [Loading];
      invocations := [];
    }

    /** An assignment to the `@Published` property. */
    method Publish(s: LoadingState)
      modifies this
      ensures state == s && published == old(published) + [s] && invocations == old(invocations)
    {
      state := s;
      published := published + [s];
    }

    /** `load()`, given what `loadGames()` returns: `.loading` only if the state differs
        from it, then the games or the error. */
    method Load(loaded: Result<seq<Game>>)
      modifies this
      ensures invocations == old(invocations) + [LoadGames]
      ensures state == Settled(loaded)
      ensures published == old(published) + (if old(state) == Loading then [] else [Loading]) + [state]
    {
      if state != Loading {
        Publish(Loading);
      }
      invocations := invocations + [LoadGames];
      match loaded {
        case Ok(games) => Publish(Loaded(games));
        case Err(_) => Publish(Error);
      }
    }

    /** `reload()`, given what `reloadGames()` returns: straight to the games or the error. */
    method Reload(reloaded: Result<seq<Game>>)
      modifies this
      ensures invocations == old(invocations) + [ReloadGames]
      ensures state == Settled(reloaded)
      ensures published == old(published) + [state]
    {
      invocations := invocations + [ReloadGames];
      match reloaded {
        case Ok(games) => Publish(Loaded(games));
        case Err(_) => Publish(Error);
      }
    }
  }
}
