/** PaginatedGameListViewModel: turns the pages of a paginated provider into a published
    `loading | error | loaded(games, loadMore?)` state, and re-presents every page a
    "load more" brings. */
module PaginatedGameList {
  import opened Games

  /** The closure `loadNextPage(current:)` returns: it captures the view model and the
      provider's continuation `providerLoadMore`. */
  datatype NextPageLoader<K> = NextPageLoader(providerLoadMore: K)

  /** `PresentableGames`: the games on screen and the "load more" action, if any. */
  datatype PresentableGames<K> = PresentableGames(games: seq<Game>, loadMore: Option<NextPageLoader<K>>)

  datatype LoadingState<K> = Loading | Error | Loaded(presentable: PresentableGames<K>)

  /** A presentable with its "load more" action erased: the part of it Swift can compare. */
  function ErasedPresentable<K>(p: PresentableGames<K>): PresentableGames<()>
  {
    PresentableGames(p.games, None)
  }

  /** A state with every "load more" action erased. */
  function Erased<K>(s: LoadingState<K>): LoadingState<()>
  {
    match s
    case Loading => Loading
    case Error => Error
    case Loaded(p) => Loaded(ErasedPresentable(p))
  }

  /** The custom `PresentableGames ==`: the values are equal once their actions are
      erased; the closures are never compared. */
  predicate SamePresentable<K>(lhs: PresentableGames<K>, rhs: PresentableGames<K>): (same: bool)
    ensures same <==> ErasedPresentable(lhs) == ErasedPresentable(rhs)
  {
    rhs.games == lhs.games
  }

  /** The `LoadingState ==` Swift synthesises: same case, loaded states compared with
      `PresentableGames ==`. It is value equality once the actions are erased. */
  predicate SameState<K>(lhs: LoadingState<K>, rhs: LoadingState<K>): (same: bool)
    ensures same <==> Erased(lhs) == Erased(rhs)
  {
    match (lhs, rhs)
    case (Loading, Loading) => true
    case (Error, Error) => true
    case (Loaded(l), Loaded(r)) => SamePresentable(l, r)
    case _ => false
  }

  /** Two loaded states are equal exactly when their games are, whatever their "load
      more" actions; and equality with `.loading` is the `.loading` case itself. */
  lemma SameStateComparesGamesOnly<K>(s: LoadingState<K>, p: PresentableGames<K>, q: PresentableGames<K>)
    ensures SameState(Loaded(p), Loaded(q)) <==> p.games == q.games
    ensures SameState(s, Loading) <==> s.Loading?
  {
  }

  /** `loadNextPage(current:)`: no action once the provider has no continuation, else one
      that invokes that continuation. */
  function LoadNextPage<K>(current: PaginatedGames<K>): (loader: Option<NextPageLoader<K>>)
    ensures loader.Some? <==> current.loadMore.Some?
    ensures loader.Some? ==> loader.value.providerLoadMore == current.loadMore.value
  {
    match current.loadMore
    case None => None
    case Some(k) => Some(NextPageLoader(k))
  }

  /** The state `load(using:)` settles in after the provider answered `outcome`. */
  function Settled<K>(outcome: Result<PaginatedGames<K>>): (s: LoadingState<K>)
    ensures s.Loaded? <==> outcome.Ok?
    ensures s.Error? <==> outcome.Err?
    ensures s.Loaded? ==> s.presentable.games == outcome.value.games
    ensures s.Loaded? ==> (s.presentable.loadMore.Some? <==> outcome.value.loadMore.Some?)
    ensures s.Loaded? ==> s.presentable.loadMore == LoadNextPage(outcome.value)
  {
    match outcome
    case Ok(page) => Loaded(PresentableGames(page.games, LoadNextPage(page)))
    case Err(_) => Error
  }

  /** The closures the view model invoked, in order. */
  datatype Invocation<K> = LoadGames | ReloadGames | ProviderLoadMore(continuation: K)

  class PaginatedGameListViewModel<K> {
    /** The `@Published` state. */
    var state: LoadingState<K>
    /** What a subscriber to `$state` has received: the value at subscription, then every assignment. */
    var published: seq<LoadingState<K>>
    var invocations: seq<Invocation<K>>

    constructor ()
      ensures state == Loading && published == [Loading] && invocations == []
    {
      state := Loading;
      published := [Loading];
      invocations := [];
    }

    /** An assignment to the `@Published` property. */
    method Publish(s: LoadingState<K>)
      modifies this
      ensures state == s && published == old(published) + [s] && invocations == old(invocations)
    {
      state := s;
      published := published + [s];
    }

    /** `load()`, given what `loadGames()` returns: `.loading` is published unless the
        state already is `.loading`, `loadGames` is called once, then the page or the
        error is published. */
    method Load(loaded: Result<PaginatedGames<K>>)
      modifies this
      ensures invocations == old(invocations) + [LoadGames]
      ensures state == Settled(loaded)
      ensures published == old(published) + (if old(state).Loading? then [] else [Loading]) + [state]
    {
      if !SameState(state, Loading) {
        Publish(Loading);
      }
      invocations := invocations + [LoadGames];
      LoadUsing(loaded);
    }

    /** `reload()`, given what `reloadGames()` returns: no `.loading` on the way. */
    method Reload(reloaded: Result<PaginatedGames<K>>)
      modifies this
      ensures invocations == old(invocations) + [ReloadGames]
      ensures state == Settled(reloaded)
      ensures published == old(published) + [state]
    {
      invocations := invocations + [ReloadGames];
      LoadUsing(reloaded);
    }

    /** `load(using:)` once its action has answered `outcome`. */
    method LoadUsing(outcome: Result<PaginatedGames<K>>)
      modifies this
      ensures state == Settled(outcome)
      ensures published == old(published) + [state] && invocations == old(invocations)
    {
      match outcome {
        case Ok(page) =>
          var presentable := PresentableGames(page.games, LoadNextPage(page));
          Publish(Loaded(presentable));
        case Err(_) =>
          Publish(Error);
      }
    }

    /** Invoking a presented "load more" action, given what the provider's continuation
        returns: a new page replaces the state, re-wrapping that page's own continuation,
        with no `.loading` in between; a failure is rethrown and the state is left as it
        was. The action works whatever the state is when it is invoked. */
    method InvokeLoadMore(loader: NextPageLoader<K>, nextPage: Result<PaginatedGames<K>>) returns (thrown: Option<Failure>)
      modifies this
      ensures invocations == old(invocations) + [ProviderLoadMore(loader.providerLoadMore)]
      ensures nextPage.Err? ==> thrown == Some(nextPage.error) && state == old(state) && published == old(published)
      ensures nextPage.Ok? ==> thrown.None? && state == Settled(nextPage) && published == old(published) + [state]
    {
      invocations := invocations + [ProviderLoadMore(loader.providerLoadMore)];
      match nextPage {
        case Err(e) =>
          thrown := Some(e);
        case Ok(page) =>
          var presentable := PresentableGames(page.games, LoadNextPage(page));
          Publish(Loaded(presentable));
          thrown := None;
      }
    }
  }
}
