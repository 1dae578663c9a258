/** RemotePaginatedGamesProvider: pages straight from the remote games provider, starting
    at a configurable offset, with no cache. An immutable value; its continuations are
    closures built recursively by `makeRemoteLoadMoreLoader(currentGames:)`. */
module RemotePagination {
  import opened Games

  /** The limit the provider asks for on every request. */
  const Limit: int := 10

  /** The closure made by `makeRemoteLoadMoreLoader(currentGames:)`: it captures the
      games loaded so far (the provider itself is passed when it is invoked). */
  datatype RemoteLoader = RemoteLoader(currentGames: seq<Game>)

  datatype RemotePaginatedGamesProvider = RemotePaginatedGamesProvider(startOffset: int, remote: Remote)

  /** `init(startOffset:remoteGamesProvider:)` with the default start offset. */
  function WithDefaultStartOffset(remote: Remote): (p: RemotePaginatedGamesProvider)
    ensures p.startOffset == 0 && p.remote == remote
  {
    RemotePaginatedGamesProvider(0, remote)
  }

  /** `getGames()`: the first batch from `startOffset`, which always carries a
      continuation, whatever its size. */
  function GetGames(p: RemotePaginatedGamesProvider): (x: Exchange<RemoteLoader>)
    ensures x.request == Request(Limit, p.startOffset)
    ensures x.result.Ok? <==> p.remote(x.request).Ok?
    ensures x.result.Err? ==> x.result.error == p.remote(x.request).error
    ensures x.result.Ok? ==> x.result.value.games == p.remote(x.request).value
    ensures x.result.Ok? ==> x.result.value.loadMore == Some(RemoteLoader(x.result.value.games))
  {
    var request := Request(Limit, p.startOffset);
    match p.remote(request)
    case Err(e) => Exchange(request, Err(e))
    case Ok(games) => Exchange(request, Ok(PaginatedGames(games, Some(RemoteLoader(games)))))
  }

  /** Invoking a continuation: the batch after the games loaded so far, counted from
      `startOffset`; it ends the pagination unless the batch has exactly `Limit` games. */
  function LoadMore(p: RemotePaginatedGamesProvider, loader: RemoteLoader): (x: Exchange<RemoteLoader>)
    ensures x.request == Request(Limit, |loader.currentGames| + p.startOffset)
    ensures x.result.Ok? <==> p.remote(x.request).Ok?
    ensures x.result.Err? ==> x.result.error == p.remote(x.request).error
    ensures x.result.Ok? ==> x.result.value.games == loader.currentGames + p.remote(x.request).value
    ensures x.result.Ok? ==> (x.result.value.loadMore.Some? <==> |p.remote(x.request).value| == Limit)
    ensures x.result.Ok? && x.result.value.loadMore.Some? ==>
              x.result.value.loadMore.value.currentGames == x.result.value.games
  {
    var request := Request(Limit, |loader.currentGames| + p.startOffset);
    match p.remote(request)
    case Err(e) => Exchange(request, Err(e))
    case Ok(nextBatchOfGames) =>
      var reachedEnd := |nextBatchOfGames| != Limit;
      var games := loader.currentGames + nextBatchOfGames;
      Exchange(request, Ok(PaginatedGames(games, if reachedEnd then None else Some(RemoteLoader(games)))))
  }

  /** The exchanges a caller sees when it invokes `loader` and then the continuation of
      each page it gets, at most `n` invocations in all. */
  function Follow(p: RemotePaginatedGamesProvider, loader: RemoteLoader, n: nat): (run: seq<Exchange<RemoteLoader>>)
    ensures |run| <= n
    ensures n > 0 ==> |run| > 0 && run[0] == LoadMore(p, loader)
    decreases n
  {
    if n == 0 then []
    else
      var x := LoadMore(p, loader);
      [x] +
        match x.result
        case Ok(PaginatedGames(_, Some(next))) => Follow(p, next, n - 1)
        case _ => []
  }

  /** After a loader holding `k` games, the i-th invocation asks at
      `startOffset + k + Limit * i`. */
  lemma {:induction false} FollowRequests(p: RemotePaginatedGamesProvider, loader: RemoteLoader, n: nat)
    ensures forall i | 0 <= i < |Follow(p, loader, n)| ::
              Follow(p, loader, n)[i].request == Request(Limit, p.startOffset + |loader.currentGames| + Limit * i)
    decreases n
  {
    if n > 0 {
      var x := LoadMore(p, loader);
      match x.result
      case Ok(PaginatedGames(games, Some(next))) =>
        var rest := Follow(p, next, n - 1);
        FollowRequests(p, next, n - 1);
        var run := Follow(p, loader, n);
        assert run == [x] + rest;
        forall i | 1 <= i < |run|
          ensures run[i].request == Request(Limit, p.startOffset + |loader.currentGames| + Limit * i)
        {
          assert run[i] == rest[i - 1];
        }
      case _ =>
    }
  }

  /** Only the last exchange of a run can fail or end the pagination, and every page is
      the previous one (the loader's games, for the first) followed by exactly the batch
      the remote returned. */
  lemma {:induction false} FollowAccumulates(p: RemotePaginatedGamesProvider, loader: RemoteLoader, n: nat)
    ensures var run := Follow(p, loader, n);
            forall i | 0 <= i < |run| - 1 :: run[i].result.Ok? && run[i].result.value.loadMore.Some?
    ensures var run := Follow(p, loader, n);
            forall i | 0 <= i < |run| && run[i].result.Ok? :: p.remote(run[i].request).Ok?
    ensures var run := Follow(p, loader, n);
            |run| > 0 && run[0].result.Ok? ==>
              run[0].result.value.games == loader.currentGames + p.remote(run[0].request).value
    ensures var run := Follow(p, loader, n);
            forall i | 1 <= i < |run| && run[i].result.Ok? ::
              run[i].result.value.games == run[i - 1].result.value.games + p.remote(run[i].request).value
    decreases n
  {
    if n > 0 {
      var run := Follow(p, loader, n);
      var x := LoadMore(p, loader);
      match x.result
      case Ok(PaginatedGames(games, Some(next))) =>
        var rest := Follow(p, next, n - 1);
        FollowAccumulates(p, next, n - 1);
        assert run == [x] + rest;
        forall i | 1 <= i < |run| && run[i].result.Ok?
          ensures run[i].result.value.games == run[i - 1].result.value.games + p.remote(run[i].request).value
        {
          assert run[i] == rest[i - 1];
          if i == 1 {
            assert rest[0] == LoadMore(p, next);
          } else {
            assert run[i - 1] == rest[i - 2];
          }
        }
      case _ =>
        assert |run| == 1;
    }
  }

  /** The offsets the provider asks for from a first page on: `startOffset`, then
      `startOffset + |first batch|`, then ten further each time (0, 10, 20 from the
      default start; 15, 25, 35 from 15 with full batches). */
  lemma FirstPageThenFollow(p: RemotePaginatedGamesProvider, n: nat)
    requires GetGames(p).result.Ok?
    ensures var first := GetGames(p).result.value;
            var run := Follow(p, first.loadMore.value, n);
            forall i | 0 <= i < |run| ::
              run[i].request == Request(Limit, p.startOffset + |first.games| + Limit * i)
  {
    FollowRequests(p, GetGames(p).result.value.loadMore.value, n);
  }
}
