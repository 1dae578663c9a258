/** PrimaryWithFallbackPaginatedGamesProvider: stateless delegation to a primary provider,
    and to a fallback provider only when the primary throws. */
module Fallback {
  import opened Games

  /** Which of the two wrapped providers was called. */
  datatype Delegate = Primary | Fallback

  /** The calls made, in order, and the outcome of `getGames()`. */
  datatype Delegation<+K> = Delegation(called: seq<Delegate>, result: Result<PaginatedGames<K>>)

  /** `getGames()`, given what the primary's `getGames()` gives and what the fallback's
      would give if it were called (the providers are code this model does not see). */
  function GetGames<K>(primary: Result<PaginatedGames<K>>, fallback: Result<PaginatedGames<K>>): (d: Delegation<K>)
    // the primary is always called first, exactly once; the fallback only after it failed
    ensures |d.called| >= 1 && d.called[0] == Primary && Primary !in d.called[1..]
    ensures Fallback in d.called <==> primary.Err?
    // each provider is called at most once
    ensures |d.called| <= 2
    // a successful primary page is returned untouched, continuation included
    ensures primary.Ok? ==> d.result == primary
    // otherwise the fallback's outcome is returned, its own error if it fails too
    ensures primary.Err? ==> d.result == fallback
  {
    match primary
    case Ok(_) => Delegation([Primary], primary)
    case Err(_) => Delegation([Primary, Fallback], fallback)
  }

  /** Nesting the combinator either way round gives the same page or error: the
      outcome is that of the first provider in line that does not throw, or the last
      provider's error. */
  lemma NestingIsAssociative<K>(a: Result<PaginatedGames<K>>, b: Result<PaginatedGames<K>>, c: Result<PaginatedGames<K>>)
    ensures GetGames(GetGames(a, b).result, c).result == GetGames(a, GetGames(b, c).result).result
    ensures GetGames(a, GetGames(b, c).result).result ==
              if a.Ok? then a else if b.Ok? then b else c
  {
  }
}
