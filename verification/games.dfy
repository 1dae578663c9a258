/** Values shared by every part of the paginated fetch-and-cache pipeline:
    the game record, errors, results, remote requests and pages. */
module Games {

  datatype Option<+T> = None | Some(value: T)

  /** Game.rating is a floating-point number in the app. Nothing in the pipeline
      computes with it, so an integer wrapper stands in for it. */
  datatype Rating = Rating(raw: int)

  /** An immutable game record, compared by all of its fields. */
  datatype Game = Game(
    id: int,
    name: string,
    imageId: Option<string>,
    rating: Option<Rating>,
    description: Option<string>)

  /** An error thrown somewhere in the pipeline. `MissingGamesError` is the one the
      local provider throws itself; `Raised` stands for any error a collaborator
      (the network, the decoder, the disk cache, an injected closure) throws. */
  datatype Failure = MissingGamesError | Raised(code: int)

  /** A Swift `throws` call: either its value or the error it threw. */
  datatype Result<+T> = Ok(value: T) | Err(error: Failure)

  /** One call `getGames(limit:offset:)` on the remote games provider. */
  datatype Request = Request(limit: int, offset: int)

  /** The remote games provider as an oracle: what it answers to each request.
      The transport and JSON decoding behind it are not part of this model. */
  type Remote = Request -> Result<seq<Game>>

  /** A page: the games known so far and, unless the source is exhausted, a
      continuation. The continuation is a Swift closure; here `K` is a datatype
      that records what that closure captured. */
  datatype PaginatedGames<+K> = PaginatedGames(games: seq<Game>, loadMore: Option<K>)

  /** The request a pure provider sent to the remote and what it returned. */
  datatype Exchange<+K> = Exchange(request: Request, result: Result<PaginatedGames<K>>)

  /** The remote games provider as the assemblers see it: it answers with the
      oracle and keeps the log of requests it received, in order. */
  class RemoteGamesProvider {
    const respond: Remote
    var requests: seq<Request>

    constructor (respond: Remote)
      ensures this.respond == respond && requests == []
    {
      this.respond := respond;
      requests := [];
    }

    method GetGames(limit: int, offset: int) returns (r: Result<seq<Game>>)
      modifies this
      ensures requests == old(requests) + [Request(limit, offset)]
      ensures r == respond(Request(limit, offset))
    {
      requests := requests + [Request(limit, offset)];
      r := respond(Request(limit, offset));
    }
  }
}
