/**
 * The interface of `base.Tokener` that `Suite.Retriable` uses: `RefreshToken`
 * and `Token`. The tokener caches one token; its fetcher (for a suite,
 * `Suite.FetchToken`) is an endpoint whose answer to the n-th fetch is given
 * as a parameter, so a fetch may succeed or fail. Expiry, locking and the
 * fetcher's HTTP exchange are not part of this model.
 */
module Tokens {
  import opened Wrappers
  import opened Base

  /** A call made on the tokener from outside. */
  datatype Call = RefreshCall | TokenCall

  /** The answer of the token endpoint to the n-th fetch. */
  type Endpoint = nat -> Result<string, Error>

  /**
   * What a tokener holds: the cached token ("" while it holds none), how many
   * fetches it has made, and the calls made on it, oldest first.
   */
  datatype TokenerState = TokenerState(token: string, fetches: nat, calls: seq<Call>)

  /** `RefreshToken`: fetch unconditionally; a fetched token replaces the cached one. */
  function Refresh(endpoint: Endpoint, s: TokenerState): (Option<Error>, TokenerState)
  {
    var s' := s.(fetches := s.fetches + 1, calls := s.calls + [RefreshCall]);
    match endpoint(s.fetches)
    case Ok(t) => (None, s'.(token := t))
    case Err(e) => (Some(e), s')
  }

  /** `Token`: the cached token when there is one, otherwise the result of a fetch. */
  function Current(endpoint: Endpoint, s: TokenerState): (Result<string, Error>, TokenerState)
  {
    var s' := s.(calls := s.calls + [TokenCall]);
    if s.token != "" then (Ok(s.token), s')
    else match endpoint(s.fetches)
      case Ok(t) => (Ok(t), s'.(token := t, fetches := s.fetches + 1))
      case Err(e) => (Err(e), s'.(fetches := s.fetches + 1))
  }

  /** A `*base.Tokener`. */
  class Tokener {
    const endpoint: Endpoint
    var token: string
    var fetches: nat
    var calls: seq<Call>

    function State(): TokenerState
      reads this
    {
      TokenerState(token, fetches, calls)
    }

    constructor (endpoint: Endpoint)
      ensures this.endpoint == endpoint
      ensures State() == TokenerState("", 0, [])
    {
      this.endpoint := endpoint;
      token, fetches, calls := "", 0, [];
    }

    method RefreshToken() returns (err: Option<Error>)
      modifies this
      ensures (err, State()) == Refresh(endpoint, old(State()))
    {
      calls := calls + [RefreshCall];
      var reply := endpoint(fetches);
      fetches := fetches + 1;
      match reply {
        case Ok(t) =>
          token := t;
          err := None;
        case Err(e) =>
          err := Some(e);
      }
    }

    method Token() returns (r: Result<string, Error>)
      modifies this
      ensures (r, State()) == Current(endpoint, old(State()))
    {
      calls := calls + [TokenCall];
      if token == "" {
        var reply := endpoint(fetches);
        fetches := fetches + 1;
        match reply {
          case Ok(t) =>
            token := t;
          case Err(e) =>
            return Err(e);
        }
      }
      r := Ok(token);
    }
  }
}
