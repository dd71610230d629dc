/**
 * The session manager the web handlers use, as its contract describes it:
 * a server-side store from session tokens to key/value data, and the token
 * the current request carries. `RenewToken` moves the data to a fresh token
 * and forgets the old one; `Destroy` forgets the current session's data.
 */
module Session {
  import opened Base

  class SessionStore<V> {
    /** Server-side sessions, by token. */
    var sessions: map<nat, map<string, V>>
    /** The token of the current request's session. */
    var token: nat
    /** Every token ever issued is below this bound, so it is never reissued. */
    var nextToken: nat

    ghost predicate Valid()
      reads this
    {
      token < nextToken && forall t :: t in sessions ==> t < nextToken
    }

    /** The current session's data. */
    function Data(): map<string, V>
      reads this
    {
      if token in sessions then sessions[token] else map[]
    }

    /** `Exists(ctx, key)` for the session identified by `t`. */
    function Exists(t: nat, key: string): bool
      reads this
    {
      t in sessions && key in sessions[t]
    }

    constructor (sessions0: map<nat, map<string, V>>, token0: nat, nextToken0: nat)
      requires token0 < nextToken0 && forall t :: t in sessions0 ==> t < nextToken0
      ensures Valid()
      ensures sessions == sessions0 && token == token0 && nextToken == nextToken0
    {
      sessions, token, nextToken := sessions0, token0, nextToken0;
    }

    method Put(key: string, value: V)
      requires Valid()
      modifies this
      ensures Valid()
      ensures sessions == old(sessions)[token := old(Data())[key := value]]
      ensures token == old(token) && nextToken == old(nextToken)
      ensures Data() == old(Data())[key := value]
    {
      sessions := sessions[token := Data()[key := value]];
    }

    method Get(key: string) returns (value: Option<V>)
      ensures value.Some? <==> key in Data()
      ensures value.Some? ==> value.value == Data()[key]
    {
      var data := Data();
      value := if key in data then Some(data[key]) else None;
    }

    method Remove(key: string)
      requires Valid()
      modifies this
      ensures Valid()
      ensures sessions == old(sessions)[token := old(Data()) - {key}]
      ensures token == old(token) && nextToken == old(nextToken)
      ensures Data() == old(Data()) - {key}
    {
      sessions := sessions[token := Data() - {key}];
    }

    method Destroy()
      requires Valid()
      modifies this
      ensures Valid()
      ensures sessions == old(sessions) - {old(token)}
      ensures token == old(token) && nextToken == old(nextToken)
      ensures Data() == map[]
    {
      sessions := sessions - {token};
    }

    /** Move the current data to a never-used token; the old token stops naming any session. */
    method RenewToken()
      requires Valid()
      modifies this
      ensures Valid()
      ensures token == old(nextToken) && nextToken == old(nextToken) + 1
      ensures token !in old(sessions) && token != old(token)
      ensures sessions == (old(sessions) - {old(token)})[token := old(Data())]
      ensures old(token) !in sessions
      ensures Data() == old(Data())
    {
      var data := Data();
      sessions := (sessions - {token})[nextToken := data];
      token := nextToken;
      nextToken := nextToken + 1;
    }
  }
}
