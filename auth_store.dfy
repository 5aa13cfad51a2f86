/**
 * The authentication store: the token and decoded user held in memory, kept
 * in step with the `token` entry of the browser's key-value storage.
 */
module AuthStore {
  import opened Wrappers
  import JsText

  /** The claims the token decodes to. */
  datatype User = User(name: string, email: string, role: string)

  const TokenKey := "token"

  /** `getItem('token') || null`: the stored token when it is a non-empty string. */
  function StoredToken(storage: map<string, string>): (r: Option<string>)
    ensures r.Some? <==> TokenKey in storage && storage[TokenKey] != ""
    ensures r.Some? ==> r.value == storage[TokenKey]
  {
    if TokenKey in storage && storage[TokenKey] != "" then Some(storage[TokenKey]) else None
  }

  /** The storage after `setToken(t)`: the token written when truthy, removed otherwise. */
  function StorageAfterSetToken(storage: map<string, string>, t: Option<string>): map<string, string> {
    if JsText.Truthy(t) then storage[TokenKey := t.value] else storage - {TokenKey}
  }

  /** Reading the storage back after `setToken(t)` gives `t` when truthy and nothing otherwise. */
  lemma StoredTokenAfterSetToken(storage: map<string, string>, t: Option<string>)
    ensures StoredToken(StorageAfterSetToken(storage, t)) == (if JsText.Truthy(t) then t else None)
  {
  }

  /** `setToken` touches no other storage entry. */
  lemma SetTokenKeepsOtherKeys(storage: map<string, string>, t: Option<string>, k: string)
    requires k != TokenKey
    ensures k in StorageAfterSetToken(storage, t) <==> k in storage
    ensures k in storage ==> StorageAfterSetToken(storage, t)[k] == storage[k]
  {
  }

  /** What a login request sends. */
  datatype LoginRequest = LoginRequest(email: string, password: string)

  class Store {
    /** `jwtDecode`, taken as a total function. */
    const decode: string -> User
    var token: Option<string>
    var user: Option<User>
    var storage: map<string, string>

    /** Token and user are present together, and the user is the token's decoding. */
    predicate Valid()
      reads this`token, this`user
    {
      (token.None? <==> user.None?) && (token.Some? ==> user == Some(decode(token.value)))
    }

    /** The storage holds the token whenever the token is truthy, and no token otherwise. */
    predicate Synced()
      reads this`token, this`storage
    {
      StoredToken(storage) == (if JsText.Truthy(token) then token else None)
    }

    /** The state at start-up is read from the storage. */
    constructor (storage: map<string, string>, decode: string -> User)
      ensures this.storage == storage && this.decode == decode
      ensures token == StoredToken(storage)
      ensures user == (if StoredToken(storage).Some? then Some(decode(StoredToken(storage).value)) else None)
      ensures Valid() && Synced()
    {
      this.storage := storage;
      this.decode := decode;
      var stored := StoredToken(storage);
      token := stored;
      user := if stored.Some? then Some(decode(stored.value)) else None;
    }

    /** `setToken(t)`: store and decode a truthy token, otherwise forget it everywhere. */
    method SetToken(t: Option<string>)
      modifies this`token, this`user, this`storage
      ensures storage == StorageAfterSetToken(old(storage), t)
      ensures JsText.Truthy(t) ==> token == t && user == Some(decode(t.value))
      ensures !JsText.Truthy(t) ==> token == None && user == None
      ensures Valid() && Synced()
    {
      storage := StorageAfterSetToken(storage, t);
      StoredTokenAfterSetToken(old(storage), t);
      if JsText.Truthy(t) {
        token := t;
        user := Some(decode(t.value));
      } else {
        token := None;
        user := None;
      }
    }

    /** `logout`: the same new state as `setToken(null)`. */
    method Logout()
      modifies this`token, this`user, this`storage
      ensures storage == StorageAfterSetToken(old(storage), None)
      ensures token == None && user == None
      ensures Valid() && Synced()
    {
      storage := storage - {TokenKey};
      token := None;
      user := None;
    }

    /**
     * `login`: `response` is the token of a request that resolved, or None
     * when it threw. A resolved request sets token, user and storage from its
     * token whatever the body's success flag says; a thrown one is rethrown
     * and changes nothing.
     */
    method Login(email: string, password: string, response: Option<string>) returns (request: LoginRequest, thrown: bool)
      modifies this`token, this`user, this`storage
      ensures request == LoginRequest(email, password)
      ensures thrown <==> response.None?
      ensures response.Some? ==> token == response && user == Some(decode(response.value))
      ensures response.Some? ==> storage == old(storage)[TokenKey := response.value]
      ensures response.None? ==> token == old(token) && user == old(user) && storage == old(storage)
      ensures old(Valid()) ==> Valid()
      ensures old(Synced()) ==> Synced()
    {
      request := LoginRequest(email, password);
      thrown := response.None?;
      if response.Some? {
        token := response;
        user := Some(decode(response.value));
        storage := storage[TokenKey := response.value];
      }
    }
  }
}
