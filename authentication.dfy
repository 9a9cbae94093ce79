/**
 * The authentication provider of the web app: the access token is taken from the URL fragment
 * (remembered in local storage) or from local storage, verified with the backend, and published
 * to the rest of the app only once the backend accepted it.
 */
module Authentication {
  import opened Common

  const AuthErrorMsg := "Could not authenticate to backend. This probably means there is no or an invalid authentication token provided in the URL. Please check the startup console output of the backend and add a valid token to the URL."

  /** The local storage key holding the token. */
  const TokenKey := "auth_token"
  const VerifyPath := "/api/auth/verify"

  /** The token to verify: the one in the URL fragment, else the remembered one. */
  function ResolveToken(hashToken: Option<string>, stored: Option<string>): Option<string> {
    if hashToken.Some? then hashToken else stored
  }

  /** The fragment wins over storage, storage is the fallback, and there is no token only without both. */
  lemma ResolveTokenPrecedence(hashToken: Option<string>, stored: Option<string>)
    ensures hashToken.Some? ==> ResolveToken(hashToken, stored) == hashToken
    ensures hashToken.None? ==> ResolveToken(hashToken, stored) == stored
    ensures ResolveToken(hashToken, stored).None? <==> hashToken.None? && stored.None?
  {
  }

  function Lookup(storage: map<string, string>, key: string): Option<string> {
    if key in storage then Some(storage[key]) else None
  }

  /** A `POST` of `{ token }` to the verification endpoint. */
  datatype VerifyRequest = VerifyRequest(url: string, token: string)

  class Authentication {
    /** `window.location.hash`. */
    var hash: string
    /** `localStorage`. */
    var storage: map<string, string>
    /** The verification requests sent, in order. */
    var requests: seq<VerifyRequest>
    /** The token whose verification is awaited. */
    var pending: Option<string>
    /** The value provided to the app through `AuthContext`. */
    var token: Option<string>

    /** The published token and the awaited one are always tokens a request was sent for. */
    ghost predicate Valid()
      reads this
    {
      (token.Some? ==> exists i :: 0 <= i < |requests| && requests[i].token == token.value)
      && (pending.Some? ==> exists i :: 0 <= i < |requests| && requests[i].token == pending.value)
    }

    constructor(hash: string, storage: map<string, string>)
      ensures this.hash == hash && this.storage == storage
      ensures requests == [] && pending == None && token == None
      ensures Valid()
    {
      this.hash := hash;
      this.storage := storage;
      requests := [];
      pending := None;
      token := None;
    }

    /**
     * The mount effect, given the `token` parameter of the fragment: a fragment token clears the
     * fragment and is remembered; the resolved token, if any, is sent for verification.
     */
    method Mount(hashToken: Option<string>, baseServicesUrl: string)
      requires Valid()
      modifies this`hash, this`storage, this`requests, this`pending
      ensures Valid()
      ensures hashToken.Some? ==> hash == "" && storage == old(storage)[TokenKey := hashToken.value]
      ensures hashToken.None? ==> hash == old(hash) && storage == old(storage)
      ensures var t := ResolveToken(hashToken, Lookup(old(storage), TokenKey));
        (t.None? ==> requests == old(requests) && pending == old(pending))
        && (t.Some? ==> requests == old(requests) + [VerifyRequest(baseServicesUrl + VerifyPath, t.value)] && pending == t)
    {
      var t := hashToken;
      if t.Some? {
        hash := "";
        storage := storage[TokenKey := t.value];
      } else {
        t := Lookup(storage, TokenKey);
      }
      if t.Some? {
        ghost var before := requests;
        requests := requests + [VerifyRequest(baseServicesUrl + VerifyPath, t.value)];
        pending := t;
        assert requests[|requests| - 1].token == t.value;
        if token.Some? {
          ghost var i :| 0 <= i < |before| && before[i].token == token.value;
          assert requests[i] == before[i];
        }
      }
    }

    /** The verification settled: on success the awaited token is published, on failure nothing changes. */
    method VerifySettled(succeeded: bool)
      requires Valid()
      modifies this`token
      ensures Valid()
      ensures token == if succeeded && pending.Some? then pending else old(token)
    {
      if succeeded && pending.Some? {
        token := pending;
      }
    }
  }
}
