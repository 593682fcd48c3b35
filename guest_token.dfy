/** The guest-session token: where it lives (component state and durable client storage),
    when a request carries it, and when it is adopted, persisted or discarded. */
module GuestToken {
  import opened Options

  /** Storage key of the guest-session token. */
  const GuestIdKey: string := "forvrmurr_guest_id"
  /** Storage key of the access credential, cleared before the add-to-cart retry. */
  const AccessTokenKey: string := "forvrmurr_access_token"

  /** The token held in component state together with the client's key-value storage. */
  datatype Tokens = Tokens(guestId: Option<string>, storage: map<string, string>)

  /** `localStorage.getItem(key)`. */
  function GetItem(storage: map<string, string>, key: string): Option<string> {
    if key in storage then Some(storage[key]) else None
  }

  /** The mount-time restore: a stored token is taken into state only when it is truthy. */
  function Restore(storage: map<string, string>): (held: Option<string>)
    ensures held != Some("")
    ensures held.Some? <==> GuestIdKey in storage && storage[GuestIdKey] != ""
    ensures held.Some? ==> held.value == storage[GuestIdKey]
  {
    var stored := GetItem(storage, GuestIdKey);
    if Truthy(stored) then stored else None
  }

  /** `!isAuthenticated && guestId ? guestId : undefined`: the token a request carries. */
  function TokenToSend(authenticated: bool, guestId: Option<string>): (sent: Option<string>)
    ensures sent.Some? <==> !authenticated && Truthy(guestId)
    ensures sent.Some? ==> sent == guestId && sent.value != ""
  {
    if !authenticated && Truthy(guestId) then guestId else None
  }

  /** After a successful mutation: an unauthenticated session adopts a truthy token from
      the response, writing it to storage and to state; otherwise nothing changes. */
  function Adopt(t: Tokens, authenticated: bool, issued: Option<string>): (r: Tokens)
    ensures authenticated || !Truthy(issued) ==> r == t
    ensures !authenticated && Truthy(issued) ==>
      && r.guestId == issued
      && r.storage.Keys == t.storage.Keys + {GuestIdKey}
      && r.storage[GuestIdKey] == issued.value
      && (forall k :: k in t.storage && k != GuestIdKey ==> r.storage[k] == t.storage[k])
  {
    if !authenticated && Truthy(issued) then Tokens(issued, t.storage[GuestIdKey := issued.value])
    else t
  }

  /** After the authenticated cart has been fetched: a held token is removed from storage
      and from state; without one nothing changes. */
  function Discard(t: Tokens): (r: Tokens)
    ensures !Truthy(r.guestId)
    ensures Truthy(t.guestId) ==> r.guestId == None && r.storage.Keys == t.storage.Keys - {GuestIdKey}
    ensures Truthy(t.guestId) ==> forall k :: k in r.storage ==> r.storage[k] == t.storage[k]
    ensures !Truthy(t.guestId) ==> r == t
  {
    if Truthy(t.guestId) then Tokens(None, t.storage - {GuestIdKey}) else t
  }

  /** Before the add-to-cart retry: the access credential and the guest token are removed
      from storage; every other entry is kept. */
  function ForgetCredentials(storage: map<string, string>): (r: map<string, string>)
    ensures r.Keys == storage.Keys - {AccessTokenKey, GuestIdKey}
    ensures forall k :: k in r ==> r[k] == storage[k]
  {
    storage - {AccessTokenKey, GuestIdKey}
  }

  /** A token adopted while unauthenticated is the one the next unauthenticated request
      carries, and the one a remount would restore from storage. */
  lemma AdoptedTokenIsSentAndRestored(t: Tokens, issued: Option<string>)
    requires Truthy(issued)
    ensures TokenToSend(false, Adopt(t, false, issued).guestId) == issued
    ensures Restore(Adopt(t, false, issued).storage) == issued
  {
  }

  /** Once discarded, no request carries a token, and a remount restores none. */
  lemma DiscardedTokenIsGone(t: Tokens, authenticated: bool)
    requires Truthy(t.guestId)
    ensures TokenToSend(authenticated, Discard(t).guestId) == None
    ensures Restore(Discard(t).storage) == None
  {
  }
}
