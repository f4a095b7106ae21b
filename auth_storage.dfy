/** The persisted bearer token (src/services/authStorage.js).

    Durable key-value storage is a `map<string, string>`; every helper touches
    only the one slot `TokenKey`. A storage call can fail; each helper
    swallows the failure, so whether it fails is an input (`fails`). Decoding
    a JWT is an input function that answers None where `jwtDecode` throws. */
module AuthStorage {
  import opened Wrappers

  const TokenKey := "userToken"

  type Store = map<string, string>

  /** The decoded claims the client reads: `exp` (seconds) and `token`.
      Either may be missing from a payload. */
  datatype Payload = Payload(exp: Option<int>, token: Option<string>)

  /** `jwtDecode`: None where it throws. */
  type Decoder = string -> Option<Payload>

  /** Which storage calls fail during one `getUserFromToken`. */
  datatype Faults = Faults(readFails: bool, removeFails: bool)

  /** Two stores that agree everywhere except possibly on the token slot. */
  predicate SameOutsideToken(a: Store, b: Store) {
    a - {TokenKey} == b - {TokenKey}
  }

  /** `saveToken(token)`: the slot holds token, unless the write failed. */
  function Saved(m: Store, token: string, fails: bool): (r: Store)
    ensures SameOutsideToken(r, m)
    ensures fails ==> r == m
    ensures !fails ==> TokenKey in r && r[TokenKey] == token
  {
    if fails then m else m[TokenKey := token]
  }

  /** `getToken()`: the stored string, or null when there is none or the read failed. */
  function Read(m: Store, fails: bool): (t: Option<string>)
    ensures fails ==> t == None
    ensures !fails ==> (t.Some? <==> TokenKey in m)
    ensures t.Some? ==> TokenKey in m && t.value == m[TokenKey]
  {
    if !fails && TokenKey in m then Some(m[TokenKey]) else None
  }

  /** `removeToken()`: the slot is empty, unless the removal failed. */
  function Removed(m: Store, fails: bool): (r: Store)
    ensures SameOutsideToken(r, m)
    ensures fails ==> r == m
    ensures !fails ==> TokenKey !in r
  {
    if fails then m else m - {TokenKey}
  }

  /** `decodedToken.exp * 1000 < Date.now()`. A payload without `exp` compares
      `NaN < now`, which is false: such a token never counts as expired. */
  predicate Expired(p: Payload, nowMillis: int) {
    p.exp.Some? && p.exp.value * 1000 < nowMillis
  }

  /** What `getUserFromToken` answers, and the store it leaves behind. */
  datatype Lookup = Lookup(user: Option<Payload>, store: Store)

  /** `getUserFromToken()`: the decoded payload of a stored, decodable,
      unexpired token; otherwise null, removing an expired or undecodable token. */
  function UserFromToken(m: Store, decode: Decoder, nowMillis: int, faults: Faults): (r: Lookup)
    ensures SameOutsideToken(r.store, m)
    ensures r.user.Some? <==>
      (&& !faults.readFails && TokenKey in m && m[TokenKey] != ""
       && decode(m[TokenKey]).Some? && !Expired(decode(m[TokenKey]).value, nowMillis))
    ensures r.user.Some? ==> r.user == decode(m[TokenKey]) && r.store == m
    ensures r.store != m ==> TokenKey in m && TokenKey !in r.store
  {
    var token := Read(m, faults.readFails);
    if token.None? || token.value == "" then Lookup(None, m)
    else
      var decoded := decode(token.value);
      if decoded.None? || Expired(decoded.value, nowMillis)
      then Lookup(None, Removed(m, faults.removeFails))
      else Lookup(decoded, m)
  }

  /** Save, then read: the saved token comes back. */
  lemma SaveThenRead(m: Store, token: string)
    ensures Read(Saved(m, token, false), false) == Some(token)
  {
  }

  /** Remove, then read: nothing comes back. */
  lemma RemoveThenRead(m: Store)
    ensures Read(Removed(m, false), false) == None
  {
  }

  /** With nothing stored the lookup answers null and changes nothing. */
  lemma NoTokenNoUser(m: Store, decode: Decoder, nowMillis: int, faults: Faults)
    requires TokenKey !in m
    ensures UserFromToken(m, decode, nowMillis, faults) == Lookup(None, m)
  {
  }

  /** An expired token is answered with null and removed. The comparison is
      strict: a token whose `exp * 1000` equals the clock is still valid. */
  lemma ExpiredTokenRemoved(m: Store, decode: Decoder, nowMillis: int, faults: Faults)
    requires TokenKey in m && m[TokenKey] != "" && !faults.readFails
    requires decode(m[TokenKey]).Some? && decode(m[TokenKey]).value.exp.Some?
    ensures var r := UserFromToken(m, decode, nowMillis, faults);
      var exp := decode(m[TokenKey]).value.exp.value;
      && (exp * 1000 < nowMillis ==> r.user == None && (!faults.removeFails ==> TokenKey !in r.store))
      && (exp * 1000 == nowMillis ==> r.user == decode(m[TokenKey]) && r.store == m)
  {
  }

  /** An undecodable token is answered with null and removed. */
  lemma UndecodableTokenRemoved(m: Store, decode: Decoder, nowMillis: int, faults: Faults)
    requires TokenKey in m && m[TokenKey] != "" && !faults.readFails && decode(m[TokenKey]).None?
    ensures UserFromToken(m, decode, nowMillis, faults) == Lookup(None, Removed(m, faults.removeFails))
  {
  }

  /** AsyncStorage, as far as the token helpers use it. */
  class Storage {
    var entries: Store

    constructor (initial: Store)
      ensures entries == initial
    {
      entries := initial;
    }

    method SaveToken(token: string, fails: bool)
      modifies this
      ensures entries == Saved(old(entries), token, fails)
    {
      if !fails {
        entries := entries[TokenKey := token];
      }
    }

    method GetToken(fails: bool) returns (token: Option<string>)
      ensures token == Read(entries, fails)
    {
      if fails {
        return None;
      }
      token := if TokenKey in entries then Some(entries[TokenKey]) else None;
    }

    method RemoveToken(fails: bool)
      modifies this
      ensures entries == Removed(old(entries), fails)
    {
      if !fails {
        entries := entries - {TokenKey};
      }
    }

    method GetUserFromToken(decode: Decoder, nowMillis: int, faults: Faults) returns (user: Option<Payload>)
      modifies this
      ensures Lookup(user, entries) == UserFromToken(old(entries), decode, nowMillis, faults)
    {
      var token := GetToken(faults.readFails);
      if token.None? || token.value == "" {
        return None;
      }
      var decoded := decode(token.value);
      if decoded.None? {
        RemoveToken(faults.removeFails);
        return None;
      }
      if Expired(decoded.value, nowMillis) {
        RemoveToken(faults.removeFails);
        return None;
      }
      user := decoded;
    }
  }
}
