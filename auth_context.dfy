/** The session state the app shares through React context
    (src/context/AuthContext.js): `userToken` and `isLoading`, the restore
    that runs once on mount, `login` and `logout`. Each asynchronous handler
    is one sequential step here. */
module AuthContext {
  import opened Wrappers
  import opened AuthStorage

  class AuthProvider {
    const storage: Storage
    var userToken: Option<string>
    var isLoading: bool
    /** Every value handed to `setIsLoading`, in order. */
    ghost var loadingWrites: seq<bool>

    /** `useState(null)`, `useState(true)`. */
    constructor (storage: Storage)
      ensures this.storage == storage
      ensures userToken == None && isLoading && loadingWrites == []
    {
      this.storage := storage;
      userToken := None;
      isLoading := true;
      loadingWrites := [];
    }

    /** The mount effect: keep the restored payload's `token` field (which may
        be missing, and need not equal the stored string); loading ends in
        every case. */
    method RestoreSession(decode: Decoder, nowMillis: int, faults: Faults)
      modifies this, storage
      ensures storage.entries == UserFromToken(old(storage.entries), decode, nowMillis, faults).store
      ensures var user := UserFromToken(old(storage.entries), decode, nowMillis, faults).user;
        userToken == if user.Some? then user.value.token else old(userToken)
      ensures !isLoading && loadingWrites == old(loadingWrites) + [false]
    {
      var user := storage.GetUserFromToken(decode, nowMillis, faults);
      if user.Some? {
        userToken := user.value.token;
      }
      isLoading := false;
      loadingWrites := loadingWrites + [false];
    }

    /** `login(token)`: loading, persist, adopt the token, done. A persisted
        write that succeeds leaves storage and memory agreeing. */
    method Login(token: string, saveFails: bool)
      modifies this, storage
      ensures storage.entries == Saved(old(storage.entries), token, saveFails)
      ensures userToken == Some(token)
      ensures !saveFails ==> Read(storage.entries, false) == userToken
      ensures !isLoading && loadingWrites == old(loadingWrites) + [true, false]
    {
      isLoading := true;
      loadingWrites := loadingWrites + [true];
      storage.SaveToken(token, saveFails);
      userToken := Some(token);
      isLoading := false;
      loadingWrites := loadingWrites + [false];
    }

    /** `logout()`: loading, erase the persisted token, forget it, done. */
    method Logout(removeFails: bool)
      modifies this, storage
      ensures storage.entries == Removed(old(storage.entries), removeFails)
      ensures userToken == None
      ensures !removeFails ==> Read(storage.entries, false) == userToken
      ensures !isLoading && loadingWrites == old(loadingWrites) + [true, false]
    {
      isLoading := true;
      loadingWrites := loadingWrites + [true];
      storage.RemoveToken(removeFails);
      userToken := None;
      isLoading := false;
      loadingWrites := loadingWrites + [false];
    }
  }

  /** A freshly mounted provider that restores a session and then logs in
      and out ends signed out, not loading, with nothing persisted. */
  method SessionScenario(initial: Store, decode: Decoder, nowMillis: int, token: string)
    returns (signedOut: bool)
    ensures signedOut
  {
    var storage := new Storage(initial);
    var provider := new AuthProvider(storage);
    provider.RestoreSession(decode, nowMillis, Faults(false, false));
    assert !provider.isLoading;
    provider.Login(token, false);
    assert provider.userToken == Some(token) && storage.entries[TokenKey] == token;
    provider.Logout(false);
    assert provider.loadingWrites == [false, true, false, true, false];
    signedOut := provider.userToken == None && !provider.isLoading && TokenKey !in storage.entries;
  }
}
