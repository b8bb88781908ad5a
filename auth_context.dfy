/** The session provider: the signed-in user, the token, the loading and
    backend-ready flags, and the token kept in the browser storage. Backend
    calls are not made here: each transition takes the call's outcome. */
module AuthContext {
  import opened Common
  import opened ApiTypes
  import opened ApiClient

  /** `isAuthenticated: !!user && !!token`; an empty token is falsy. */
  function IsAuthenticated(user: Option<User>, token: Option<string>): (b: bool)
    ensures b <==> user.Some? && token.Some? && token.value != ""
    ensures token.None? ==> !b
  {
    user.Some? && Truthy(token)
  }

  class AuthProvider {
    var user: Option<User>
    var token: Option<string>
    var isLoading: bool
    var backendReady: bool
    /** Health checks issued so far by the warm-up. */
    var healthChecks: nat
    /** The warm-up's retry timer is pending. */
    var retryScheduled: bool
    /** The browser storage, shared with the HTTP client. */
    const storage: TokenStorage

    /** The warm-up never issues more than two checks, and once it has no retry
        pending after a check the backend counts as ready. */
    ghost predicate Valid()
      reads this
    {
      healthChecks <= 2 &&
      (retryScheduled ==> healthChecks == 1 && !backendReady) &&
      (healthChecks >= 1 && !retryScheduled ==> backendReady) &&
      (healthChecks == 0 ==> !retryScheduled && !backendReady)
    }

    /** The token held in memory is the one in storage. */
    ghost predicate Synced()
      reads this, storage
    {
      token.Some? ==> storage.GetItem(TokenKey) == token
    }

    function Authenticated(): bool
      reads this
    {
      IsAuthenticated(user, token)
    }

    /** The provider as first rendered. */
    constructor (storage: TokenStorage)
      ensures this.storage == storage
      ensures user.None? && token.None? && isLoading && !backendReady
      ensures healthChecks == 0 && !retryScheduled
      ensures Valid() && Synced() && !Authenticated()
    {
      this.storage := storage;
      user, token := None, None;
      isLoading, backendReady := true, false;
      healthChecks, retryScheduled := 0, false;
    }

    /** The first health check of the mount-time warm-up: success makes the
        backend ready, failure schedules one retry. */
    method WarmUp(healthy: bool)
      requires Valid() && healthChecks == 0
      modifies this
      ensures Valid()
      ensures healthChecks == 1 && backendReady == healthy && retryScheduled == !healthy
      ensures user == old(user) && token == old(token) && isLoading == old(isLoading)
    {
      healthChecks := 1;
      if healthy {
        backendReady := true;
      } else {
        retryScheduled := true;
      }
    }

    /** The retry timer fires: after the second check the backend counts as
        ready whatever the outcome. */
    method RetryWarmUp(healthy: bool)
      requires Valid() && retryScheduled
      modifies this
      ensures Valid()
      ensures healthChecks == 2 && backendReady && !retryScheduled
      ensures user == old(user) && token == old(token) && isLoading == old(isLoading)
    {
      healthChecks := 2;
      retryScheduled := false;
      backendReady := true;
    }

    /** The mount-time restore: a truthy stored token is adopted and returned
        for the user fetch; without one loading ends at once. */
    method RestoreSession() returns (fetchWith: Option<string>)
      modifies this
      ensures fetchWith.Some? ==> Synced()
      ensures old(Synced()) ==> Synced()
      ensures fetchWith == (if Truthy(storage.GetItem(TokenKey)) then storage.GetItem(TokenKey) else None)
      ensures fetchWith.Some? ==> token == fetchWith && isLoading == old(isLoading)
      ensures fetchWith.None? ==> token == old(token) && !isLoading
      ensures user == old(user) && backendReady == old(backendReady)
      ensures healthChecks == old(healthChecks) && retryScheduled == old(retryScheduled)
    {
      var stored := storage.GetItem(TokenKey);
      if Truthy(stored) {
        token := stored;
        fetchWith := stored;
      } else {
        isLoading := false;
        fetchWith := None;
      }
    }

    /** `fetchCurrentUser` completing: success records the user; failure drops
        the token from storage and memory; loading ends either way. */
    method FetchCurrentUser(outcome: Outcome<User>)
      modifies this, storage
      ensures !isLoading
      ensures outcome.Failure? || old(Synced()) ==> Synced()
      ensures outcome.Success? ==> user == Some(outcome.value) && token == old(token)
      ensures outcome.Success? ==> storage.items == old(storage.items)
      ensures outcome.Failure? ==> user == old(user) && token.None?
      ensures outcome.Failure? ==> storage.items == old(storage.items) - {TokenKey}
      ensures backendReady == old(backendReady)
      ensures healthChecks == old(healthChecks) && retryScheduled == old(retryScheduled)
    {
      if outcome.Success? {
        user := Some(outcome.value);
      } else {
        storage.RemoveItem(TokenKey);
        token := None;
      }
      isLoading := false;
    }

    /** Records a new session: the token is stored under the token key and
        held in memory with the user. */
    method StartSession(response: AuthResponse)
      modifies this, storage
      ensures Synced()
      ensures storage.items == old(storage.items)[TokenKey := response.access_token]
      ensures token == Some(response.access_token) && user == Some(response.user)
      ensures Authenticated() <==> response.access_token != ""
      ensures isLoading == old(isLoading) && backendReady == old(backendReady)
      ensures healthChecks == old(healthChecks) && retryScheduled == old(retryScheduled)
    {
      storage.SetItem(TokenKey, response.access_token);
      token := Some(response.access_token);
      user := Some(response.user);
    }

    /** `login`: on success the session starts; on failure nothing changes and
        the error is passed on. */
    method Login(outcome: Outcome<AuthResponse>) returns (thrown: Option<Thrown>)
      modifies this, storage
      ensures outcome.Success? || old(Synced()) ==> Synced()
      ensures outcome.Success? ==> thrown.None? && token == Some(outcome.value.access_token)
      ensures outcome.Success? ==> user == Some(outcome.value.user)
      ensures outcome.Success? ==> storage.items == old(storage.items)[TokenKey := outcome.value.access_token]
      ensures outcome.Success? ==> (Authenticated() <==> outcome.value.access_token != "")
      ensures outcome.Failure? ==> thrown == Some(outcome.error)
      ensures outcome.Failure? ==> user == old(user) && token == old(token) && storage.items == old(storage.items)
      ensures isLoading == old(isLoading) && backendReady == old(backendReady)
      ensures healthChecks == old(healthChecks) && retryScheduled == old(retryScheduled)
    {
      if outcome.Success? {
        StartSession(outcome.value);
        thrown := None;
      } else {
        thrown := Some(outcome.error);
      }
    }

    /** `register`: the same effect as `login` for its own backend call. */
    method Register(outcome: Outcome<AuthResponse>) returns (thrown: Option<Thrown>)
      modifies this, storage
      ensures outcome.Success? || old(Synced()) ==> Synced()
      ensures outcome.Success? ==> thrown.None? && token == Some(outcome.value.access_token)
      ensures outcome.Success? ==> user == Some(outcome.value.user)
      ensures outcome.Success? ==> storage.items == old(storage.items)[TokenKey := outcome.value.access_token]
      ensures outcome.Success? ==> (Authenticated() <==> outcome.value.access_token != "")
      ensures outcome.Failure? ==> thrown == Some(outcome.error)
      ensures outcome.Failure? ==> user == old(user) && token == old(token) && storage.items == old(storage.items)
      ensures isLoading == old(isLoading) && backendReady == old(backendReady)
      ensures healthChecks == old(healthChecks) && retryScheduled == old(retryScheduled)
    {
      if outcome.Success? {
        StartSession(outcome.value);
        thrown := None;
      } else {
        thrown := Some(outcome.error);
      }
    }

    /** `logout`: the stored token, the token and the user are all dropped. */
    method Logout()
      modifies this, storage
      ensures Synced() && !Authenticated()
      ensures user.None? && token.None?
      ensures storage.items == old(storage.items) - {TokenKey}
      ensures isLoading == old(isLoading) && backendReady == old(backendReady)
      ensures healthChecks == old(healthChecks) && retryScheduled == old(retryScheduled)
    {
      storage.RemoveItem(TokenKey);
      token := None;
      user := None;
    }
  }

  /** Logging out twice leaves the same state as logging out once. */
  method LogoutTwice(p: AuthProvider)
    modifies p, p.storage
    ensures p.user.None? && p.token.None?
    ensures p.storage.items == old(p.storage.items) - {TokenKey}
    ensures p.isLoading == old(p.isLoading) && p.backendReady == old(p.backendReady)
  {
    p.Logout();
    p.Logout();
  }

  /** Mounting with nothing stored ends loading with no session. */
  method MountWithoutToken(storage: TokenStorage) returns (p: AuthProvider)
    requires TokenKey !in storage.items
    ensures p.storage == storage && !p.isLoading && !p.Authenticated()
    ensures p.token.None? && p.user.None?
  {
    p := new AuthProvider(storage);
    var fetchWith := p.RestoreSession();
    assert fetchWith.None?;
  }

  /** `useAuth`: outside a provider there is no context and the hook throws. */
  function UseAuth<T>(context: Option<T>): (r: Outcome<T>)
    ensures context.Some? ==> r == Success(context.value)
    ensures context.None? ==> r == Failure(ErrorObject("useAuth must be used within an AuthProvider"))
  {
    if context.Some? then Success(context.value)
    else Failure(ErrorObject("useAuth must be used within an AuthProvider"))
  }
}
