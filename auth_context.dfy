/** The session held by `AuthProvider`: the signed-in user, the start-up
    loading flag and the authenticated flag, with the transitions that
    restore, register, log in, log out and update the user. Backend and
    device-storage calls are parameters that resolve or reject. */
module AuthContext {
  import opened JsRuntime

  /** A user as stored in device storage: a JSON object's fields. */
  type UserRecord = map<string, string>

  /** What `register`, `login` and `updateUser` resolve to. */
  datatype AuthResult = Success | Failure(message: Thrown)

  /** `{ ...user, ...updatedData }`: spreading a null user adds nothing; every
      key of the update overrides, every other key of the user is kept. */
  function Merge(user: Option<UserRecord>, updatedData: UserRecord): (m: UserRecord)
    ensures m.Keys == updatedData.Keys + (if user.Some? then user.value.Keys else {})
    ensures forall k | k in updatedData :: m[k] == updatedData[k]
    ensures user.Some? ==> forall k | k in user.value && k !in updatedData :: m[k] == user.value[k]
  {
    (if user.Some? then user.value else map[]) + updatedData
  }

  /** Applying the same update twice is the same as applying it once. */
  lemma MergeIsIdempotent(user: Option<UserRecord>, updatedData: UserRecord)
    ensures Merge(Some(Merge(user, updatedData)), updatedData) == Merge(user, updatedData)
  {
  }

  /** An empty update keeps the user as it was. */
  lemma EmptyUpdateKeepsUser(user: UserRecord)
    ensures Merge(Some(user), map[]) == user
  {
  }

  /** `typeof error === 'string' ? error : 'Registration failed'`. */
  function RegisterFailureMessage(error: Thrown): (m: Thrown)
    ensures m.Text?
    ensures error.Text? ==> m == error
    ensures !error.Text? ==> m == Text("Registration failed")
  {
    if error.Text? then error else Text("Registration failed")
  }

  /** `error || 'Login failed'`: a truthy error object is passed on as it is. */
  function LoginFailureMessage(error: Thrown): (m: Thrown)
    ensures Truthy(m)
    ensures Truthy(error) ==> m == error
    ensures !Truthy(error) ==> m == Text("Login failed")
  {
    if Truthy(error) then error else Text("Login failed")
  }

  /** The login message is never falsy, while a register failure with a
      thrown empty string reports that empty string. */
  lemma RegisterMessageCanBeEmpty()
    ensures RegisterFailureMessage(Text("")) == Text("")
    ensures LoginFailureMessage(Text("")) == Text("Login failed")
  {
  }

  /** The message `updateUser` reports when the storage write rejects. */
  const UpdateFailureMessage: Thrown := Text("Failed to update user")

  /** The first rejection of two awaited calls made in sequence. */
  function FirstFailure<T>(first: Outcome<()>, second: Outcome<T>): Thrown
    requires first.Fail? || second.Fail?
  {
    if first.Fail? then first.error else second.error
  }

  class AuthSession {
    var user: Option<UserRecord>
    var loading: bool
    var isAuthenticated: bool

    /** A signed-out session holds no user. The converse does not hold: a
      restore that finds a token but no stored user leaves an authenticated
      session without a user. UpdateUser is left out of this invariant: on a
      signed-out session it would create a user, and only screens behind
      sign-in call it. */
    ghost predicate SignedOutHasNoUser()
      reads this
    {
      !isAuthenticated ==> user == None
    }

    constructor ()
      ensures user == None && loading && !isAuthenticated
      ensures SignedOutHasNoUser()
    {
      user := None;
      loading := true;
      isAuthenticated := false;
    }

    /** `loadStoredUser`: when a token is stored the stored user is restored
      and the session becomes authenticated; on every path, including a
      storage rejection, loading ends. The stored user may be absent (None)
      even when a token exists. */
    method LoadStoredUser(tokenPresent: Outcome<bool>, storedUser: Outcome<Option<UserRecord>>)
      modifies this
      ensures !loading
      ensures tokenPresent == Ok(true) && storedUser.Ok? ==> user == storedUser.value && isAuthenticated
      ensures !(tokenPresent == Ok(true) && storedUser.Ok?) ==>
        user == old(user) && isAuthenticated == old(isAuthenticated)
      ensures old(SignedOutHasNoUser()) ==> SignedOutHasNoUser()
    {
      if tokenPresent == Ok(true) {
        if storedUser.Ok? {
          user := storedUser.value;
          isAuthenticated := true;
        }
      }
      loading := false;
    }

    /** `register`: after the backend call and the read of the stored user
      both resolve, the session is authenticated with that user. Otherwise
      nothing changes and the message follows RegisterFailureMessage. */
    method Register(registered: Outcome<()>, storedUser: Outcome<Option<UserRecord>>) returns (r: AuthResult)
      modifies this
      ensures r.Success? <==> registered.Ok? && storedUser.Ok?
      ensures r.Success? ==> user == storedUser.value && isAuthenticated
      ensures r.Failure? ==> user == old(user) && isAuthenticated == old(isAuthenticated)
      ensures r.Failure? ==> r.message == RegisterFailureMessage(FirstFailure(registered, storedUser))
      ensures loading == old(loading)
      ensures old(SignedOutHasNoUser()) ==> SignedOutHasNoUser()
    {
      if registered.Fail? {
        return Failure(RegisterFailureMessage(registered.error));
      }
      if storedUser.Fail? {
        return Failure(RegisterFailureMessage(storedUser.error));
      }
      user := storedUser.value;
      isAuthenticated := true;
      r := Success;
    }

    /** `login`: the same shape as `register`, with LoginFailureMessage. */
    method Login(loggedIn: Outcome<()>, storedUser: Outcome<Option<UserRecord>>) returns (r: AuthResult)
      modifies this
      ensures r.Success? <==> loggedIn.Ok? && storedUser.Ok?
      ensures r.Success? ==> user == storedUser.value && isAuthenticated
      ensures r.Failure? ==> user == old(user) && isAuthenticated == old(isAuthenticated)
      ensures r.Failure? ==> r.message == LoginFailureMessage(FirstFailure(loggedIn, storedUser))
      ensures loading == old(loading)
      ensures old(SignedOutHasNoUser()) ==> SignedOutHasNoUser()
    {
      if loggedIn.Fail? {
        return Failure(LoginFailureMessage(loggedIn.error));
      }
      if storedUser.Fail? {
        return Failure(LoginFailureMessage(storedUser.error));
      }
      user := storedUser.value;
      isAuthenticated := true;
      r := Success;
    }

    /** `logout`: the local session is cleared whether or not the storage
      call rejects. */
    method Logout(removed: Outcome<()>)
      modifies this
      ensures user == None && !isAuthenticated
      ensures loading == old(loading)
      ensures SignedOutHasNoUser()
    {
      match removed {
        case Ok(_) =>
          user := None;
          isAuthenticated := false;
        case Fail(_) =>
          // still log out locally
          user := None;
          isAuthenticated := false;
      }
    }

    /** `updateUser`: the merged record is written to storage and, once the
      write resolves, becomes the user. A rejected write keeps the user. */
    method UpdateUser(updatedData: UserRecord, written: Outcome<()>) returns (r: AuthResult)
      modifies this
      ensures written.Ok? ==> r == Success && user == Some(Merge(old(user), updatedData))
      ensures written.Fail? ==> r == Failure(UpdateFailureMessage) && user == old(user)
      ensures isAuthenticated == old(isAuthenticated) && loading == old(loading)
    {
      var updatedUser := Merge(user, updatedData);
      if written.Fail? {
        return Failure(UpdateFailureMessage);
      }
      user := Some(updatedUser);
      r := Success;
    }
  }

  /** A session that logs in, edits the name and logs out ends signed out,
      even when the logout call rejects. */
  method SessionScenario(stored: UserRecord, removed: Outcome<()>)
    requires "name" in stored
  {
    var session := new AuthSession();
    session.LoadStoredUser(Ok(false), Ok(None));
    assert !session.loading && !session.isAuthenticated && session.user == None;
    var r := session.Login(Ok(()), Ok(Some(stored)));
    assert r == Success && session.isAuthenticated;
    r := session.UpdateUser(map["name" := "Ana"], Ok(()));
    assert session.user.value["name"] == "Ana";
    assert session.user.value.Keys == stored.Keys;
    session.Logout(removed);
    assert session.user == None && !session.isAuthenticated;
  }
}
