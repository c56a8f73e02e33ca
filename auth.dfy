/** The session provider: the signed-in user, the flag that says the persisted user is
    still being read, and the one storage slot the user is persisted in. The identity
    providers (the browser redirect, the profile endpoint, the native Apple prompt) and
    the storage write are inputs: each is the outcome the awaited call produced. */
module Auth {
  import opened Outcomes

  /** The storage key of the persisted user; the same whoever signs in. */
  const UserStorageKey: string := "@myfinances:user"

  /** The redirect result `type` that means the user granted access. */
  const SuccessType: string := "success"

  datatype User = User(id: string, name: string, email: string, photo: Option<string>)

  /** The redirect flow's answer: its `type` and the access token among its parameters. */
  datatype AuthorizationResponse = AuthorizationResponse(kind: string, accessToken: string)

  /** The profile endpoint's answer. */
  datatype GoogleUserInfo = GoogleUserInfo(id: string, email: string, givenName: string, picture: Option<string>)

  /** The native credential; `fullName` may be null. */
  datatype AppleFullName = AppleFullName(givenName: string)
  datatype AppleCredential = AppleCredential(user: string, email: string, fullName: Option<AppleFullName>)

  /** What a failed sign-in throws, always as an `Error`: the text of the caught failure,
      or the TypeError raised by reading the given name of a null full name. */
  datatype AuthError = Rethrown(reason: string) | NullFullName

  datatype SignInResult = Completed | Failed(error: AuthError)

  /** The user built from a Google profile. */
  function GoogleUser(info: GoogleUserInfo): User {
    User(info.id, info.givenName, info.email, info.picture)
  }

  /** The user built from an Apple credential whose full name is present; no photo. */
  function AppleUser(credential: AppleCredential, fullName: AppleFullName): User {
    User(credential.user, fullName.givenName, credential.email, None)
  }

  class AuthProvider {
    /** None is the empty user object the provider starts from. */
    var user: Option<User>
    var userStorageLoading: bool
    /** The device storage as this provider sees it: decoded users by key. */
    var storage: map<string, Option<User>>

    /** A provider mounted over whatever was persisted by earlier runs. */
    constructor (persisted: map<string, Option<User>>)
      ensures user == None && userStorageLoading && storage == persisted
    {
      user := None;
      userStorageLoading := true;
      storage := persisted;
    }

    /** Restore: adopt the persisted user if there is one, then stop loading. */
    method LoadUserStorageData()
      modifies this
      ensures UserStorageKey in storage ==> user == storage[UserStorageKey]
      ensures UserStorageKey !in storage ==> user == old(user)
      ensures !userStorageLoading
      ensures storage == old(storage)
    {
      if UserStorageKey in storage {
        user := storage[UserStorageKey];
      }
      userStorageLoading := false;
    }

    /** The tail both sign-ins share: set the new user, then write to storage the user
        this call started from (the one the handler captured), not the new one. */
    method CommitSignIn(newUser: User, write: Attempt<Unit>) returns (r: SignInResult)
      modifies this
      ensures user == Some(newUser) && userStorageLoading == old(userStorageLoading)
      ensures write.Done? ==> r == Completed && storage == old(storage)[UserStorageKey := old(user)]
      ensures write.Threw? ==> r == Failed(Rethrown(write.reason)) && storage == old(storage)
    {
      var captured := user;
      user := Some(newUser);
      match write
      case Done(_) =>
        storage := storage[UserStorageKey := captured];
        r := Completed;
      case Threw(reason) =>
        r := Failed(Rethrown(reason));
    }

    /** The same tail writing the new user, which is what a restore needs to find. */
    method CommitSignInPersistingNewUser(newUser: User, write: Attempt<Unit>) returns (r: SignInResult)
      modifies this
      ensures user == Some(newUser) && userStorageLoading == old(userStorageLoading)
      ensures write.Done? ==> r == Completed && storage == old(storage)[UserStorageKey := Some(newUser)]
      ensures write.Threw? ==> r == Failed(Rethrown(write.reason)) && storage == old(storage)
    {
      user := Some(newUser);
      match write
      case Done(_) =>
        storage := storage[UserStorageKey := user];
        r := Completed;
      case Threw(reason) =>
        r := Failed(Rethrown(reason));
    }

    /** `start` is the redirect flow's outcome, `fetchProfile` the profile endpoint's
        answer for an access token, `write` the outcome of the storage write. */
    method SignInWithGoogle(start: Attempt<AuthorizationResponse>,
                            fetchProfile: string -> Attempt<GoogleUserInfo>,
                            write: Attempt<Unit>) returns (r: SignInResult)
      modifies this
      ensures userStorageLoading == old(userStorageLoading)
      ensures start.Threw? ==>
                r == Failed(Rethrown(start.reason)) && user == old(user) && storage == old(storage)
      ensures start.Done? && start.value.kind != SuccessType ==>
                r == Completed && user == old(user) && storage == old(storage)
      ensures start.Done? && start.value.kind == SuccessType && fetchProfile(start.value.accessToken).Threw? ==>
                r == Failed(Rethrown(fetchProfile(start.value.accessToken).reason)) &&
                user == old(user) && storage == old(storage)
      ensures start.Done? && start.value.kind == SuccessType && fetchProfile(start.value.accessToken).Done? ==>
                var info := fetchProfile(start.value.accessToken).value;
                && user == Some(User(info.id, info.givenName, info.email, info.picture))
                && (write.Done? ==> r == Completed && storage == old(storage)[UserStorageKey := old(user)])
                && (write.Threw? ==> r == Failed(Rethrown(write.reason)) && storage == old(storage))
      ensures user != old(user) ==> start.Done? && start.value.kind == SuccessType
    {
      match start
      case Threw(reason) =>
        r := Failed(Rethrown(reason));
      case Done(response) =>
        if response.kind == SuccessType {
          match fetchProfile(response.accessToken)
          case Threw(reason) =>
            r := Failed(Rethrown(reason));
          case Done(info) =>
            r := CommitSignIn(GoogleUser(info), write);
        } else {
          r := Completed;
        }
    }

    /** `prompt` is the native prompt's outcome; a null credential is `Done(None)`. */
    method SignInWithApple(prompt: Attempt<Option<AppleCredential>>, write: Attempt<Unit>)
      returns (r: SignInResult)
      modifies this
      ensures userStorageLoading == old(userStorageLoading)
      ensures prompt.Threw? ==>
                r == Failed(Rethrown(prompt.reason)) && user == old(user) && storage == old(storage)
      ensures prompt == Done(None) ==> r == Completed && user == old(user) && storage == old(storage)
      ensures prompt.Done? && prompt.value.Some? && prompt.value.value.fullName.None? ==>
                r == Failed(NullFullName) && user == old(user) && storage == old(storage)
      ensures prompt.Done? && prompt.value.Some? && prompt.value.value.fullName.Some? ==>
                var credential := prompt.value.value;
                && user == Some(User(credential.user, credential.fullName.value.givenName, credential.email, None))
                && (write.Done? ==> r == Completed && storage == old(storage)[UserStorageKey := old(user)])
                && (write.Threw? ==> r == Failed(Rethrown(write.reason)) && storage == old(storage))
    {
      match prompt
      case Threw(reason) =>
        r := Failed(Rethrown(reason));
      case Done(None) =>
        r := Completed;
      case Done(Some(credential)) =>
        match credential.fullName
        case None =>
          r := Failed(NullFullName);
        case Some(fullName) =>
          r := CommitSignIn(AppleUser(credential, fullName), write);
    }
  }

  /** A first Google sign-in on a device with nothing persisted: the session holds the
      new identity, yet after a relaunch the restore finds only the empty user. */
  method RelaunchAfterGoogleSignIn(info: GoogleUserInfo, token: string)
    returns (signedIn: Option<User>, restored: Option<User>)
    ensures signedIn == Some(GoogleUser(info))
    ensures restored == None
  {
    var app := new AuthProvider(map[]);
    app.LoadUserStorageData();
    var r := app.SignInWithGoogle(Done(AuthorizationResponse(SuccessType, token)), t => Done(info), Done(Unit));
    signedIn := app.user;
    var relaunched := new AuthProvider(app.storage);
    relaunched.LoadUserStorageData();
    restored := relaunched.user;
  }

  /** Signing in with Apple after a Google sign-in persists the Google identity. */
  method SecondSignInPersistsFirst(info: GoogleUserInfo, token: string, credential: AppleCredential)
    returns (persisted: Option<User>)
    requires credential.fullName.Some?
    ensures persisted == Some(GoogleUser(info))
  {
    var app := new AuthProvider(map[]);
    app.LoadUserStorageData();
    var r := app.SignInWithGoogle(Done(AuthorizationResponse(SuccessType, token)), t => Done(info), Done(Unit));
    r := app.SignInWithApple(Done(Some(credential)), Done(Unit));
    persisted := app.storage[UserStorageKey];
  }

  /** With the new user persisted, a relaunch restores exactly the identity that signed in. */
  method RelaunchAfterPersistingNewUser(u: User, earlier: map<string, Option<User>>)
    returns (restored: Option<User>)
    ensures restored == Some(u)
  {
    var app := new AuthProvider(earlier);
    app.LoadUserStorageData();
    var r := app.CommitSignInPersistingNewUser(u, Done(Unit));
    var relaunched := new AuthProvider(app.storage);
    relaunched.LoadUserStorageData();
    restored := relaunched.user;
  }
}
