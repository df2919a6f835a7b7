/** The account handlers of the user controller as methods of a store that
    holds the users collection, the subscriptions collection and a counter
    standing for fresh document ids.
    Each handler either fails and leaves the store as it was, or changes
    exactly the fields it names. The authenticated caller that the route's
    JWT check attaches to the request is an explicit `caller` parameter; the
    clock, the request body, the uploaded files and the uploader's answers are
    parameters too. */
module Sessions {
  import opened Common
  import opened Users
  import Channels

  const TokenFailure := "Something went wrong while generating refresh and access token."
  /** What V8 reports for `res.status(200).cookies(...)`: Express responses have `cookie`, not `cookies`. */
  const CookiesNotAFunction := "res.status(...).cookies is not a function"

  class UserStore {
    var users: seq<User>
    var subscriptions: seq<Channels.Subscription>
    var nextId: nat
    /** Lifetimes of the two kinds of token (ACCESS_TOKEN_EXPIRY, REFRESH_TOKEN_EXPIRY). */
    const accessTtl: nat
    const refreshTtl: nat

    predicate Valid()
      reads this
    {
      WellFormed(users, nextId, refreshTtl)
    }

    constructor (accessTtl: nat, refreshTtl: nat, subscriptions: seq<Channels.Subscription>)
      ensures Valid()
      ensures users == [] && this.subscriptions == subscriptions
      ensures this.accessTtl == accessTtl && this.refreshTtl == refreshTtl
    {
      this.accessTtl, this.refreshTtl := accessTtl, refreshTtl;
      this.subscriptions := subscriptions;
      users, nextId := [], 0;
    }

    /** `user.generateAccessToken()` signed at second `now`. */
    function AccessTokenFor(u: User, now: nat): Token
    {
      Signed(AccessSecret, AccessClaims(u.id, u.username, u.email, u.fullname), now, now + accessTtl)
    }

    /** `user.generateRefreshToken()` signed at second `now`. */
    function RefreshTokenFor(id: UserId, now: nat): Token
    {
      Signed(RefreshSecret, RefreshClaims(id), now, now + refreshTtl)
    }

    /** `generateAccessAndRefreshTokens`: signs a pair for the user and
        overwrites the user's single stored refresh token with the new one. A
        missing user makes `user.generateAccessToken` throw, which is rethrown
        as a 500. The new refresh token equals a stored one only when that is
        the same user's token signed in the same second. */
    method IssueTokens(id: UserId, now: nat) returns (r: Result<TokenPair, Failure>)
      requires Valid()
      modifies this`users
      ensures Valid()
      ensures FindById(old(users), id).None? ==>
        r == Err(ApiError(InternalError, TokenFailure)) && users == old(users)
      ensures FindById(old(users), id).Some? ==>
        var i := FindById(old(users), id).value;
        && r == Ok(TokenPair(AccessTokenFor(old(users)[i], now), RefreshTokenFor(id, now)))
        && users == old(users)[i := old(users)[i].(refreshToken := Some(r.value.refreshToken))]
      ensures r.Ok? ==> forall j :: 0 <= j < |old(users)| ==>
        (old(users)[j].refreshToken == Some(r.value.refreshToken) <==>
         old(users)[j].id == id && old(users)[j].refreshToken.Some? && old(users)[j].refreshToken.value.issuedAt == now)
    {
      var found := FindById(users, id);
      if found.None? {
        return Err(ApiError(InternalError, TokenFailure));
      }
      var i := found.value;
      var pair := TokenPair(AccessTokenFor(users[i], now), RefreshTokenFor(id, now));
      users := users[i := users[i].(refreshToken := Some(pair.refreshToken))];
      r := Ok(pair);
    }

    /** `registerUser`. `avatarUpload` and `coverUpload` are the uploader's
        answers for the avatar path and for the cover path of
        `PlanUploads(files)` (the cover path being undefined unless `req.files`
        is an array). */
    method Register(form: RegisterForm, files: Option<Files>, avatarUpload: Option<Hosted>, coverUpload: Option<Hosted>)
      returns (r: Result<PublicUser, Failure>)
      requires Valid()
      modifies this`users, this`nextId
      ensures Valid()
      ensures RegisterCheck(old(users), form, files, avatarUpload).Err? ==>
        r == Err(RegisterCheck(old(users), form, files, avatarUpload).error) && users == old(users) && nextId == old(nextId)
      ensures RegisterCheck(old(users), form, files, avatarUpload).Ok? ==>
        && users == old(users) + [NewUser(old(nextId), form, avatarUpload.value, coverUpload)]
        && nextId == old(nextId) + 1
        && r == Ok(Public(users[|old(users)|]))
    {
      var check := RegisterCheck(users, form, files, avatarUpload);
      if check.Err? {
        return Err(check.error);
      }
      var u := NewUser(nextId, form, avatarUpload.value, coverUpload);
      LowerIdempotent(form.username.value);
      Insert(u);
      r := Ok(Public(u));
    }

    /** `User.create`: appends a document carrying the next id. */
    method Insert(u: User)
      requires Valid() && u.id == nextId && u.refreshToken.None? && Lower(u.username) == u.username && u.avatar != ""
      modifies this`users, this`nextId
      ensures Valid()
      ensures users == old(users) + [u] && nextId == old(nextId) + 1
    {
      AppendKeepsWellFormed(users, nextId, refreshTtl, u);
      users := users + [u];
      nextId := nextId + 1;
    }

    /** `loginUser`: finds the first user matching the given username or
        email, checks the password, then issues a token pair. The answer
        carries the full document, with the new refresh token set on it. */
    method Login(username: Option<string>, email: Option<string>, password: Option<string>, now: nat)
      returns (r: Result<Session, Failure>)
      requires Valid()
      modifies this`users
      ensures Valid()
      ensures r.Err? ==> users == old(users)
      ensures !Truthy(username) && !Truthy(email) ==> r == Err(ApiError(BadRequest, "Username or Email required."))
      ensures (Truthy(username) || Truthy(email)) && FindByUsernameOrEmail(old(users), username, email).None? ==>
        r == Err(ApiError(NotFound, "User does not exists."))
      ensures (Truthy(username) || Truthy(email)) && FindByUsernameOrEmail(old(users), username, email).Some? ==>
        var i := FindByUsernameOrEmail(old(users), username, email).value;
        && (password.None? ==> r.Err? && r.error.Thrown?)
        && (password.Some? && !PasswordCorrect(old(users)[i].password, password.value) ==>
              r == Err(ApiError(BadRequest, "Invalid user Credentials.")))
        && (password.Some? && PasswordCorrect(old(users)[i].password, password.value) ==>
              && r.Ok?
              && users == old(users)[i := old(users)[i].(refreshToken := Some(r.value.refreshToken))]
              && r.value.user == users[i]
              && r.value.accessToken == AccessTokenFor(old(users)[i], now)
              && r.value.refreshToken == RefreshTokenFor(old(users)[i].id, now))
      ensures r.Ok? ==> exists i :: 0 <= i < |users| && users[i] == r.value.user && users[i].refreshToken == Some(r.value.refreshToken)
    {
      if !Truthy(username) && !Truthy(email) {
        return Err(ApiError(BadRequest, "Username or Email required."));
      }
      var found := FindByUsernameOrEmail(users, username, email);
      if found.None? {
        return Err(ApiError(NotFound, "User does not exists."));
      }
      var i := found.value;
      if password.None? {
        return Err(Thrown("Error: data and hash arguments required"));
      }
      if !PasswordCorrect(users[i].password, password.value) {
        return Err(ApiError(BadRequest, "Invalid user Credentials."));
      }
      FindByIdFinds(users, i);
      var pair := IssueTokens(users[i].id, now);
      r := Ok(Session(users[i], pair.value.accessToken, pair.value.refreshToken));
    }

    /** `logoutUser`: clears the caller's stored refresh token; a caller who
        is not stored changes nothing. */
    method Logout(caller: UserId)
      requires Valid()
      modifies this`users
      ensures Valid()
      ensures FindById(old(users), caller).None? ==> users == old(users)
      ensures FindById(old(users), caller).Some? ==>
        var i := FindById(old(users), caller).value;
        users == old(users)[i := old(users)[i].(refreshToken := None)]
    {
      var found := FindById(users, caller);
      if found.Some? {
        var i := found.value;
        users := users[i := users[i].(refreshToken := None)];
      }
    }

    /** `refreshAccessToken`. A token that passes RefreshDecision is rotated
        in the store; the handler then calls `res.status(200).cookies`, which
        is not a function, and its catch turns that into a 401 as well. So
        every call answers 401, and an accepted call has rotated the token. */
    method RefreshAccessToken(cookie: Option<Token>, body: Option<Token>, now: nat) returns (r: Result<TokenPair, Failure>)
      requires Valid()
      modifies this`users
      ensures Valid()
      ensures r.Err? && r.error.ApiError? && r.error.status == Unauthorized
      ensures RefreshDecision(old(users), cookie, body, now).Err? ==>
        r == Err(RefreshDecision(old(users), cookie, body, now).error) && users == old(users)
      ensures RefreshDecision(old(users), cookie, body, now).Ok? ==>
        var i := RefreshDecision(old(users), cookie, body, now).value;
        && r == Err(ApiError(Unauthorized, CookiesNotAFunction))
        && users == old(users)[i := old(users)[i].(refreshToken := Some(RefreshTokenFor(old(users)[i].id, now)))]
    {
      var decision := RefreshDecision(users, cookie, body, now);
      if decision.Err? {
        return Err(decision.error);
      }
      FindByIdFinds(users, decision.value);
      var pair := IssueTokens(users[decision.value].id, now);
      r := Err(ApiError(Unauthorized, CookiesNotAFunction));
    }

    /** `changeCurrentPassword`. The confirmation is compared first, then the
        old password; an absent password makes bcrypt throw. */
    method ChangeCurrentPassword(caller: UserId, oldPassword: Option<string>, newPassword: Option<string>, confPassword: Option<string>)
      returns (r: Result<(), Failure>)
      requires Valid()
      modifies this`users
      ensures Valid()
      ensures r.Err? ==> users == old(users)
      ensures newPassword != confPassword ==> r == Err(ApiError(BadRequest, "Please Confirm Your password again."))
      ensures newPassword == confPassword && FindById(old(users), caller).None? ==> r.Err? && r.error.Thrown?
      ensures newPassword == confPassword && FindById(old(users), caller).Some? ==>
        var i := FindById(old(users), caller).value;
        && (oldPassword.None? ==> r.Err? && r.error.Thrown?)
        && (oldPassword.Some? && !PasswordCorrect(old(users)[i].password, oldPassword.value) ==>
              r == Err(ApiError(BadRequest, "Incorrect Old Password.")))
        && (oldPassword.Some? && PasswordCorrect(old(users)[i].password, oldPassword.value) && newPassword.None? ==>
              r.Err? && r.error.Thrown?)
        && (oldPassword.Some? && PasswordCorrect(old(users)[i].password, oldPassword.value) && newPassword.Some? ==>
              r == Ok(()) && users == old(users)[i := old(users)[i].(password := Hash(newPassword.value))])
      ensures r.Ok? ==> newPassword.Some? && newPassword == confPassword
    {
      if newPassword != confPassword {
        return Err(ApiError(BadRequest, "Please Confirm Your password again."));
      }
      var found := FindById(users, caller);
      if found.None? {
        return Err(Thrown("TypeError: Cannot read properties of null (reading 'isPasswordCorrect')"));
      }
      var i := found.value;
      if oldPassword.None? {
        return Err(Thrown("Error: data and hash arguments required"));
      }
      if !PasswordCorrect(users[i].password, oldPassword.value) {
        return Err(ApiError(BadRequest, "Incorrect Old Password."));
      }
      if newPassword.None? {
        return Err(Thrown("Error: data and salt arguments required"));
      }
      users := users[i := users[i].(password := Hash(newPassword.value))];
      r := Ok(());
    }

    /** `updateAccountDetails`: needs a truthy fullname or email and writes
        those two fields only; the answer is the updated user without its
        password, or nothing when the caller is not stored. */
    method UpdateAccountDetails(caller: UserId, fullname: Option<string>, email: Option<string>)
      returns (r: Result<Option<AccountView>, Failure>)
      requires Valid()
      modifies this`users
      ensures Valid()
      ensures r.Err? ==> users == old(users)
      ensures !(Truthy(fullname) || Truthy(email)) <==> r == Err(ApiError(BadRequest, "All Fields are Required."))
      ensures (Truthy(fullname) || Truthy(email)) && FindById(old(users), caller).None? ==>
        r == Ok(None) && users == old(users)
      ensures (Truthy(fullname) || Truthy(email)) && FindById(old(users), caller).Some? ==>
        var i := FindById(old(users), caller).value;
        && users == old(users)[i := old(users)[i].(
             fullname := SetIfDefined(old(users)[i].fullname, fullname),
             email := SetIfDefined(old(users)[i].email, email))]
        && r == Ok(Some(ViewOf(users[i])))
    {
      if !(Truthy(fullname) || Truthy(email)) {
        return Err(ApiError(BadRequest, "All Fields are Required."));
      }
      var found := FindById(users, caller);
      if found.None? {
        return Ok(None);
      }
      var i := found.value;
      users := users[i := users[i].(fullname := SetIfDefined(users[i].fullname, fullname), email := SetIfDefined(users[i].email, email))];
      r := Ok(Some(ViewOf(users[i])));
    }

    /** `updateAvatar`: `upload` is the uploader's answer for the file's path. */
    method UpdateAvatar(caller: UserId, file: Option<FileRef>, upload: Option<Hosted>)
      returns (r: Result<Option<AccountView>, Failure>)
      requires Valid()
      modifies this`users
      ensures Valid()
      ensures r.Err? ==> users == old(users)
      ensures ImageUrl(file, upload, "Avatar File is missing.", "Error while uploading avatar.").Err? ==>
        r == Err(ImageUrl(file, upload, "Avatar File is missing.", "Error while uploading avatar.").error)
      ensures ImageUrl(file, upload, "Avatar File is missing.", "Error while uploading avatar.").Ok? ==>
        if FindById(old(users), caller).None? then r == Ok(None) && users == old(users)
        else
          var i := FindById(old(users), caller).value;
          && users == old(users)[i := old(users)[i].(avatar := upload.value.url)]
          && r == Ok(Some(ViewOf(users[i])))
    {
      var url := ImageUrl(file, upload, "Avatar File is missing.", "Error while uploading avatar.");
      if url.Err? {
        return Err(url.error);
      }
      var found := FindById(users, caller);
      if found.None? {
        return Ok(None);
      }
      var i := found.value;
      users := users[i := users[i].(avatar := url.value)];
      r := Ok(Some(ViewOf(users[i])));
    }

    /** `updateCoverImage`: `upload` is the uploader's answer for the file's path. */
    method UpdateCoverImage(caller: UserId, file: Option<FileRef>, upload: Option<Hosted>)
      returns (r: Result<Option<AccountView>, Failure>)
      requires Valid()
      modifies this`users
      ensures Valid()
      ensures r.Err? ==> users == old(users)
      ensures ImageUrl(file, upload, "Cover Image File is missing.", "Error while uploading Cover Image.").Err? ==>
        r == Err(ImageUrl(file, upload, "Cover Image File is missing.", "Error while uploading Cover Image.").error)
      ensures ImageUrl(file, upload, "Cover Image File is missing.", "Error while uploading Cover Image.").Ok? ==>
        if FindById(old(users), caller).None? then r == Ok(None) && users == old(users)
        else
          var i := FindById(old(users), caller).value;
          && users == old(users)[i := old(users)[i].(coverImage := upload.value.url)]
          && r == Ok(Some(ViewOf(users[i])))
    {
      var url := ImageUrl(file, upload, "Cover Image File is missing.", "Error while uploading Cover Image.");
      if url.Err? {
        return Err(url.error);
      }
      var found := FindById(users, caller);
      if found.None? {
        return Ok(None);
      }
      var i := found.value;
      users := users[i := users[i].(coverImage := url.value)];
      r := Ok(Some(ViewOf(users[i])));
    }

    /** `getUserChannelProfile` against the stored collections; reads only. */
    method GetUserChannelProfile(username: Option<string>, caller: UserId) returns (r: Result<Channels.ChannelProfile, Failure>)
      ensures r == Channels.GetUserChannelProfile(users, subscriptions, username, caller)
    {
      r := Channels.GetUserChannelProfile(users, subscriptions, username, caller);
    }
  }
}
