/** The user records the account handlers read and write, the tokens they
    issue, and the read-only steps of the handlers: the store's queries, the
    inspection of uploaded files during registration and the checks a
    presented refresh token must pass. */
module Users {
  import opened Common

  type UserId = nat
  type Url = string

  /** A bcrypt digest of a password. Hashing itself is outside the model: a
      digest only records which secret it was made from. */
  datatype Digest = Bcrypt(secret: string)

  function Hash(password: string): Digest
  {
    Bcrypt(password)
  }

  /** `isPasswordCorrect`: bcrypt's comparison of a candidate with a digest. */
  predicate PasswordCorrect(d: Digest, candidate: string)
  {
    d == Hash(candidate)
  }

  /** The two signing secrets (ACCESS_TOKEN_SECRET and REFRESH_TOKEN_SECRET). */
  datatype Key = AccessSecret | RefreshSecret

  /** Access tokens carry id, username, email and fullname; refresh tokens
      carry the id only. */
  datatype Claims =
    | AccessClaims(id: UserId, username: string, email: string, fullname: string)
    | RefreshClaims(id: UserId)

  /** A token as a client presents it: one signed by this server, or any other
      string (malformed, tampered with, or signed elsewhere). A signed token
      is determined by its secret, its payload and its `iat` and `exp`
      claims (whole seconds): two tokens signed for the same payload in the
      same second are the same string. */
  datatype Token =
    | Signed(key: Key, claims: Claims, issuedAt: nat, expiresAt: nat)
    | Unsigned(text: string)

  datatype TokenPair = TokenPair(accessToken: Token, refreshToken: Token)

  /** What a successful login answers: the user document as found, with the
      new refresh token set on it, and both tokens. */
  datatype Session = Session(user: User, accessToken: Token, refreshToken: Token)

  /** A stored user document. */
  datatype User = User(
    id: UserId,
    username: string,
    email: string,
    fullname: string,
    password: Digest,
    avatar: Url,
    coverImage: Url,
    refreshToken: Option<Token>)

  /** A user without password and refresh token (`select("-password -refreshToken")`). */
  datatype PublicUser = PublicUser(
    id: UserId, username: string, email: string, fullname: string, avatar: Url, coverImage: Url)

  /** A user without password (`select("-password")`). */
  datatype AccountView = AccountView(user: PublicUser, refreshToken: Option<Token>)

  function Public(u: User): PublicUser
  {
    PublicUser(u.id, u.username, u.email, u.fullname, u.avatar, u.coverImage)
  }

  function ViewOf(u: User): AccountView
  {
    AccountView(Public(u), u.refreshToken)
  }

  /** The public view hides exactly the password and the refresh token: two
      documents have the same view if and only if they agree on every other
      field. */
  lemma PublicHidesSecrets(u: User, v: User)
    ensures Public(u) == Public(v) <==> u.(password := v.password, refreshToken := v.refreshToken) == v
  {
  }

  // ---------------------------------------------------------------------------
  // Store invariant

  /** A refresh token this store signed for `id`, valid for `ttl` seconds. */
  predicate IssuedRefreshFor(t: Token, id: UserId, ttl: nat)
  {
    t.Signed? && t.key == RefreshSecret && t.claims == RefreshClaims(id) && t.expiresAt == t.issuedAt + ttl
  }

  predicate DistinctIds(users: seq<User>)
  {
    forall i, j :: 0 <= i < j < |users| ==> users[i].id != users[j].id
  }

  /** Ids are distinct and below the next id to allot; usernames are stored
      lower-cased; every avatar URL is present; every stored refresh token
      was signed by this store for its own user with lifetime `ttl`. */
  predicate WellFormed(users: seq<User>, nextId: nat, ttl: nat)
  {
    && DistinctIds(users)
    && (forall i :: 0 <= i < |users| ==> users[i].id < nextId)
    && (forall i :: 0 <= i < |users| ==> Lower(users[i].username) == users[i].username)
    && (forall i :: 0 <= i < |users| ==> users[i].avatar != "")
    && (forall i :: 0 <= i < |users| && users[i].refreshToken.Some? ==>
          IssuedRefreshFor(users[i].refreshToken.value, users[i].id, ttl))
  }

  /** Appending a user with the next id and no refresh token keeps the store well formed. */
  lemma AppendKeepsWellFormed(users: seq<User>, nextId: nat, ttl: nat, u: User)
    requires WellFormed(users, nextId, ttl)
    requires u.id == nextId && u.refreshToken.None? && Lower(u.username) == u.username && u.avatar != ""
    ensures WellFormed(users + [u], nextId + 1, ttl)
  {
    var after := users + [u];
    forall i, j | 0 <= i < j < |after| ensures after[i].id != after[j].id {
      if j == |users| {
        assert after[i].id == users[i].id < nextId;
      }
    }
  }

  // ---------------------------------------------------------------------------
  // Queries

  /** The first document, in the collection's order, that satisfies `p`
      (what `findOne` and `aggregate(...)[0]` return). */
  function FirstIndex(users: seq<User>, p: User -> bool): (r: Option<nat>)
    ensures r.Some? ==> r.value < |users| && p(users[r.value])
    ensures r.Some? ==> forall j :: 0 <= j < r.value ==> !p(users[j])
    ensures r.None? ==> forall j :: 0 <= j < |users| ==> !p(users[j])
  {
    if users == [] then None
    else if p(users[0]) then Some(0)
    else match FirstIndex(users[1..], p)
      case None => None
      case Some(k) => Some(k + 1)
  }

  /** `findById`. */
  function FindById(users: seq<User>, id: UserId): (r: Option<nat>)
    ensures r.Some? ==> r.value < |users| && users[r.value].id == id
    ensures r.None? ==> forall j :: 0 <= j < |users| ==> users[j].id != id
  {
    FirstIndex(users, (u: User) => u.id == id)
  }

  /** With distinct ids, `findById` finds each stored user at its own place. */
  lemma FindByIdFinds(users: seq<User>, i: nat)
    requires DistinctIds(users) && i < |users|
    ensures FindById(users, users[i].id) == Some(i)
  {
  }

  /** `findById` only looks at ids: rewriting other fields leaves it unchanged. */
  lemma FindByIdSameIds(a: seq<User>, b: seq<User>, id: UserId)
    requires |a| == |b|
    requires forall k :: 0 <= k < |a| ==> a[k].id == b[k].id
    ensures FindById(a, id) == FindById(b, id)
  {
  }


  /** Does a stored user match `$or: [{ username }, { email }]`? A clause whose
      value is undefined matches no stored user. Values are compared as given. */
  predicate MatchesUsernameOrEmail(u: User, username: Option<string>, email: Option<string>)
  {
    (username.Some? && u.username == username.value) || (email.Some? && u.email == email.value)
  }

  /** `findOne({ $or: [{ username }, { email }] })`. */
  function FindByUsernameOrEmail(users: seq<User>, username: Option<string>, email: Option<string>): (r: Option<nat>)
    ensures r.Some? ==> r.value < |users| && MatchesUsernameOrEmail(users[r.value], username, email)
    ensures r.None? <==> forall j :: 0 <= j < |users| ==> !MatchesUsernameOrEmail(users[j], username, email)
  {
    FirstIndex(users, (u: User) => MatchesUsernameOrEmail(u, username, email))
  }

  // ---------------------------------------------------------------------------
  // Registration input

  /** The text fields of a registration request; None is an absent field. */
  datatype RegisterForm = RegisterForm(
    fullname: Option<string>, username: Option<string>, email: Option<string>, password: Option<string>)

  /** `field?.trim() === ""` for one field: present and blank. */
  predicate BlankField(f: Option<string>)
  {
    f.Some? && IsBlank(f.value)
  }

  /** `[fullname, username, email, password].some(field => field?.trim() === "")`. */
  predicate AnyBlank(form: RegisterForm)
    ensures AnyBlank(form) <==>
      exists f :: f in [form.fullname, form.username, form.email, form.password] && BlankField(f)
  {
    BlankField(form.fullname) || BlankField(form.username) || BlankField(form.email) || BlankField(form.password)
  }

  datatype FileRef = FileRef(path: string)

  /** `req.files` as the upload middleware leaves it: whether it is an array,
      and its `avatar` and `coverImage` lists (None when the property is
      undefined). */
  datatype Files = Files(isArray: bool, avatar: Option<seq<FileRef>>, coverImage: Option<seq<FileRef>>)

  /** The local paths that registration hands to the uploader. */
  datatype UploadPlan = UploadPlan(avatarPath: string, coverPath: Option<string>)

  const AvatarRequired := ApiError(BadRequest, "Avatar is Required.")

  /** Registration's file inspection: the avatar path from `req.files?.avatar[0]?.path`,
      the cover path set only when `req.files` is an array with a non-empty
      `coverImage` (and then copied from the avatar), and the "Avatar is
      Required." check on the avatar path. Property reads on undefined throw. */
  function PlanUploads(files: Option<Files>): (r: Result<UploadPlan, Failure>)
    ensures files.None? ==> r == Err(AvatarRequired)
    ensures r.Ok? ==> files.Some? && files.value.avatar.Some? && |files.value.avatar.value| > 0
    ensures r.Ok? ==> r.value.avatarPath == files.value.avatar.value[0].path && r.value.avatarPath != ""
    ensures r.Ok? && r.value.coverPath.Some? ==> files.value.isArray && r.value.coverPath == Some(r.value.avatarPath)
    ensures files.Some? && !files.value.isArray && files.value.avatar.Some? ==>
      (r.Ok? <==> |files.value.avatar.value| > 0 && files.value.avatar.value[0].path != "")
    ensures r.Ok? && !files.value.isArray ==> r.value.coverPath.None?
    ensures files.Some? && files.value.avatar.None? ==> r.Err? && r.error.Thrown?
  {
    match files
    case None => Err(AvatarRequired)
    case Some(f) =>
      if f.avatar.None? then Err(Thrown("TypeError: Cannot read properties of undefined (reading '0')"))
      else
        var avatars := f.avatar.value;
        var avatarPath := if |avatars| == 0 then None else Some(avatars[0].path);
        if f.isArray && f.coverImage.None? then
          Err(Thrown("TypeError: Cannot read properties of undefined (reading 'length')"))
        else if f.isArray && |f.coverImage.value| > 0 && |avatars| == 0 then
          Err(Thrown("TypeError: Cannot read properties of undefined (reading 'path')"))
        else
          var coverPath := if f.isArray && |f.coverImage.value| > 0 then Some(avatars[0].path) else None;
          if !Truthy(avatarPath) then Err(AvatarRequired)
          else Ok(UploadPlan(avatarPath.value, coverPath))
  }

  /** The uploader's answer for one local path: None when it returns nothing,
      otherwise the hosted file with its URL ("" when the URL is missing). */
  datatype Hosted = Hosted(url: Url)

  /** The checks `updateAvatar` and `updateCoverImage` make before writing:
      `req.file?.path` must be truthy, the uploader's answer is dereferenced
      (`.url` on nothing throws) and its URL must be truthy. */
  function ImageUrl(file: Option<FileRef>, upload: Option<Hosted>, missing: string, failed: string): (r: Result<Url, Failure>)
    ensures file.None? || file.value.path == "" ==> r == Err(ApiError(BadRequest, missing))
    ensures file.Some? && file.value.path != "" && upload.None? ==> r.Err? && r.error.Thrown?
    ensures file.Some? && file.value.path != "" && upload.Some? && upload.value.url == "" ==> r == Err(ApiError(BadRequest, failed))
    ensures r.Ok? <==> file.Some? && file.value.path != "" && upload.Some? && upload.value.url != ""
    ensures r.Ok? ==> r.value == upload.value.url
  {
    if file.None? || file.value.path == "" then Err(ApiError(BadRequest, missing))
    else if upload.None? then Err(Thrown("TypeError: Cannot read properties of null (reading 'url')"))
    else if upload.value.url == "" then Err(ApiError(BadRequest, failed))
    else Ok(upload.value.url)
  }

  /** `$set` of a field whose value may be undefined: an undefined value leaves
      the stored one in place. */
  function SetIfDefined(current: string, v: Option<string>): string
  {
    if v.Some? then v.value else current
  }

  const FieldsRequired := ApiError(BadRequest, "Fullname is required.")
  const AlreadyExists := ApiError(Conflict, "Username or Email already exists.")

  /** Everything `registerUser` checks before it creates the document, in the
      handler's order: blank fields (400), an existing user with the same raw
      username or email (409), the file inspection of PlanUploads, and the
      avatar upload (400). An absent username then fails `toLowerCase`, and an
      absent fullname, email or password, or an upload without a URL, fails
      the schema's validation of these required fields. */
  function RegisterCheck(users: seq<User>, form: RegisterForm, files: Option<Files>, avatarUpload: Option<Hosted>)
    : (r: Result<(), Failure>)
    ensures AnyBlank(form) ==> r == Err(FieldsRequired)
    ensures !AnyBlank(form) && FindByUsernameOrEmail(users, form.username, form.email).Some? ==> r == Err(AlreadyExists)
    ensures !AnyBlank(form) && FindByUsernameOrEmail(users, form.username, form.email).None? && PlanUploads(files).Err? ==>
      r == Err(PlanUploads(files).error)
    ensures (!AnyBlank(form) && FindByUsernameOrEmail(users, form.username, form.email).None? && PlanUploads(files).Ok?
             && avatarUpload.None?) ==> r == Err(AvatarRequired)
    ensures r.Ok? <==>
      && !AnyBlank(form)
      && (forall j :: 0 <= j < |users| ==> !MatchesUsernameOrEmail(users[j], form.username, form.email))
      && PlanUploads(files).Ok? && avatarUpload.Some?
      && form.fullname.Some? && form.username.Some? && form.email.Some? && form.password.Some?
      && avatarUpload.value.url != ""
    ensures r.Err? && r.error.ApiError? ==> r.error in {FieldsRequired, AlreadyExists, AvatarRequired}
  {
    if AnyBlank(form) then Err(FieldsRequired)
    else if FindByUsernameOrEmail(users, form.username, form.email).Some? then Err(AlreadyExists)
    else if PlanUploads(files).Err? then Err(PlanUploads(files).error)
    else if avatarUpload.None? then Err(AvatarRequired)
    else if form.username.None? then Err(Thrown("TypeError: Cannot read properties of undefined (reading 'toLowerCase')"))
    else if form.fullname.None? || form.email.None? || form.password.None? || avatarUpload.value.url == "" then
      Err(Thrown("ValidationError: User validation failed"))
    else Ok(())
  }

  /** The uniqueness check compares the raw username with stored usernames,
      which are lower-cased: a username that lower-casing changes never
      collides with one, so a form whose email is new is not refused with
      409 even when its lower-cased username is already taken. */
  lemma CaseVariantNotRefused(users: seq<User>, nextId: nat, ttl: nat, form: RegisterForm,
                              files: Option<Files>, avatarUpload: Option<Hosted>)
    requires WellFormed(users, nextId, ttl)
    requires form.username.Some? && Lower(form.username.value) != form.username.value
    requires form.email.None? || forall j :: 0 <= j < |users| ==> users[j].email != form.email.value
    ensures FindByUsernameOrEmail(users, form.username, form.email).None?
    ensures RegisterCheck(users, form, files, avatarUpload) != Err(AlreadyExists)
  {
    CaseVariantUnmatched(users, nextId, ttl, form.username.value, form.email);
    UnmatchedNotRefused(users, form, files, avatarUpload);
  }

  /** A name that lower-casing changes matches no stored (lower-cased) username. */
  lemma CaseVariantUnmatched(users: seq<User>, nextId: nat, ttl: nat, name: string, email: Option<string>)
    requires WellFormed(users, nextId, ttl)
    requires Lower(name) != name
    requires email.None? || forall j :: 0 <= j < |users| ==> users[j].email != email.value
    ensures FindByUsernameOrEmail(users, Some(name), email).None?
  {
    forall j | 0 <= j < |users|
      ensures !MatchesUsernameOrEmail(users[j], Some(name), email)
    {
      assert Lower(users[j].username) == users[j].username;
    }
  }

  /** Without a matching user, registration is never refused with 409. */
  lemma UnmatchedNotRefused(users: seq<User>, form: RegisterForm, files: Option<Files>, avatarUpload: Option<Hosted>)
    requires FindByUsernameOrEmail(users, form.username, form.email).None?
    ensures RegisterCheck(users, form, files, avatarUpload) != Err(AlreadyExists)
  {
  }

  /** The document `User.create` stores once RegisterCheck has passed. */
  function NewUser(id: UserId, form: RegisterForm, avatar: Hosted, coverUpload: Option<Hosted>): (u: User)
    requires form.fullname.Some? && form.username.Some? && form.email.Some? && form.password.Some?
    ensures u.id == id && u.username == Lower(form.username.value) && u.email == form.email.value
    ensures u.fullname == form.fullname.value && PasswordCorrect(u.password, form.password.value)
    ensures u.avatar == avatar.url && u.coverImage == (if coverUpload.Some? then coverUpload.value.url else "")
    ensures u.refreshToken.None?
  {
    User(id, Lower(form.username.value), form.email.value, form.fullname.value, Hash(form.password.value),
         avatar.url, if coverUpload.Some? then coverUpload.value.url else "", None)
  }

  // ---------------------------------------------------------------------------
  // Tokens

  /** `jwt.verify(token, secret)` at time `now`: the id of the payload, or the
      library's error message. The signature is checked before the expiry. */
  function Verify(t: Token, key: Key, now: nat): (r: Result<UserId, string>)
    ensures r.Ok? <==> t.Signed? && t.key == key && now < t.expiresAt
    ensures r.Ok? ==> r.value == t.claims.id
  {
    match t
    case Unsigned(_) => Err("jwt malformed")
    case Signed(k, claims, _, exp) =>
      if k != key then Err("invalid signature")
      else if now >= exp then Err("jwt expired")
      else Ok(claims.id)
  }

  /** JavaScript truthiness of a presented token. */
  predicate TokenTruthy(t: Option<Token>)
  {
    t.Some? && t.value != Unsigned("")
  }

  /** `req.cookies.refreshToken || req.body.cookies`. */
  function Incoming(cookie: Option<Token>, body: Option<Token>): (t: Option<Token>)
    ensures t == cookie || t == body
    ensures TokenTruthy(t) <==> TokenTruthy(cookie) || TokenTruthy(body)
    ensures TokenTruthy(cookie) ==> t == cookie
  {
    if TokenTruthy(cookie) then cookie else body
  }

  const RefreshTokenExpired := ApiError(Unauthorized, "Refresh Token Expired.")

  /** The checks of `refreshAccessToken` before it rotates: a token is
      presented, it verifies against the refresh secret, its user exists, and
      it is that user's stored token. The result is the index of the user whose
      token is rotated; every failure is a 401 (the ones thrown inside the
      `try` are rewrapped with their own message). */
  function RefreshDecision(users: seq<User>, cookie: Option<Token>, body: Option<Token>, now: nat): (r: Result<nat, Failure>)
    ensures r.Err? ==> r.error.ApiError? && r.error.status == Unauthorized
    ensures r.Ok? ==> r.value < |users|
    ensures r.Ok? ==> users[r.value].refreshToken == Incoming(cookie, body)
    ensures r.Ok? ==> Incoming(cookie, body).Some?
    ensures r.Ok? ==> Verify(Incoming(cookie, body).value, RefreshSecret, now) == Ok(users[r.value].id)
    ensures !TokenTruthy(Incoming(cookie, body)) ==> r == Err(ApiError(Unauthorized, "Unauthorized request"))
  {
    var incoming := Incoming(cookie, body);
    if !TokenTruthy(incoming) then Err(ApiError(Unauthorized, "Unauthorized request"))
    else match Verify(incoming.value, RefreshSecret, now)
      case Err(msg) => Err(ApiError(Unauthorized, msg))
      case Ok(id) =>
        match FindById(users, id)
        case None => Err(ApiError(Unauthorized, "Invalid Refresh Token"))
        case Some(i) =>
          if users[i].refreshToken != incoming then Err(RefreshTokenExpired)
          else Ok(i)
  }

  /** A user's stored refresh token, presented before it expires, is accepted
      for that user: with the ensures of RefreshDecision, a token is accepted
      exactly when it is the stored token of the user it names and is live. */
  lemma StoredTokenAccepted(users: seq<User>, nextId: nat, ttl: nat, i: nat, body: Option<Token>, now: nat)
    requires WellFormed(users, nextId, ttl)
    requires i < |users| && users[i].refreshToken.Some?
    requires now < users[i].refreshToken.value.expiresAt
    ensures RefreshDecision(users, users[i].refreshToken, body, now) == Ok(i)
  {
    FindByIdFinds(users, i);
  }

  /** Once a user's stored token is replaced by any other value (a rotation,
      a logout), presenting the old token fails with "Refresh Token Expired.". */
  lemma ReplacedTokenRejected(users: seq<User>, cookie: Option<Token>, body: Option<Token>, now: nat, replacement: Option<Token>)
    requires RefreshDecision(users, cookie, body, now).Ok?
    requires replacement != Incoming(cookie, body)
    ensures var i := RefreshDecision(users, cookie, body, now).value;
      RefreshDecision(users[i := users[i].(refreshToken := replacement)], cookie, body, now) == Err(RefreshTokenExpired)
  {
    var i := RefreshDecision(users, cookie, body, now).value;
    var after := users[i := users[i].(refreshToken := replacement)];
    var id := users[i].id;
    FindByIdSameIds(users, after, id);
    assert FindById(users, id) == Some(i) by {
      assert Verify(Incoming(cookie, body).value, RefreshSecret, now) == Ok(id);
    }
  }
}
