/** Sequences of handler calls on one store, proved from the handlers'
    contracts alone: what a client observes when it chains them. */
module Scenarios {
  import opened Common
  import opened Users
  import opened Sessions

  /** A refresh token accepted at second `now` and presented again at second
      `later`, before it expires. The first call rotates the stored token.
      A token issued in an earlier second is then stale, and the replay
      fails with "Refresh Token Expired.". A token issued in the same second
      as its rotation is byte-identical to its successor, so the replay is
      accepted again. */
  method RefreshReplay(s: UserStore, presented: Token, now: nat, later: nat)
    returns (first: Result<TokenPair, Failure>, second: Result<TokenPair, Failure>)
    requires s.Valid()
    modifies s
    ensures s.Valid()
    ensures first.Err? && first.error.ApiError? && first.error.status == Unauthorized
    ensures second.Err? && second.error.ApiError? && second.error.status == Unauthorized
    ensures RefreshDecision(old(s.users), Some(presented), None, now).Ok? && later < presented.expiresAt ==>
      && (presented.issuedAt != now ==> second == Err(RefreshTokenExpired))
      && (presented.issuedAt == now ==> second == Err(ApiError(Unauthorized, CookiesNotAFunction)))
  {
    ghost var before := s.users;
    first := s.RefreshAccessToken(Some(presented), None, now);
    if RefreshDecision(before, Some(presented), None, now).Ok? && later < presented.expiresAt {
      var i := RefreshDecision(before, Some(presented), None, now).value;
      var minted := s.RefreshTokenFor(before[i].id, now);
      assert before[i].refreshToken == Some(presented);
      if presented.issuedAt != now {
        StoredTokenAccepted(before, s.nextId, s.refreshTtl, i, None, later);
        ReplacedTokenRejected(before, Some(presented), None, later, Some(minted));
      } else {
        assert presented == minted;
        assert s.users[i].refreshToken == Some(presented);
        StoredTokenAccepted(s.users, s.nextId, s.refreshTtl, i, None, later);
      }
    }
    second := s.RefreshAccessToken(Some(presented), None, later);
  }

  /** After a logout, the caller's last refresh token no longer refreshes:
      a live one fails with "Refresh Token Expired.", and nothing is rotated. */
  method LogoutThenRefresh(s: UserStore, caller: UserId, now: nat) returns (r: Result<TokenPair, Failure>)
    requires s.Valid()
    requires FindById(s.users, caller).Some? && s.users[FindById(s.users, caller).value].refreshToken.Some?
    modifies s
    ensures s.Valid()
    ensures r.Err? && r.error.ApiError? && r.error.status == Unauthorized
    ensures var i := FindById(old(s.users), caller).value;
      && s.users == old(s.users)[i := old(s.users)[i].(refreshToken := None)]
      && (now < old(s.users)[i].refreshToken.value.expiresAt ==> r == Err(RefreshTokenExpired))
  {
    var i := FindById(s.users, caller).value;
    var token := s.users[i].refreshToken.value;
    ghost var before := s.users;
    if now < token.expiresAt {
      StoredTokenAccepted(before, s.nextId, s.refreshTtl, i, None, now);
      ReplacedTokenRejected(before, Some(token), None, now, None);
    }
    s.Logout(caller);
    r := s.RefreshAccessToken(Some(token), None, now);
  }

  /** The refresh token a login answers with is the stored one: presented
      in the same second it is accepted (although the handler still answers
      401), and its rotation stores the very same token again. */
  method LoginThenRefresh(s: UserStore, username: string, password: string, now: nat)
    returns (login: Result<Session, Failure>, refresh: Result<TokenPair, Failure>)
    requires s.Valid() && s.refreshTtl > 0
    modifies s
    ensures s.Valid()
    ensures login.Ok? ==>
      && refresh == Err(ApiError(Unauthorized, CookiesNotAFunction))
      && exists i :: 0 <= i < |s.users| && s.users[i].id == login.value.user.id && s.users[i].refreshToken == Some(login.value.refreshToken)
  {
    login := s.Login(Some(username), None, Some(password), now);
    if login.Ok? {
      var j := FindByUsernameOrEmail(old(s.users), Some(username), None).value;
      assert login.value.refreshToken == s.RefreshTokenFor(old(s.users)[j].id, now);
      var i :| 0 <= i < |s.users| && s.users[i] == login.value.user && s.users[i].refreshToken == Some(login.value.refreshToken);
      StoredTokenAccepted(s.users, s.nextId, s.refreshTtl, i, None, now);
      FindByIdFinds(s.users, i);
      ghost var mid := s.users;
      refresh := s.RefreshAccessToken(Some(login.value.refreshToken), None, now);
      assert s.users == mid[i := mid[i].(refreshToken := Some(s.RefreshTokenFor(mid[i].id, now)))];
      assert s.users[i].id == login.value.user.id;
    } else {
      refresh := s.RefreshAccessToken(None, None, now);
    }
  }

  /** Once a form has registered, the same form is refused with 409. */
  lemma SameFormRefused(users: seq<User>, form: RegisterForm, files: Option<Files>, avatarUpload: Option<Hosted>,
                         id: UserId, cover: Option<Hosted>)
    requires RegisterCheck(users, form, files, avatarUpload).Ok?
    ensures RegisterCheck(users + [NewUser(id, form, avatarUpload.value, cover)], form, files, avatarUpload) == Err(AlreadyExists)
  {
    var after := users + [NewUser(id, form, avatarUpload.value, cover)];
    assert MatchesUsernameOrEmail(after[|users|], form.username, form.email);
  }

  /** In a well-formed store, a form whose username is a case variant of a
      stored one and whose email is new passes every check. */
  lemma VariantAccepted(users: seq<User>, nextId: nat, ttl: nat, form: RegisterForm, other: RegisterForm,
                        files: Option<Files>, avatarUpload: Option<Hosted>)
    requires WellFormed(users, nextId, ttl)
    requires !AnyBlank(form) && form.fullname.Some? && form.username.Some? && form.password.Some?
    requires PlanUploads(files).Ok? && avatarUpload.Some? && avatarUpload.value.url != ""
    requires other.fullname == form.fullname && other.password == form.password
    requires other.username.Some? && Lower(other.username.value) == form.username.value
    requires other.username.value != form.username.value
    requires other.email.Some? && !IsBlank(other.email.value)
    requires forall j :: 0 <= j < |users| ==> users[j].email != other.email.value
    ensures RegisterCheck(users, other, files, avatarUpload) == Ok(())
  {
    assert !AnyBlank(other) by {
      LowerKeepsBlank(other.username.value);
    }
    CaseVariantUnmatched(users, nextId, ttl, other.username.value, other.email);
    PassesChecks(users, other, files, avatarUpload);
  }

  lemma PassesChecks(users: seq<User>, form: RegisterForm, files: Option<Files>, avatarUpload: Option<Hosted>)
    requires !AnyBlank(form) && FindByUsernameOrEmail(users, form.username, form.email).None?
    requires PlanUploads(files).Ok? && avatarUpload.Some? && avatarUpload.value.url != ""
    requires form.fullname.Some? && form.username.Some? && form.email.Some? && form.password.Some?
    ensures RegisterCheck(users, form, files, avatarUpload) == Ok(())
  {
  }

  /** An email no stored user has stays free when a user with another email is added. */
  lemma EmailStaysFree(users: seq<User>, u: User, email: string)
    requires forall j :: 0 <= j < |users| ==> users[j].email != email
    requires u.email != email
    ensures forall j :: 0 <= j < |users + [u]| ==> (users + [u])[j].email != email
  {
    forall j | 0 <= j < |users + [u]|
      ensures (users + [u])[j].email != email
    {
      if j < |users| {
        assert (users + [u])[j] == users[j];
      }
    }
  }

  /** Registration compares the raw username with stored, lower-cased ones.
      A form with a lower-case username registers, the same form is then
      refused with 409, but a case variant of its username with a new email
      registers and is stored under the same lower-case username. */
  method CaseVariantRegistration(s: UserStore, form: RegisterForm, variantName: string, variantEmail: string,
                                 files: Option<Files>, avatarUpload: Option<Hosted>)
    returns (first: Result<PublicUser, Failure>, same: Result<PublicUser, Failure>, variant: Result<PublicUser, Failure>)
    requires s.Valid()
    requires RegisterCheck(s.users, form, files, avatarUpload).Ok?
    requires Lower(form.username.value) == form.username.value
    requires Lower(variantName) == form.username.value && variantName != form.username.value
    requires !IsBlank(variantEmail) && Some(variantEmail) != form.email
    requires forall j :: 0 <= j < |s.users| ==> s.users[j].email != variantEmail
    modifies s
    ensures s.Valid()
    ensures first.Ok? && same == Err(AlreadyExists) && variant.Ok?
    ensures |s.users| == |old(s.users)| + 2
    ensures s.users[|old(s.users)|].username == s.users[|old(s.users)| + 1].username == form.username.value
  {
    ghost var before := s.users;
    var other := form.(username := Some(variantName), email := Some(variantEmail));
    var created := NewUser(s.nextId, form, avatarUpload.value, None);
    SameFormRefused(before, form, files, avatarUpload, s.nextId, None);
    first := s.Register(form, files, avatarUpload, None);
    assert s.users == before + [created];
    EmailStaysFree(before, created, variantEmail);
    VariantAccepted(s.users, s.nextId, s.refreshTtl, form, other, files, avatarUpload);
    same := s.Register(form, files, avatarUpload, None);
    assert s.users == before + [created];
    variant := s.Register(other, files, avatarUpload, None);
  }
}
