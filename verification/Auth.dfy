/** go/apiserver/auth.go: password login, refresh, logout, password change. */
module Auth {
  import opened Basics
  import opened Model
  import opened Tokens
  import opened Registries
  import opened Stores
  import opened Revocation
  import opened Issue

  /** The refresh cookie a request carries; a marker value can never be a genuine token. */
  datatype Cookie = NoCookie | ImpersonationMarker | Value(raw: nat)

  const ANY_TENANT := Tenant(0)

  // ---- the gate ----

  /** JWTMiddleware. */
  method RequireAuth(db: Database, bearer: Option<nat>) returns (v: Verdict<nat>)
    ensures v == AdmitTenant(db.View(), bearer)
  {
    if bearer.None? {
      return Err(NoToken);
    }
    if bearer.value !in db.minted {
      return Err(InvalidToken);
    }
    var c := db.minted[bearer.value].claims;
    v := TenantClaims(c, db.now);
    if v.Err? {
      return;
    }
    if bearer.value in db.revoked && db.now <= db.revoked[bearer.value] {
      return Err(TokenRevoked);
    }
    var u := v.value;
    if Tenant(u) in db.cutoffs && db.now <= db.cutoffs[Tenant(u)].until && c.iat < db.cutoffs[Tenant(u)].since {
      return Err(SessionRevoked);
    }
    if u !in db.users {
      return Err(UserNotFound);
    }
    if !db.users[u].active {
      return Err(AccountDisabled);
    }
  }

  // ---- login ----

  /** The second-factor gate after a first factor: a challenge if one is enrolled, else a session. */
  function AfterFirstFactor(s: System, u: nat, means: Means, infra: Infra): Outcome
    requires u in s.users
  {
    if MfaEnabled(s, Tenant(u)) then ChallengeFor(s, Tenant(u), s.users[u].tenant, infra)
    else SessionFor(s, Tenant(u), NewOpening(s, Tenant(u), means), infra)
  }

  method CompleteFirstFactor(db: Database, u: nat, means: Means, infra: Infra) returns (resp: Response)
    requires u in db.users
    modifies db
    ensures (db.View(), resp) == AfterFirstFactor(old(db.View()), u, means, infra)
  {
    if Tenant(u) in db.mfa && db.mfa[Tenant(u)].enabled {
      resp := IssueChallenge(db, Tenant(u), db.users[u].tenant, infra);
    } else {
      resp := IssueSession(db, Tenant(u), Opening(db.next, db.now, false, means), infra);
    }
  }

  function LoginOutcome(s: System, user: Option<nat>, passwordOk: bool, locked: bool, infra: Infra): Outcome {
    if locked then (s, Refused(AccountLocked))
    else if user.None? || user.value !in s.users then (s, Refused(InvalidCredentials))
    else if !passwordOk then (s, Refused(InvalidCredentials))
    else if !s.users[user.value].active then (s, Refused(UserDisabled))
    else AfterFirstFactor(s, user.value, Password, infra)
  }

  method Login(db: Database, user: Option<nat>, passwordOk: bool, locked: bool, infra: Infra) returns (resp: Response)
    modifies db
    ensures (db.View(), resp) == LoginOutcome(old(db.View()), user, passwordOk, locked, infra)
  {
    if locked {
      return Refused(AccountLocked);
    }
    if user.None? || user.value !in db.users {
      return Refused(InvalidCredentials);
    }
    if !passwordOk {
      return Refused(InvalidCredentials);
    }
    if !db.users[user.value].active {
      return Refused(UserDisabled);
    }
    resp := CompleteFirstFactor(db, user.value, Password, infra);
  }

  // ---- refresh ----

  /** A refresh row created no later than the account's cutoff second. */
  predicate PredatesCutoff(s: System, row: Row) {
    var since := BlacklistedSince(s, row.owner);
    since.Some? && Unix(row.createdAt) <= since.value
  }

  predicate UserActive(s: System, p: Principal) {
    match p
    case Tenant(u) => u in s.users && s.users[u].active
    case Backoffice(a) => a in s.operators && s.operators[a].active
  }

  ghost function RefreshOutcome(s: System, cookie: Cookie, bearer: Option<nat>, infra: Infra): Outcome {
    if BearerIsImpersonation(s, bearer) || cookie.ImpersonationMarker? then (s, Refused(ImpersonationCannotRefresh))
    else if cookie.NoCookie? then (s, Refused(RefreshTokenRequired))
    else
      var found := FindByHash(s.rows, ANY_TENANT, Hash(cookie.raw));
      if found.None? then (s, Refused(InvalidRefreshToken))
      else
        var row := s.rows[found.value];
        if row.revoked then (RevokeByOwner(s, row.owner), Refused(RefreshExpiredOrRevoked))
        else if s.now >= row.expiresAt then (s, Refused(RefreshExpiredOrRevoked))
        else if !UserActive(s, row.owner) then (s, Refused(UserMissingOrInactive))
        else if PredatesCutoff(s, row) then (s, Refused(UserMissingOrInactive))
        else RotationOf(s, found.value, infra)
  }

  method Refresh(db: Database, cookie: Cookie, bearer: Option<nat>, infra: Infra) returns (resp: Response)
    requires db.Valid()
    modifies db
    ensures (db.View(), resp) == RefreshOutcome(old(db.View()), cookie, bearer, infra)
  {
    if bearer.Some? && bearer.value in db.minted && db.minted[bearer.value].claims.imp {
      return Refused(ImpersonationCannotRefresh);
    }
    if cookie.ImpersonationMarker? {
      return Refused(ImpersonationCannotRefresh);
    }
    if cookie.NoCookie? {
      return Refused(RefreshTokenRequired);
    }
    var found := db.GetByTokenHash(ANY_TENANT, Hash(cookie.raw));
    if found.None? {
      return Refused(InvalidRefreshToken);
    }
    var row := db.rows[found.value];
    if row.revoked {
      // A revoked row means a replayed cookie: end every session of the account.
      db.RevokeByUserID(row.owner);
      return Refused(RefreshExpiredOrRevoked);
    }
    if db.now >= row.expiresAt {
      return Refused(RefreshExpiredOrRevoked);
    }
    if row.owner.id !in db.users || !db.users[row.owner.id].active {
      return Refused(UserMissingOrInactive);
    }
    if row.owner in db.cutoffs && db.now <= db.cutoffs[row.owner].until
       && Unix(row.createdAt) <= db.cutoffs[row.owner].since {
      return Refused(UserMissingOrInactive);
    }
    resp := RotateSession(db, found.value, infra);
  }

  // ---- the cookie as a browser credential ----

  /** userFromBrowserSession: whom a browser navigation is, by bearer first and cookie second. */
  ghost function BrowserUser(s: System, cookie: Cookie, bearer: Option<nat>): Option<nat> {
    if BearerIsImpersonation(s, bearer) || cookie.ImpersonationMarker? then None
    else if AdmitTenant(s, bearer).Ok? then Some(AdmitTenant(s, bearer).value)
    else if cookie.NoCookie? then None
    else
      var found := FindByHash(s.rows, ANY_TENANT, Hash(cookie.raw));
      if found.None? then None
      else
        var row := s.rows[found.value];
        if row.revoked || s.now >= row.expiresAt then None
        else if !UserActive(s, row.owner) then None
        else if PredatesCutoff(s, row) then None
        else Some(row.owner.id)
  }

  method UserFromBrowserSession(db: Database, cookie: Cookie, bearer: Option<nat>) returns (user: Option<nat>)
    requires db.Valid()
    ensures user == BrowserUser(db.View(), cookie, bearer)
  {
    if bearer.Some? && bearer.value in db.minted && db.minted[bearer.value].claims.imp {
      return None;
    }
    if cookie.ImpersonationMarker? {
      return None;
    }
    var v := RequireAuth(db, bearer);
    if v.Ok? {
      return Some(v.value);
    }
    if cookie.NoCookie? {
      return None;
    }
    var found := db.GetByTokenHash(ANY_TENANT, Hash(cookie.raw));
    if found.None? {
      return None;
    }
    var row := db.rows[found.value];
    if row.revoked || db.now >= row.expiresAt {
      return None;
    }
    if row.owner.id !in db.users || !db.users[row.owner.id].active {
      return None;
    }
    if row.owner in db.cutoffs && db.now <= db.cutoffs[row.owner].until
       && Unix(row.createdAt) <= db.cutoffs[row.owner].since {
      return None;
    }
    return Some(row.owner.id);
  }

  // ---- logout ----

  method BlacklistAccessToken(db: Database, bearer: Option<nat>)
    modifies db
    ensures db.View() == BlacklistBearer(old(db.View()), bearer)
  {
    if bearer.None? || bearer.value !in db.minted {
      return;
    }
    var expiresAt := db.minted[bearer.value].claims.exp * SECOND;
    var maxExpiry := db.now + 2 * ACCESS_TTL;
    if expiresAt > maxExpiry {
      expiresAt := maxExpiry;
    }
    db.Blacklist(bearer.value, expiresAt);
  }

  ghost function WithoutCookie(s: System, plane: Principal, raw: nat): System {
    var found := FindByHash(s.rows, plane, Hash(raw));
    if found.None? then s else RevokeById(s, s.rows[found.value].owner, found.value)
  }

  method RevokeRefreshToken(db: Database, plane: Principal, raw: nat)
    requires RowsFresh(db.rows, db.next)
    modifies db
    ensures db.View() == WithoutCookie(old(db.View()), plane, raw)
  {
    var found := db.GetByTokenHash(plane, Hash(raw));
    if found.Some? {
      db.RevokeByID(db.rows[found.value].owner, found.value);
    }
  }

  ghost function LogoutOutcome(s: System, cookie: Cookie, bearer: Option<nat>): Outcome {
    var signedOut := BlacklistBearer(s, bearer);
    (if cookie.Value? then WithoutCookie(signedOut, ANY_TENANT, cookie.raw) else signedOut, Accepted)
  }

  method Logout(db: Database, cookie: Cookie, bearer: Option<nat>) returns (resp: Response)
    requires db.Valid()
    modifies db
    ensures (db.View(), resp) == LogoutOutcome(old(db.View()), cookie, bearer)
  {
    BlacklistAccessToken(db, bearer);
    if cookie.Value? {
      RevokeRefreshToken(db, ANY_TENANT, cookie.raw);
    }
    return Accepted;
  }

  // ---- ending every session of an account ----

  /** What a password change and a disabled second factor do: rows, bearer, cutoff. */
  function AllSessionsEnded(s: System, u: nat, bearer: Option<nat>): System {
    BlacklistUserTokens(BlacklistBearer(RevokeByOwner(s, Tenant(u)), bearer), Tenant(u))
  }

  method EndAllSessions(db: Database, u: nat, bearer: Option<nat>)
    modifies db
    ensures db.View() == AllSessionsEnded(old(db.View()), u, bearer)
  {
    db.RevokeByUserID(Tenant(u));
    BlacklistAccessToken(db, bearer);
    db.BlacklistUser(Tenant(u));
  }

  /** `accepted` sums up the password checks: current password, if one is set, and complexity of the new one. */
  function ChangePasswordOutcome(s: System, bearer: Option<nat>, accepted: bool): Outcome {
    var v := AdmitTenant(s, bearer);
    if v.Err? then (s, Refused(AuthFailed(v.error)))
    else if !accepted then (s, Refused(BadRequest))
    else (AllSessionsEnded(s, v.value, bearer), Accepted)
  }

  method ChangePassword(db: Database, bearer: Option<nat>, accepted: bool) returns (resp: Response)
    modifies db
    ensures (db.View(), resp) == ChangePasswordOutcome(old(db.View()), bearer, accepted)
  {
    var v := RequireAuth(db, bearer);
    if v.Err? {
      return Refused(AuthFailed(v.error));
    }
    if !accepted {
      return Refused(BadRequest);
    }
    EndAllSessions(db, v.value, bearer);
    return Accepted;
  }
}
