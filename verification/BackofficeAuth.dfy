/** go/apiserver/backoffice_auth.go and backoffice_auth_mfa.go: the operators' own plane. */
module BackofficeAuth {
  import opened Basics
  import opened Model
  import opened Tokens
  import opened Registries
  import opened Stores
  import opened Revocation
  import opened Issue
  import opened Auth
  import opened AuthMfa

  const ANY_OPERATOR := Backoffice(0)

  /** RequireBackofficeAuth. */
  method RequireBackofficeAuth(db: Database, bearer: Option<nat>) returns (v: Verdict<nat>)
    ensures v == AdmitBackoffice(db.View(), bearer)
  {
    if bearer.None? {
      return Err(NoToken);
    }
    if bearer.value !in db.minted {
      return Err(InvalidToken);
    }
    var c := db.minted[bearer.value].claims;
    v := BackofficeClaims(c, db.now);
    if v.Err? {
      return;
    }
    if bearer.value in db.revoked && db.now <= db.revoked[bearer.value] {
      return Err(TokenRevoked);
    }
    var key := Backoffice(v.value);
    if key in db.cutoffs && db.now <= db.cutoffs[key].until && c.iat < db.cutoffs[key].since {
      return Err(SessionRevoked);
    }
    if v.value !in db.operators {
      return Err(UserNotFound);
    }
    if !db.operators[v.value].active {
      return Err(AccountDisabled);
    }
  }

  /** An operator with enforced MFA gets a challenge, or 501 without an enabled enrollment; never a session. */
  function BackofficeLoginOutcome(s: System, operator: Option<nat>, passwordOk: bool, locked: bool, infra: Infra): Outcome {
    if locked then (s, Refused(AccountLocked))
    else if operator.None? || operator.value !in s.operators then (s, Refused(InvalidCredentials))
    else
      var a := operator.value;
      if !s.operators[a].active then (s, Refused(InvalidCredentials))
      else if !passwordOk then (s, Refused(InvalidCredentials))
      else if s.operators[a].mfaEnforced then
        if !MfaEnabled(s, Backoffice(a)) then (s, Refused(MfaNotImplemented))
        else ChallengeFor(s, Backoffice(a), 0, infra)
      else SessionFor(s, Backoffice(a), NewOpening(s, Backoffice(a), Password), infra)
  }

  method BackofficeLogin(db: Database, operator: Option<nat>, passwordOk: bool, locked: bool, infra: Infra) returns (resp: Response)
    modifies db
    ensures (db.View(), resp) == BackofficeLoginOutcome(old(db.View()), operator, passwordOk, locked, infra)
  {
    if locked {
      return Refused(AccountLocked);
    }
    if operator.None? || operator.value !in db.operators {
      return Refused(InvalidCredentials);
    }
    var a := operator.value;
    if !db.operators[a].active {
      return Refused(InvalidCredentials);
    }
    if !passwordOk {
      return Refused(InvalidCredentials);
    }
    if db.operators[a].mfaEnforced {
      if Backoffice(a) !in db.mfa || !db.mfa[Backoffice(a)].enabled {
        return Refused(MfaNotImplemented);
      }
      resp := IssueChallenge(db, Backoffice(a), 0, infra);
      return;
    }
    resp := IssueSession(db, Backoffice(a), Opening(db.next, db.now, false, Password), infra);
  }

  function BackofficeLoginMfaOutcome(s: System, challenge: nat, totp: Option<TotpCode>, backup: Option<nat>, locked: bool, infra: Infra): Outcome {
    if totp.None? && backup.None? then (s, Refused(BadRequest))
    else
      var v := ParseBackofficeMfaToken(s, challenge);
      if v.Err? then (s, Refused(InvalidMfaToken))
      else
        var a := v.value;
        if a !in s.operators || !s.operators[a].active then (s, Refused(InvalidMfaToken))
        else if locked then (s, Refused(AccountLocked))
        else StepTwo(s, Backoffice(a), challenge, totp, backup, infra)
  }

  method BackofficeLoginMfa(db: Database, challenge: nat, totp: Option<TotpCode>, backup: Option<nat>, locked: bool, infra: Infra)
    returns (resp: Response)
    modifies db
    ensures (db.View(), resp) == BackofficeLoginMfaOutcome(old(db.View()), challenge, totp, backup, locked, infra)
  {
    if totp.None? && backup.None? {
      return Refused(BadRequest);
    }
    if challenge !in db.minted {
      return Refused(InvalidMfaToken);
    }
    var v := BackofficeMfaClaims(db.minted[challenge].claims, db.now);
    if v.Err? {
      return Refused(InvalidMfaToken);
    }
    var a := v.value;
    if a !in db.operators || !db.operators[a].active {
      return Refused(InvalidMfaToken);
    }
    if locked {
      return Refused(AccountLocked);
    }
    resp := CompleteStepTwo(db, Backoffice(a), db.operators[a].mfaEnforced, challenge, totp, backup, infra);
  }

  /** Unlike the tenant plane, a revoked cookie is only refused. */
  ghost function BackofficeRefreshOutcome(s: System, cookie: Option<nat>, originOk: bool, infra: Infra): Outcome {
    if !originOk then (s, Refused(InvalidOrigin))
    else if cookie.None? then (s, Refused(RefreshTokenRequired))
    else
      var found := FindByHash(s.rows, ANY_OPERATOR, Hash(cookie.value));
      if found.None? then (s, Refused(InvalidRefreshToken))
      else
        var row := s.rows[found.value];
        if row.revoked || s.now >= row.expiresAt then (s, Refused(RefreshExpiredOrRevoked))
        else if !UserActive(s, row.owner) then (s, Refused(UserMissingOrInactive))
        else if PredatesCutoff(s, row) then (s, Refused(UserMissingOrInactive))
        else RotationOf(s, found.value, infra)
  }

  method BackofficeRefresh(db: Database, cookie: Option<nat>, originOk: bool, infra: Infra) returns (resp: Response)
    requires db.Valid()
    modifies db
    ensures (db.View(), resp) == BackofficeRefreshOutcome(old(db.View()), cookie, originOk, infra)
  {
    if !originOk {
      return Refused(InvalidOrigin);
    }
    if cookie.None? {
      return Refused(RefreshTokenRequired);
    }
    var found := db.GetByTokenHash(ANY_OPERATOR, Hash(cookie.value));
    if found.None? {
      return Refused(InvalidRefreshToken);
    }
    var row := db.rows[found.value];
    if row.revoked || db.now >= row.expiresAt {
      return Refused(RefreshExpiredOrRevoked);
    }
    if row.owner.id !in db.operators || !db.operators[row.owner.id].active {
      return Refused(UserMissingOrInactive);
    }
    if row.owner in db.cutoffs && db.now <= db.cutoffs[row.owner].until
       && Unix(row.createdAt) <= db.cutoffs[row.owner].since {
      return Refused(UserMissingOrInactive);
    }
    resp := RotateSession(db, found.value, infra);
  }

  /** Revokes the bearer only if it is a back-office token: a tenant token must not be revocable from here. */
  ghost function BackofficeLogoutOutcome(s: System, cookie: Option<nat>, bearer: Option<nat>): Outcome {
    var signedOut := if IsBackofficeBearer(s, bearer) then BlacklistBearer(s, bearer) else s;
    (if cookie.Some? then WithoutCookie(signedOut, ANY_OPERATOR, cookie.value) else signedOut, Accepted)
  }

  method BackofficeLogout(db: Database, cookie: Option<nat>, bearer: Option<nat>) returns (resp: Response)
    requires db.Valid()
    modifies db
    ensures (db.View(), resp) == BackofficeLogoutOutcome(old(db.View()), cookie, bearer)
  {
    if bearer.Some? && bearer.value in db.minted
       && db.minted[bearer.value].claims.audience == BackofficeAudience
       && db.minted[bearer.value].claims.adminId.Some? {
      BlacklistAccessToken(db, bearer);
    }
    if cookie.Some? {
      RevokeRefreshToken(db, ANY_OPERATOR, cookie.value);
    }
    return Accepted;
  }
}
