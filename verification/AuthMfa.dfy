/** go/apiserver/auth_mfa.go: enrollment, step 2 of a login, disabling, fresh backup codes. */
module AuthMfa {
  import opened Basics
  import opened Model
  import opened Tokens
  import opened Registries
  import opened Stores
  import opened Revocation
  import opened Issue
  import opened Auth

  function SetupOutcome(s: System, bearer: Option<nat>): Outcome {
    var v := AdmitTenant(s, bearer);
    if v.Err? then (s, Refused(AuthFailed(v.error)))
    else if MfaEnabled(s, Tenant(v.value)) then (s, Refused(MfaAlreadyEnabled))
    else (CreateMfa(DeleteMfa(s, Tenant(v.value)), Tenant(v.value)), Accepted)
  }

  method Setup(db: Database, bearer: Option<nat>) returns (resp: Response)
    modifies db
    ensures (db.View(), resp) == SetupOutcome(old(db.View()), bearer)
  {
    var v := RequireAuth(db, bearer);
    if v.Err? {
      return Refused(AuthFailed(v.error));
    }
    var p := Tenant(v.value);
    if p in db.mfa && db.mfa[p].enabled {
      return Refused(MfaAlreadyEnabled);
    }
    db.DeleteByUser(p);
    db.CreateSecret(p);
    return Accepted;
  }

  function VerifyOutcome(s: System, bearer: Option<nat>, code: TotpCode): Outcome {
    var v := AdmitTenant(s, bearer);
    if v.Err? then (s, Refused(AuthFailed(v.error)))
    else
      var p := Tenant(v.value);
      if p !in s.mfa || s.mfa[p].enabled then (s, Refused(BadRequest))
      else if MatchedStep(s.mfa[p].secret, code, s.now).None? then (s, Refused(InvalidCode))
      else (EnableMfa(s, p), Accepted)
  }

  method Verify(db: Database, bearer: Option<nat>, code: TotpCode) returns (resp: Response)
    modifies db
    ensures (db.View(), resp) == VerifyOutcome(old(db.View()), bearer, code)
  {
    var v := RequireAuth(db, bearer);
    if v.Err? {
      return Refused(AuthFailed(v.error));
    }
    var p := Tenant(v.value);
    if p !in db.mfa {
      return Refused(BadRequest);
    }
    if db.mfa[p].enabled {
      return Refused(BadRequest);
    }
    var matched := MatchTotpStep(db.mfa[p].secret, code, db.now);
    if matched.None? {
      return Refused(InvalidCode);
    }
    db.EnableSecret(p);
    return Accepted;
  }

  function DisableOutcome(s: System, bearer: Option<nat>, passwordOk: bool, totp: Option<TotpCode>, backup: Option<nat>): Outcome {
    var v := AdmitTenant(s, bearer);
    if v.Err? then (s, Refused(AuthFailed(v.error)))
    else if !passwordOk then (s, Refused(InvalidCredentials))
    else
      var p := Tenant(v.value);
      if !MfaEnabled(s, p) then (s, Accepted)
      else
        var f := FactorOf(s, p, totp, backup);
        if f.None? then (s, Refused(InvalidCode))
        else (AllSessionsEnded(DeleteMfa(WithoutFactor(s, p, f), p), v.value, bearer), Accepted)
  }

  method Disable(db: Database, bearer: Option<nat>, passwordOk: bool, totp: Option<TotpCode>, backup: Option<nat>)
    returns (resp: Response)
    modifies db
    ensures (db.View(), resp) == DisableOutcome(old(db.View()), bearer, passwordOk, totp, backup)
  {
    var v := RequireAuth(db, bearer);
    if v.Err? {
      return Refused(AuthFailed(v.error));
    }
    if !passwordOk {
      return Refused(InvalidCredentials);
    }
    var p := Tenant(v.value);
    if p !in db.mfa || !db.mfa[p].enabled {
      return Accepted;
    }
    var used := ConsumeAnyCode(db, p, totp, backup);
    if used.None? {
      return Refused(InvalidCode);
    }
    db.DeleteByUser(p);
    EndAllSessions(db, v.value, bearer);
    return Accepted;
  }

  function RegenerateOutcome(s: System, bearer: Option<nat>, code: TotpCode): Outcome {
    var v := AdmitTenant(s, bearer);
    if v.Err? then (s, Refused(AuthFailed(v.error)))
    else
      var p := Tenant(v.value);
      if !MfaEnabled(s, p) then (s, Refused(BadRequest))
      else if !TotpWins(s, p, Some(code)) then (s, Refused(InvalidCode))
      else (UpdateCodes(MarkStep(s, p, code.step), p), Accepted)
  }

  method Regenerate(db: Database, bearer: Option<nat>, code: TotpCode) returns (resp: Response)
    modifies db
    ensures (db.View(), resp) == RegenerateOutcome(old(db.View()), bearer, code)
  {
    var v := RequireAuth(db, bearer);
    if v.Err? {
      return Refused(AuthFailed(v.error));
    }
    var p := Tenant(v.value);
    if p !in db.mfa || !db.mfa[p].enabled {
      return Refused(BadRequest);
    }
    var step := MatchTotpStep(db.mfa[p].secret, code, db.now);
    if step.None? {
      return Refused(InvalidCode);
    }
    var won := db.MarkTOTPStepUsedAtomic(p, step.value);
    if !won {
      return Refused(InvalidCode);
    }
    db.UpdateBackupCodes(p);
    return Accepted;
  }

  /** Use up one factor, revoke the challenge, open a session that names both. */
  function StepTwo(s: System, p: Principal, challenge: nat, totp: Option<TotpCode>, backup: Option<nat>, infra: Infra): Outcome
    requires challenge in s.minted
  {
    if !MfaEnabled(s, p) then (s, Refused(InvalidMfaToken))
    else
      var f := FactorOf(s, p, totp, backup);
      if f.None? then (s, Refused(InvalidCode))
      else
        var used := BlacklistToken(WithoutFactor(s, p, f), challenge, s.minted[challenge].claims.exp * SECOND);
        SessionFor(used, p, NewOpening(used, p, SecondStep(challenge, f.value)), infra)
  }

  lemma MarkLeavesRest(s: System, p: Principal, step: int)
    ensures var t := MarkStep(s, p, step);
      t == s.(mfa := t.mfa, spent := t.spent) && MfaEnabled(t, p) == MfaEnabled(s, p)
  {
  }

  lemma ConsumeLeavesRest(s: System, p: Principal, code: nat)
    ensures var t := ConsumeCode(s, p, code);
      t == s.(mfa := t.mfa, spent := t.spent) && MfaEnabled(t, p) == MfaEnabled(s, p)
  {
  }

  /** Using a factor up changes neither the enrollment nor the enforcement flag. */
  lemma FactorStillDue(s: System, p: Principal, f: Option<Factor>)
    ensures var t := WithoutFactor(s, p, f);
      t == s.(mfa := t.mfa, spent := t.spent) && MfaEnabled(t, p) == MfaEnabled(s, p)
  {
    match f
    case None =>
    case Some(TotpStep(_, step)) => MarkLeavesRest(s, p, step);
    case Some(BackupCode(_, code)) => ConsumeLeavesRest(s, p, code);
  }

  method CompleteStepTwo(db: Database, p: Principal, due: bool, challenge: nat, totp: Option<TotpCode>, backup: Option<nat>, infra: Infra)
    returns (resp: Response)
    requires challenge in db.minted
    requires MfaEnabled(db.View(), p) ==> due == FactorDue(db.View(), p)
    modifies db
    ensures (db.View(), resp) == StepTwo(old(db.View()), p, challenge, totp, backup, infra)
  {
    ghost var s := db.View();
    if p !in db.mfa || !db.mfa[p].enabled {
      return Refused(InvalidMfaToken);
    }
    var used := ConsumeAnyCode(db, p, totp, backup);
    if used.None? {
      return Refused(InvalidCode);
    }
    FactorStillDue(s, p, used);
    ghost var before := db.View();
    assert before.minted == s.minted && before.next == s.next;
    db.Blacklist(challenge, db.minted[challenge].claims.exp * SECOND);
    ghost var after := db.View();
    assert after == BlacklistToken(before, challenge, s.minted[challenge].claims.exp * SECOND);
    resp := IssueSession(db, p, Opening(db.next, db.now, due, SecondStep(challenge, used.value)), infra);
  }

  function LoginMfaOutcome(s: System, challenge: nat, totp: Option<TotpCode>, backup: Option<nat>, locked: bool, infra: Infra): Outcome {
    if totp.None? && backup.None? then (s, Refused(BadRequest))
    else
      var v := ParseMfaToken(s, challenge);
      if v.Err? then (s, Refused(InvalidMfaToken))
      else
        var (u, tenant) := v.value;
        if u !in s.users || !s.users[u].active || s.users[u].tenant != tenant then (s, Refused(InvalidMfaToken))
        else if locked then (s, Refused(AccountLocked))
        else StepTwo(s, Tenant(u), challenge, totp, backup, infra)
  }

  method LoginMfa(db: Database, challenge: nat, totp: Option<TotpCode>, backup: Option<nat>, locked: bool, infra: Infra)
    returns (resp: Response)
    modifies db
    ensures (db.View(), resp) == LoginMfaOutcome(old(db.View()), challenge, totp, backup, locked, infra)
  {
    if totp.None? && backup.None? {
      return Refused(BadRequest);
    }
    if challenge !in db.minted {
      return Refused(InvalidMfaToken);
    }
    var v := MfaClaims(db.minted[challenge].claims, db.now);
    if v.Err? {
      return Refused(InvalidMfaToken);
    }
    var (u, tenant) := v.value;
    if u !in db.users || !db.users[u].active || db.users[u].tenant != tenant {
      return Refused(InvalidMfaToken);
    }
    if locked {
      return Refused(AccountLocked);
    }
    resp := CompleteStepTwo(db, Tenant(u), true, challenge, totp, backup, infra);
  }
}
