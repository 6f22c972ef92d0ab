/** go/apiserver/admin_impersonation.go: borrowing a tenant identity and giving it back. */
module AdminImpersonation {
  import opened Basics
  import opened Model
  import opened Tokens
  import opened Registries
  import opened Stores
  import opened Issue
  import opened BackofficeAuth

  /** issueAndRespond: sign the token, then file the slot it will be ended by. */
  function Filed(s: System, g: Grant, slot: Slot): System {
    PutSlot(Mint(s, g), s.next, slot)
  }

  /** The gate, the role, the rate limit and the target guards, in order; None lets the start through. */
  function StartProblem(s: System, bearer: Option<nat>, u: nat, limited: bool): (problem: Option<Refusal>)
    ensures problem.None? ==> bearer.Some? && AdmitBackoffice(s, bearer).Ok? && u in s.users && s.users[u].active && !s.users[u].systemAdmin
  {
    var v := AdmitBackoffice(s, bearer);
    if v.Err? then Some(AuthFailed(v.error))
    else if s.operators[v.value].role != PlatformAdmin then Some(RoleRequired)
    else if limited then Some(RateLimited)
    else if u !in s.users then Some(NotFound)
    else if s.users[u].systemAdmin then Some(TargetIsAdmin)
    else if !s.users[u].active then Some(TargetBlocked)
    else None
  }

  /** What the admitted operator borrows: the target's identity, for a clamped time. */
  function Borrowed(s: System, bearer: Option<nat>, u: nat, ttl: int): Grant
    requires bearer.Some? && AdmitBackoffice(s, bearer).Ok? && u in s.users
  {
    Impersonation(u, s.users[u].tenant, AdmitBackoffice(s, bearer).value, bearer.value, ClampImpersonationTtl(ttl))
  }

  function StartOutcome(s: System, bearer: Option<nat>, cookie: Option<nat>, u: nat, ttl: int, limited: bool, infra: Infra): Outcome {
    var problem := StartProblem(s, bearer, u, limited);
    if problem.Some? then (s, Refused(problem.value))
    else if infra.TokenNotSigned? then (s, Refused(InternalError))
    else
      var g := Borrowed(s, bearer, u, ttl);
      if infra.RowNotStored? then (Mint(s, g), Refused(InternalError))
      else (Filed(s, g, Slot(g.operator, cookie, u, s.now + g.ttl)), Impersonating(s.next))
  }

  method StartImpersonation(db: Database, bearer: Option<nat>, cookie: Option<nat>, u: nat, ttl: int, limited: bool, infra: Infra)
    returns (resp: Response)
    modifies db
    ensures (db.View(), resp) == StartOutcome(old(db.View()), bearer, cookie, u, ttl, limited, infra)
  {
    var v := RequireBackofficeAuth(db, bearer);
    if v.Err? {
      return Refused(AuthFailed(v.error));
    }
    var operator := v.value;
    if db.operators[operator].role != PlatformAdmin {
      return Refused(RoleRequired);
    }
    if limited {
      return Refused(RateLimited);
    }
    if u !in db.users {
      return Refused(NotFound);
    }
    if db.users[u].systemAdmin {
      return Refused(TargetIsAdmin);
    }
    if !db.users[u].active {
      return Refused(TargetBlocked);
    }
    if infra.TokenNotSigned? {
      return Refused(InternalError);
    }
    var length := ClampImpersonationTtl(ttl);
    var expiresAt := db.now + length;
    var jti := db.Sign(Impersonation(u, db.users[u].tenant, operator, bearer.value, length));
    if infra.RowNotStored? {
      // The signed token is never handed out.
      return Refused(InternalError);
    }
    db.RecordSlot(jti, Slot(operator, cookie, u, expiresAt));
    return Impersonating(jti);
  }

  /** The row id the captured cookie names today, if it still names one. */
  ghost function CapturedRow(s: System, cookie: Option<nat>): Option<nat> {
    if cookie.None? then None else FindByHash(s.rows, ANY_OPERATOR, Hash(cookie.value))
  }

  ghost function EndOutcome(s: System, bearer: Option<nat>, infra: Infra): Outcome {
    var v := ParseImpersonationEnd(s, bearer);
    if v.Err? then (s, Refused(AuthFailed(v.error)))
    else
      var (jti, operator) := v.value;
      if !SlotLive(s, jti) then (s, Refused(NoActiveImpersonation))
      else
        var slot := s.slots[jti];
        if slot.operator != operator then (s, Refused(NoActiveImpersonation))
        else
          var ended := DeleteSlot(BlacklistToken(s, jti, slot.expiresAt), jti);
          if operator !in s.operators then (ended, Refused(InternalError))
          else if infra.TokenNotSigned? then (ended, Refused(InternalError))
          else
            (Mint(ended, Restored(operator, jti, CapturedRow(s, slot.cookie))), OperatorRestored(s.next, slot.cookie))
  }

  method EndImpersonation(db: Database, bearer: Option<nat>, infra: Infra) returns (resp: Response)
    requires db.Valid()
    modifies db
    ensures (db.View(), resp) == EndOutcome(old(db.View()), bearer, infra)
  {
    if bearer.None? || bearer.value !in db.minted {
      return Refused(AuthFailed(InvalidToken));
    }
    var claims := db.minted[bearer.value].claims;
    if !AreImpersonation(claims) {
      return Refused(AuthFailed(InvalidToken));
    }
    var jti, operator := bearer.value, claims.impersonatorId.value;
    if jti !in db.slots || db.now > db.slots[jti].expiresAt {
      return Refused(NoActiveImpersonation);
    }
    var slot := db.slots[jti];
    if slot.operator != operator {
      return Refused(NoActiveImpersonation);
    }
    db.Blacklist(jti, slot.expiresAt);
    db.DropSlot(jti);
    if slot.operator !in db.operators {
      return Refused(InternalError);
    }
    var rti: Option<nat> := None;
    if slot.cookie.Some? {
      rti := db.GetByTokenHash(ANY_OPERATOR, Hash(slot.cookie.value));
    }
    if infra.TokenNotSigned? {
      return Refused(InternalError);
    }
    var token := db.Sign(Restored(operator, jti, rti));
    return OperatorRestored(token, slot.cookie);
  }
}
