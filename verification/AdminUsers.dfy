/** go/apiserver/admin_users.go: blocking and unblocking a tenant account. */
module AdminUsers {
  import opened Basics
  import opened Model
  import opened Tokens
  import opened Registries
  import opened Stores
  import opened Issue
  import opened BackofficeAuth

  /** applyBlockCascade: every row revoked, every live token cut off. */
  function BlockCascade(s: System, u: nat): System {
    BlacklistUserTokens(RevokeByOwner(s, Tenant(u)), Tenant(u))
  }

  method ApplyBlockCascade(db: Database, u: nat)
    modifies db
    ensures db.View() == BlockCascade(old(db.View()), u)
  {
    db.RevokeByUserID(Tenant(u));
    db.BlacklistUser(Tenant(u));
  }

  function BlockOutcome(s: System, bearer: Option<nat>, u: nat, wellFormed: bool, force: bool): Outcome {
    var v := AdmitBackoffice(s, bearer);
    if v.Err? then (s, Refused(AuthFailed(v.error)))
    else if !wellFormed then (s, Refused(BadRequest))
    else if u !in s.users then (s, Refused(NotFound))
    else if u == v.value then (s, Refused(SelfBlock))
    else if !s.users[u].active then (BlockCascade(s, u), Accepted)
    else if s.users[u].systemAdmin && !force then (s, Refused(AdminNeedsForce))
    else (BlockCascade(PutUser(s, u, s.users[u].(active := false)), u), Accepted)
  }

  method BlockUser(db: Database, bearer: Option<nat>, u: nat, wellFormed: bool, force: bool) returns (resp: Response)
    modifies db
    ensures (db.View(), resp) == BlockOutcome(old(db.View()), bearer, u, wellFormed, force)
  {
    var v := RequireBackofficeAuth(db, bearer);
    if v.Err? {
      return Refused(AuthFailed(v.error));
    }
    if !wellFormed {
      return Refused(BadRequest);
    }
    if u !in db.users {
      return Refused(NotFound);
    }
    if u == v.value {
      return Refused(SelfBlock);
    }
    if !db.users[u].active {
      // Already blocked: run the cascade again, the ring may have lapsed.
      ApplyBlockCascade(db, u);
      return Accepted;
    }
    if db.users[u].systemAdmin && !force {
      return Refused(AdminNeedsForce);
    }
    db.UpdateUser(u, db.users[u].(active := false));
    ApplyBlockCascade(db, u);
    return Accepted;
  }

  /** Neither issues tokens nor lifts the cutoff. */
  function UnblockOutcome(s: System, bearer: Option<nat>, u: nat, wellFormed: bool): Outcome {
    var v := AdmitBackoffice(s, bearer);
    if v.Err? then (s, Refused(AuthFailed(v.error)))
    else if !wellFormed then (s, Refused(BadRequest))
    else if u !in s.users then (s, Refused(NotFound))
    else if s.users[u].active then (s, Accepted)
    else (PutUser(s, u, s.users[u].(active := true)), Accepted)
  }

  method UnblockUser(db: Database, bearer: Option<nat>, u: nat, wellFormed: bool) returns (resp: Response)
    modifies db
    ensures (db.View(), resp) == UnblockOutcome(old(db.View()), bearer, u, wellFormed)
  {
    var v := RequireBackofficeAuth(db, bearer);
    if v.Err? {
      return Refused(AuthFailed(v.error));
    }
    if !wellFormed {
      return Refused(BadRequest);
    }
    if u !in db.users {
      return Refused(NotFound);
    }
    if db.users[u].active {
      return Accepted;
    }
    db.UpdateUser(u, db.users[u].(active := true));
    return Accepted;
  }
}
