/** go/apiserver/auth_magic_link.go: sign-in by a mailed link. */
module AuthMagicLink {
  import opened Basics
  import opened Model
  import opened Tokens
  import opened Registries
  import opened Stores
  import opened Issue
  import opened Auth

  /** The answer is the same whoever asks; only an active account gets a link. */
  function RequestOutcome(s: System, user: Option<nat>): Outcome {
    if user.None? || user.value !in s.users || !s.users[user.value].active then (s, Accepted)
    else (CreateLink(DeleteLinksOf(s, user.value), user.value, s.users[user.value].tenant), Accepted)
  }

  method RequestLink(db: Database, user: Option<nat>) returns (resp: Response)
    modifies db
    ensures (db.View(), resp) == RequestOutcome(old(db.View()), user)
  {
    if user.None? || user.value !in db.users || !db.users[user.value].active {
      return Accepted;
    }
    // Supersede any pending link before storing the new one.
    db.DeleteLinksByUserID(user.value);
    var _ := db.CreateLinkFor(user.value, db.users[user.value].tenant);
    return Accepted;
  }

  function VerifyOutcome(s: System, link: nat, tenant: nat, locked: bool, infra: Infra): Outcome {
    if !Claimable(s, link) then (s, Refused(InvalidLink))
    else
      var claimed := MarkClaimed(s, link);
      var u := s.links[link].user;
      if s.links[link].tenant != tenant then (claimed, Refused(InvalidLink))
      else if u !in s.users then (claimed, Refused(InvalidLink))
      else if !s.users[u].active then (claimed, Refused(UserDisabled))
      else if locked then (claimed, Refused(AccountLocked))
      else AfterFirstFactor(DeleteLinksOf(claimed, u), u, MagicLink(link), infra)
  }

  method Verify(db: Database, link: nat, tenant: nat, locked: bool, infra: Infra) returns (resp: Response)
    modifies db
    ensures (db.View(), resp) == VerifyOutcome(old(db.View()), link, tenant, locked, infra)
  {
    var claimed := db.ClaimLink(link);
    if !claimed {
      return Refused(InvalidLink);
    }
    if db.now > db.links[link].expiresAt {
      return Refused(InvalidLink);
    }
    if db.links[link].tenant != tenant {
      return Refused(InvalidLink);
    }
    var u := db.links[link].user;
    if u !in db.users {
      return Refused(InvalidLink);
    }
    if !db.users[u].active {
      return Refused(UserDisabled);
    }
    if locked {
      return Refused(AccountLocked);
    }
    db.DeleteLinksByUserID(u);
    resp := CompleteFirstFactor(db, u, MagicLink(link), infra);
  }
}
