/**
 The refresh rows over runs of whole requests: how one request can change them, what
 that keeps, and what a replayed cookie can still do.
 */
module Sessions {
  import opened Basics
  import opened Model
  import opened Tokens
  import opened Registries
  import opened Schedules
  import opened Revocation
  import opened Issue
  import opened Auth
  import AuthMfa
  import AuthMagicLink
  import opened BackofficeAuth
  import opened AdminUsers
  import opened AdminImpersonation
  import opened Runs
  import opened Frames

  // ---- the three ways a request changes the rows ----

  /** Rows are only revoked or dropped. */
  ghost predicate Shrinks(rows: map<nat, Row>, later: map<nat, Row>) {
    forall id :: id in later ==>
      id in rows && (later[id] == rows[id] || later[id] == rows[id].(revoked := true))
  }

  /** The proof a new login rests on was unused before the request and is used up by it. */
  ghost predicate Earned(s: System, t: System, row: Row) {
    && row.opening.at == s.now && row.opening.factorDue == FactorDue(s, row.owner)
    && (FactorDue(s, row.owner) ==> row.opening.means.SecondStep?)
    && match row.opening.means
       case Password => true
       case MagicLink(link) => Claimable(s, link) && row.owner == Tenant(s.links[link].user) && Holds(t, LinkStaysBurnt(link))
       case SecondStep(challenge, f) =>
         f !in s.spent && f in t.spent && challenge in s.minted
         && s.minted[challenge].grant.Challenge? && s.minted[challenge].grant.owner == row.owner
         && Unix(s.now) < s.minted[challenge].claims.exp
  }

  datatype RowChange = Shrunk | Opened(id: nat) | Rotated(consumed: nat, id: nat)

  ghost predicate Changes(s: System, t: System, c: RowChange) {
    match c
    case Shrunk => Shrinks(s.rows, t.rows)
    case Opened(id) =>
      && s.next <= id && id in t.rows && Shrinks(s.rows, t.rows - {id})
      && t.rows[id].opening.id == id && Earned(s, t, t.rows[id])
    case Rotated(consumed, id) =>
      && s.next <= id && id in t.rows && Shrinks(s.rows, t.rows - {id})
      && consumed in s.rows && !s.rows[consumed].revoked
      && t.rows[id].owner == s.rows[consumed].owner && t.rows[id].opening == s.rows[consumed].opening
      && (t.rows[id].revoked || (consumed in t.rows ==> t.rows[consumed].revoked))
  }

  ghost predicate RowsMove(s: System, t: System) {
    exists c :: Changes(s, t, c)
  }

  lemma OnlyShrinks(s: System, t: System)
    requires Shrinks(s.rows, t.rows)
    ensures RowsMove(s, t)
  {
    assert Changes(s, t, Shrunk);
  }

  /** Opening a session in a state whose rows are still those the request found. */
  lemma SessionMoves(s: System, t: System, owner: Principal, opening: Opening, infra: Infra)
    requires t.rows == s.rows && s.next <= t.next && opening.id == t.next && RowsFresh(s.rows, s.next)
    requires Earned(s, t, FreshRow(t, owner, opening))
    ensures RowsMove(s, SessionFor(t, owner, opening, infra).0)
  {
    var u := SessionFor(t, owner, opening, infra).0;
    if infra.RowNotStored? {
      OnlyShrinks(s, u);
    } else {
      assert Changes(s, u, Opened(t.next));
    }
  }

  lemma RotationMoves(s: System, id: nat, infra: Infra)
    requires RowsFresh(s.rows, s.next) && id in s.rows && !s.rows[id].revoked
    ensures RowsMove(s, RotationOf(s, id, infra).0)
  {
    var t := RotationOf(s, id, infra).0;
    if infra.RowNotStored? {
      OnlyShrinks(s, t);
    } else {
      assert Changes(s, t, Rotated(id, s.next));
    }
  }

  lemma FirstFactorMoves(s: System, t: System, u: nat, means: Means, infra: Infra)
    requires RowsFresh(s.rows, s.next) && t.rows == s.rows && t.next == s.next && t.now == s.now && t.mfa == s.mfa && u in t.users
    requires means.Password? || (means.MagicLink? && Claimable(s, means.link) && s.links[means.link].user == u && Holds(t, LinkStaysBurnt(means.link)))
    ensures RowsMove(s, AfterFirstFactor(t, u, means, infra).0)
  {
    if MfaEnabled(t, Tenant(u)) {
      OnlyShrinks(s, AfterFirstFactor(t, u, means, infra).0);
    } else {
      SessionMoves(s, t, Tenant(u), NewOpening(t, Tenant(u), means), infra);
    }
  }

  // ---- what a used factor is ----

  lemma StepIsNew(s: System, p: Principal, step: int)
    requires LedgerSound(s.mfa, s.spent, s.next) && StepWins(s, p, step)
    ensures TotpStep(s.mfa[p].incarnation, step) !in s.spent
    ensures MarkStep(s, p, step).spent == s.spent + {TotpStep(s.mfa[p].incarnation, step)}
  {
    assert MfaSound(s.mfa[p], s.spent, s.next);
  }

  lemma CodeIsNew(s: System, p: Principal, code: nat)
    requires LedgerSound(s.mfa, s.spent, s.next) && CodeMatches(s, p, code)
    ensures BackupCode(s.mfa[p].incarnation, code) !in s.spent
    ensures ConsumeCode(s, p, code).spent == s.spent + {BackupCode(s.mfa[p].incarnation, code)}
  {
    assert MfaSound(s.mfa[p], s.spent, s.next);
    assert multiset(s.mfa[p].codes)[code] > 0;
  }

  /** The factor a request uses up was not in the ledger before, and is all that is added to it. */
  lemma FactorIsNew(s: System, p: Principal, totp: Option<TotpCode>, backup: Option<nat>)
    requires LedgerSound(s.mfa, s.spent, s.next) && p in s.mfa
    ensures var f := FactorOf(s, p, totp, backup);
      f.Some? ==>
        && f.value !in s.spent
        && f.value.incarnation == s.mfa[p].incarnation
        && WithoutFactor(s, p, f).spent == s.spent + {f.value}
  {
    if TotpWins(s, p, totp) {
      StepIsNew(s, p, totp.value.step);
    } else if backup.Some? && CodeMatches(s, p, backup.value) {
      CodeIsNew(s, p, backup.value);
    }
  }

  lemma StepTwoMoves(s: System, p: Principal, challenge: nat, totp: Option<TotpCode>, backup: Option<nat>, infra: Infra)
    requires WellFormed(s) && challenge in s.minted
    requires s.minted[challenge].grant.Challenge? && s.minted[challenge].grant.owner == p
    requires Unix(s.now) < s.minted[challenge].claims.exp
    ensures RowsMove(s, AuthMfa.StepTwo(s, p, challenge, totp, backup, infra).0)
  {
    if MfaEnabled(s, p) && FactorOf(s, p, totp, backup).Some? {
      var f := FactorOf(s, p, totp, backup);
      FactorIsNew(s, p, totp, backup);
      FactorFrame(s, p, f);
      var without := WithoutFactor(s, p, f);
      var used := BlacklistToken(without, challenge, s.minted[challenge].claims.exp * SECOND);
      assert used == without.(revoked := used.revoked);
      SessionMoves(s, used, p, NewOpening(used, p, SecondStep(challenge, f.value)), infra);
    } else {
      OnlyShrinks(s, s);
    }
  }

  // ---- every handler changes the rows in one of these ways ----

  lemma LoginMfaMoves(s: System, challenge: nat, totp: Option<TotpCode>, backup: Option<nat>, locked: bool, infra: Infra)
    requires WellFormed(s)
    ensures RowsMove(s, AuthMfa.LoginMfaOutcome(s, challenge, totp, backup, locked, infra).0)
  {
    OnlyShrinks(s, s);
    if ParseMfaToken(s, challenge).Ok? {
      var (u, tenant) := ParseMfaToken(s, challenge).value;
      assert TokenSound(s, challenge);
      StepTwoReadsItsOwnChallenge(s.minted[challenge].grant, s.minted[challenge].at, s.now, u, tenant, 0);
      StepTwoMoves(s, Tenant(u), challenge, totp, backup, infra);
    }
  }

  lemma OperatorLoginMfaMoves(s: System, challenge: nat, totp: Option<TotpCode>, backup: Option<nat>, locked: bool, infra: Infra)
    requires WellFormed(s)
    ensures RowsMove(s, BackofficeLoginMfaOutcome(s, challenge, totp, backup, locked, infra).0)
  {
    OnlyShrinks(s, s);
    if ParseBackofficeMfaToken(s, challenge).Ok? {
      var a := ParseBackofficeMfaToken(s, challenge).value;
      assert TokenSound(s, challenge);
      StepTwoReadsItsOwnChallenge(s.minted[challenge].grant, s.minted[challenge].at, s.now, 0, 0, a);
      StepTwoMoves(s, Backoffice(a), challenge, totp, backup, infra);
    }
  }

  lemma LoginMoves(s: System, user: Option<nat>, passwordOk: bool, locked: bool, infra: Infra)
    requires WellFormed(s)
    ensures RowsMove(s, LoginOutcome(s, user, passwordOk, locked, infra).0)
  {
    OnlyShrinks(s, s);
    if user.Some? && user.value in s.users {
      FirstFactorMoves(s, s, user.value, Password, infra);
    }
  }

  lemma OperatorLoginMoves(s: System, user: Option<nat>, passwordOk: bool, locked: bool, infra: Infra)
    requires WellFormed(s)
    ensures RowsMove(s, BackofficeLoginOutcome(s, user, passwordOk, locked, infra).0)
  {
    OnlyShrinks(s, s);
    if user.Some? {
      var p := Backoffice(user.value);
      OnlyShrinks(s, ChallengeFor(s, p, 0, infra).0);
      if user.value in s.operators && !s.operators[user.value].mfaEnforced {
        SessionMoves(s, s, p, NewOpening(s, p, Password), infra);
      }
    }
  }

  lemma RefreshMoves(s: System, cookie: Cookie, bearer: Option<nat>, infra: Infra)
    requires WellFormed(s)
    ensures RowsMove(s, RefreshOutcome(s, cookie, bearer, infra).0)
  {
    OnlyShrinks(s, s);
    if cookie.Value? {
      var found := FindByHash(s.rows, ANY_TENANT, Hash(cookie.raw));
      if found.Some? {
        OnlyShrinks(s, RevokeByOwner(s, s.rows[found.value].owner));
        if !s.rows[found.value].revoked {
          RotationMoves(s, found.value, infra);
        }
      }
    }
  }

  lemma OperatorRefreshMoves(s: System, cookie: Option<nat>, originOk: bool, infra: Infra)
    requires WellFormed(s)
    ensures RowsMove(s, BackofficeRefreshOutcome(s, cookie, originOk, infra).0)
  {
    OnlyShrinks(s, s);
    if cookie.Some? {
      var found := FindByHash(s.rows, ANY_OPERATOR, Hash(cookie.value));
      if found.Some? && !s.rows[found.value].revoked {
        RotationMoves(s, found.value, infra);
      }
    }
  }

  lemma LinkVerifyMoves(s: System, link: nat, tenant: nat, locked: bool, infra: Infra)
    requires WellFormed(s)
    ensures RowsMove(s, AuthMagicLink.VerifyOutcome(s, link, tenant, locked, infra).0)
  {
    OnlyShrinks(s, s);
    if Claimable(s, link) {
      var claimed := MarkClaimed(s, link);
      OnlyShrinks(s, claimed);
      var u := s.links[link].user;
      if u in s.users {
        FirstFactorMoves(s, DeleteLinksOf(claimed, u), u, MagicLink(link), infra);
      }
    }
  }

  // The remaining handlers only revoke or drop rows.

  lemma DisableShrinks(s: System, bearer: Option<nat>, passwordOk: bool, totp: Option<TotpCode>, backup: Option<nat>)
    ensures Shrinks(s.rows, AuthMfa.DisableOutcome(s, bearer, passwordOk, totp, backup).0.rows)
  {
    var v := AdmitTenant(s, bearer);
    if v.Ok? && MfaEnabled(s, Tenant(v.value)) {
      var p := Tenant(v.value);
      var f := FactorOf(s, p, totp, backup);
      FactorFrame(s, p, f);
      SessionsEndedFrame(DeleteMfa(WithoutFactor(s, p, f), p), v.value, bearer);
    }
  }

  lemma CookieShrinks(s: System, t: System, plane: Principal, raw: nat)
    requires t.rows == s.rows
    ensures Shrinks(s.rows, WithoutCookie(t, plane, raw).rows)
  {
    var found := FindByHash(t.rows, plane, Hash(raw));
    assert found.Some? ==> WithoutCookie(t, plane, raw) == RevokeById(t, t.rows[found.value].owner, found.value);
  }

  lemma LogoutShrinks(s: System, cookie: Cookie, bearer: Option<nat>)
    ensures Shrinks(s.rows, LogoutOutcome(s, cookie, bearer).0.rows)
  {
    if cookie.Value? {
      CookieShrinks(s, BlacklistBearer(s, bearer), ANY_TENANT, cookie.raw);
    }
  }

  lemma OperatorLogoutShrinks(s: System, cookie: Option<nat>, bearer: Option<nat>)
    ensures Shrinks(s.rows, BackofficeLogoutOutcome(s, cookie, bearer).0.rows)
  {
    var signedOut := if IsBackofficeBearer(s, bearer) then BlacklistBearer(s, bearer) else s;
    assert signedOut.rows == s.rows;
    if cookie.Some? {
      CookieShrinks(s, signedOut, ANY_OPERATOR, cookie.value);
    }
  }

  lemma ChangePasswordShrinks(s: System, bearer: Option<nat>, accepted: bool)
    ensures Shrinks(s.rows, ChangePasswordOutcome(s, bearer, accepted).0.rows)
  {
    if AdmitTenant(s, bearer).Ok? {
      SessionsEndedFrame(s, AdmitTenant(s, bearer).value, bearer);
    }
  }

  lemma BlockShrinks(s: System, bearer: Option<nat>, u: nat, wellFormed: bool, force: bool)
    ensures Shrinks(s.rows, BlockOutcome(s, bearer, u, wellFormed, force).0.rows)
  {
    CascadeFrame(s, u);
    if u in s.users {
      CascadeFrame(PutUser(s, u, s.users[u].(active := false)), u);
    }
  }

  lemma HandlerShrinks(s: System, r: Request)
    requires !MaySignIn(r)
    ensures Shrinks(s.rows, Handle(s, r).0.rows)
  {
    if !MayRevoke(r) {
      HandlerFrame(s, r);
      return;
    }
    match r
    case MfaDisable(bearer, passwordOk, totp, backup) => DisableShrinks(s, bearer, passwordOk, totp, backup);
    case Logout(cookie, bearer) => LogoutShrinks(s, cookie, bearer);
    case ChangePassword(bearer, accepted) => ChangePasswordShrinks(s, bearer, accepted);
    case OperatorLogout(cookie, bearer) => OperatorLogoutShrinks(s, cookie, bearer);
    case Block(bearer, u, wellFormed, force) => BlockShrinks(s, bearer, u, wellFormed, force);
    case PurgeExpired =>
  }

  /** One request revokes and drops rows, and adds at most one: a login of its own, or the successor of a live row. */
  lemma HandlerMovesRows(s: System, r: Request)
    requires WellFormed(s)
    ensures RowsMove(s, Handle(s, r).0)
  {
    match r
    case Login(user, passwordOk, locked, infra) => LoginMoves(s, user, passwordOk, locked, infra);
    case LoginMfa(challenge, totp, backup, locked, infra) => LoginMfaMoves(s, challenge, totp, backup, locked, infra);
    case Refresh(cookie, bearer, infra) => RefreshMoves(s, cookie, bearer, infra);
    case LinkVerify(link, tenant, locked, infra) => LinkVerifyMoves(s, link, tenant, locked, infra);
    case OperatorLogin(user, passwordOk, locked, infra) => OperatorLoginMoves(s, user, passwordOk, locked, infra);
    case OperatorLoginMfa(challenge, totp, backup, locked, infra) => OperatorLoginMfaMoves(s, challenge, totp, backup, locked, infra);
    case OperatorRefresh(cookie, originOk, infra) => OperatorRefreshMoves(s, cookie, originOk, infra);
    case _ =>
      HandlerShrinks(s, r);
      OnlyShrinks(s, Handle(s, r).0);
  }
}
