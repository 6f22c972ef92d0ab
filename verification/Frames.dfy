/** What each request leaves alone: the parts of the state its handler never writes. */
module Frames {
  import opened Basics
  import opened Model
  import opened Tokens
  import opened Registries
  import opened Revocation
  import opened Issue
  import opened Auth
  import AuthMfa
  import AuthMagicLink
  import opened BackofficeAuth
  import opened AdminUsers
  import opened AdminImpersonation
  import opened Runs

  // ---- logins, refreshes, links ----

  /** Only rows and signed tokens have changed. */
  ghost predicate SessionOnly(s: System, t: System) {
    t == s.(rows := t.rows, minted := t.minted, next := t.next) && s.next <= t.next
  }

  lemma SessionFrame(s: System, owner: Principal, opening: Opening, infra: Infra)
    ensures SessionOnly(s, SessionFor(s, owner, opening, infra).0)
  {
  }

  lemma RotationFrame(s: System, id: nat, infra: Infra)
    requires id in s.rows
    ensures SessionOnly(s, RotationOf(s, id, infra).0)
  {
    SessionFrame(s, s.rows[id].owner, s.rows[id].opening, infra);
  }

  lemma ChallengeFrame(s: System, p: Principal, tenant: nat, infra: Infra)
    ensures SessionOnly(s, ChallengeFor(s, p, tenant, infra).0)
  {
  }

  lemma FirstFactorFrame(s: System, u: nat, means: Means, infra: Infra)
    requires u in s.users
    ensures SessionOnly(s, AfterFirstFactor(s, u, means, infra).0)
  {
    ChallengeFrame(s, Tenant(u), s.users[u].tenant, infra);
    SessionFrame(s, Tenant(u), NewOpening(s, Tenant(u), means), infra);
  }

  lemma LoginFrame(s: System, user: Option<nat>, passwordOk: bool, locked: bool, infra: Infra)
    ensures SessionOnly(s, LoginOutcome(s, user, passwordOk, locked, infra).0)
  {
    if user.Some? && user.value in s.users {
      FirstFactorFrame(s, user.value, Password, infra);
    }
  }

  lemma OperatorLoginFrame(s: System, user: Option<nat>, passwordOk: bool, locked: bool, infra: Infra)
    ensures SessionOnly(s, BackofficeLoginOutcome(s, user, passwordOk, locked, infra).0)
  {
    if user.Some? {
      var p := Backoffice(user.value);
      ChallengeFrame(s, p, 0, infra);
      SessionFrame(s, p, NewOpening(s, p, Password), infra);
    }
  }

  lemma RefreshFrame(s: System, cookie: Cookie, bearer: Option<nat>, infra: Infra)
    ensures SessionOnly(s, RefreshOutcome(s, cookie, bearer, infra).0)
  {
    if cookie.Value? {
      var found := FindByHash(s.rows, ANY_TENANT, Hash(cookie.raw));
      if found.Some? {
        RotationFrame(s, found.value, infra);
        assert SessionOnly(s, RevokeByOwner(s, s.rows[found.value].owner));
      }
    }
  }

  lemma OperatorRefreshFrame(s: System, cookie: Option<nat>, originOk: bool, infra: Infra)
    ensures SessionOnly(s, BackofficeRefreshOutcome(s, cookie, originOk, infra).0)
  {
    if cookie.Some? {
      var found := FindByHash(s.rows, ANY_OPERATOR, Hash(cookie.value));
      if found.Some? {
        RotationFrame(s, found.value, infra);
      }
    }
  }

  lemma LinkVerifyFrame(s: System, link: nat, tenant: nat, locked: bool, infra: Infra)
    ensures var t := AuthMagicLink.VerifyOutcome(s, link, tenant, locked, infra).0;
      SessionOnly(s.(links := t.links), t)
  {
    if Claimable(s, link) {
      var claimed, u := MarkClaimed(s, link), s.links[link].user;
      assert claimed == s.(links := claimed.links);
      if u in s.users {
        FirstFactorFrame(DeleteLinksOf(claimed, u), u, MagicLink(link), infra);
      }
    }
  }

  // ---- logouts and account requests ----

  /** Only rows, the blacklist, cutoffs, accounts and links have changed. */
  ghost predicate AccountOnly(s: System, t: System) {
    && t == s.(rows := t.rows, revoked := t.revoked, cutoffs := t.cutoffs, users := t.users, links := t.links, next := t.next)
    && s.next <= t.next
  }

  lemma CookieFrame(s: System, plane: Principal, raw: nat)
    ensures var t := WithoutCookie(s, plane, raw); t == s.(rows := t.rows)
  {
  }

  lemma BearerFrame(s: System, bearer: Option<nat>)
    ensures var t := BlacklistBearer(s, bearer); t == s.(revoked := t.revoked)
  {
  }

  lemma LogoutFrame(s: System, cookie: Cookie, bearer: Option<nat>)
    ensures AccountOnly(s, LogoutOutcome(s, cookie, bearer).0)
  {
    BearerFrame(s, bearer);
    if cookie.Value? {
      CookieFrame(BlacklistBearer(s, bearer), ANY_TENANT, cookie.raw);
    }
  }

  lemma OperatorLogoutFrame(s: System, cookie: Option<nat>, bearer: Option<nat>)
    ensures AccountOnly(s, BackofficeLogoutOutcome(s, cookie, bearer).0)
  {
    var signedOut := if IsBackofficeBearer(s, bearer) then BlacklistBearer(s, bearer) else s;
    BearerFrame(s, bearer);
    if cookie.Some? {
      CookieFrame(signedOut, ANY_OPERATOR, cookie.value);
    }
  }

  lemma SessionsEndedFrame(s: System, u: nat, bearer: Option<nat>)
    ensures var t := AllSessionsEnded(s, u, bearer);
      t == s.(rows := WithoutRowsOf(s.rows, Tenant(u)), revoked := t.revoked, cutoffs := t.cutoffs)
  {
    BearerFrame(RevokeByOwner(s, Tenant(u)), bearer);
  }

  lemma ChangePasswordFrame(s: System, bearer: Option<nat>, accepted: bool)
    ensures AccountOnly(s, ChangePasswordOutcome(s, bearer, accepted).0)
  {
    if AdmitTenant(s, bearer).Ok? {
      SessionsEndedFrame(s, AdmitTenant(s, bearer).value, bearer);
    }
  }

  lemma CascadeFrame(s: System, u: nat)
    ensures var t := BlockCascade(s, u); t == s.(rows := WithoutRowsOf(s.rows, Tenant(u)), cutoffs := t.cutoffs)
  {
  }

  lemma BlockFrame(s: System, bearer: Option<nat>, u: nat, wellFormed: bool, force: bool)
    ensures AccountOnly(s, BlockOutcome(s, bearer, u, wellFormed, force).0)
  {
    CascadeFrame(s, u);
    if u in s.users {
      CascadeFrame(PutUser(s, u, s.users[u].(active := false)), u);
    }
  }

  lemma UnblockFrame(s: System, bearer: Option<nat>, u: nat, wellFormed: bool)
    ensures var t := UnblockOutcome(s, bearer, u, wellFormed).0; t == s.(users := t.users)
  {
  }

  lemma LinkRequestFrame(s: System, user: Option<nat>)
    ensures var t := AuthMagicLink.RequestOutcome(s, user).0; t == s.(links := t.links, next := t.next) && s.next <= t.next
  {
  }

  // ---- second factors ----

  /** Only enrollments and the ledger have changed. */
  ghost predicate FactorOnly(s: System, t: System) {
    t == s.(mfa := t.mfa, spent := t.spent, next := t.next) && s.next <= t.next
  }

  lemma SetupFrame(s: System, bearer: Option<nat>)
    ensures FactorOnly(s, AuthMfa.SetupOutcome(s, bearer).0) && AuthMfa.SetupOutcome(s, bearer).0.spent == s.spent
  {
    if AdmitTenant(s, bearer).Ok? {
      CreateLeaves(DeleteMfa(s, Tenant(AdmitTenant(s, bearer).value)), Tenant(AdmitTenant(s, bearer).value));
    }
  }

  lemma VerifyFrame(s: System, bearer: Option<nat>, code: TotpCode)
    ensures FactorOnly(s, AuthMfa.VerifyOutcome(s, bearer, code).0) && AuthMfa.VerifyOutcome(s, bearer, code).0.spent == s.spent
  {
    if AdmitTenant(s, bearer).Ok? {
      EnableLeaves(s, Tenant(AdmitTenant(s, bearer).value));
    }
  }

  lemma RegenerateFrame(s: System, bearer: Option<nat>, code: TotpCode)
    ensures FactorOnly(s, AuthMfa.RegenerateOutcome(s, bearer, code).0)
  {
    if AdmitTenant(s, bearer).Ok? {
      var p := Tenant(AdmitTenant(s, bearer).value);
      AuthMfa.MarkLeavesRest(s, p, code.step);
      UpdateLeaves(MarkStep(s, p, code.step), p);
    }
  }

  lemma FactorFrame(s: System, p: Principal, f: Option<Factor>)
    ensures var t := WithoutFactor(s, p, f); FactorOnly(s, t) && t.next == s.next && MfaEnabled(t, p) == MfaEnabled(s, p)
  {
    AuthMfa.FactorStillDue(s, p, f);
  }

  lemma StepTwoFrame(s: System, p: Principal, challenge: nat, totp: Option<TotpCode>, backup: Option<nat>, infra: Infra)
    requires challenge in s.minted
    ensures var t := AuthMfa.StepTwo(s, p, challenge, totp, backup, infra).0;
      SessionOnly(s.(mfa := t.mfa, spent := t.spent, revoked := t.revoked), t)
  {
    if MfaEnabled(s, p) && FactorOf(s, p, totp, backup).Some? {
      var f := FactorOf(s, p, totp, backup);
      FactorFrame(s, p, f);
      var used := BlacklistToken(WithoutFactor(s, p, f), challenge, s.minted[challenge].claims.exp * SECOND);
      SessionFrame(used, p, NewOpening(used, p, SecondStep(challenge, f.value)), infra);
    }
  }

  lemma LoginMfaFrame(s: System, challenge: nat, totp: Option<TotpCode>, backup: Option<nat>, locked: bool, infra: Infra)
    ensures var t := AuthMfa.LoginMfaOutcome(s, challenge, totp, backup, locked, infra).0;
      SessionOnly(s.(mfa := t.mfa, spent := t.spent, revoked := t.revoked), t)
  {
    if ParseMfaToken(s, challenge).Ok? {
      StepTwoFrame(s, Tenant(ParseMfaToken(s, challenge).value.0), challenge, totp, backup, infra);
    }
  }

  lemma OperatorLoginMfaFrame(s: System, challenge: nat, totp: Option<TotpCode>, backup: Option<nat>, locked: bool, infra: Infra)
    ensures var t := BackofficeLoginMfaOutcome(s, challenge, totp, backup, locked, infra).0;
      SessionOnly(s.(mfa := t.mfa, spent := t.spent, revoked := t.revoked), t)
  {
    if ParseBackofficeMfaToken(s, challenge).Ok? {
      StepTwoFrame(s, Backoffice(ParseBackofficeMfaToken(s, challenge).value), challenge, totp, backup, infra);
    }
  }

  lemma DisableFrame(s: System, bearer: Option<nat>, passwordOk: bool, totp: Option<TotpCode>, backup: Option<nat>)
    ensures var t := AuthMfa.DisableOutcome(s, bearer, passwordOk, totp, backup).0;
      AccountOnly(s.(mfa := t.mfa, spent := t.spent), t)
  {
    var v := AdmitTenant(s, bearer);
    if v.Ok? && MfaEnabled(s, Tenant(v.value)) {
      var p := Tenant(v.value);
      var f := FactorOf(s, p, totp, backup);
      FactorFrame(s, p, f);
      SessionsEndedFrame(DeleteMfa(WithoutFactor(s, p, f), p), v.value, bearer);
    }
  }

  // ---- impersonation ----

  /** Old slots are kept or dropped, never rewritten. */
  ghost predicate SlotsOnlyDrop(s: System, t: System) {
    forall j :: j in t.slots && j < s.next ==> j in s.slots && t.slots[j] == s.slots[j]
  }

  lemma FiledFrame(s: System, g: Grant, slot: Slot)
    ensures Mint(s, g) == s.(minted := Mint(s, g).minted, next := s.next + 1)
    ensures Filed(s, g, slot) == Mint(s, g).(slots := s.slots[s.next := slot])
  {
  }

  lemma StartFrame(s: System, bearer: Option<nat>, cookie: Option<nat>, u: nat, ttl: int, limited: bool, infra: Infra)
    ensures var t := StartOutcome(s, bearer, cookie, u, ttl, limited, infra).0;
      SessionOnly(s.(slots := t.slots), t) && t.rows == s.rows && SlotsOnlyDrop(s, t) && s.slots.Keys <= t.slots.Keys
  {
    if StartProblem(s, bearer, u, limited).None? {
      var g := Borrowed(s, bearer, u, ttl);
      FiledFrame(s, g, Slot(g.operator, cookie, u, s.now + g.ttl));
    }
  }

  lemma SlotEndedFrame(s: System, j: nat, until: Instant, g: Grant)
    ensures var t := DeleteSlot(BlacklistToken(s, j, until), j);
      && t == s.(slots := s.slots - {j}, revoked := t.revoked)
      && Mint(t, g) == t.(minted := Mint(t, g).minted, next := s.next + 1)
  {
    var revoked := BlacklistToken(s, j, until);
    assert revoked == s.(revoked := revoked.revoked);
    MintFrame(DeleteSlot(revoked, j), g);
  }

  lemma MintFrame(s: System, g: Grant)
    ensures Mint(s, g) == s.(minted := Mint(s, g).minted, next := s.next + 1)
  {
  }

  lemma EndFrame(s: System, bearer: Option<nat>, infra: Infra)
    ensures var t := EndOutcome(s, bearer, infra).0;
      SessionOnly(s.(slots := t.slots, revoked := t.revoked), t) && t.rows == s.rows && SlotsOnlyDrop(s, t)
  {
    var v := ParseImpersonationEnd(s, bearer);
    if v.Ok? && SlotLive(s, v.value.0) {
      var (j, operator) := v.value;
      var slot := s.slots[j];
      var ended := DeleteSlot(BlacklistToken(s, j, slot.expiresAt), j);
      SlotEndedFrame(s, j, slot.expiresAt, Restored(operator, j, CapturedRow(ended, slot.cookie)));
    }
  }

  // ---- any request ----

  /** The four requests that are decided by a one-time code. */
  predicate IsAttempt(r: Request) {
    r.LoginMfa? || r.OperatorLoginMfa? || r.MfaDisable? || r.MfaRegenerate?
  }

  predicate ChangesEnrollment(r: Request) {
    IsAttempt(r) || r.MfaSetup? || r.MfaVerify? || r.EnrollOperator? || r.UnenrollOperator?
  }

  /** Requests that can answer with a session, by opening one or by rotating one. */
  predicate MaySignIn(r: Request) {
    r.Login? || r.LoginMfa? || r.Refresh? || r.LinkVerify? || r.OperatorLogin? || r.OperatorLoginMfa? || r.OperatorRefresh?
  }

  /** Requests that may revoke or drop rows but add none. */
  predicate MayRevoke(r: Request) {
    r.Logout? || r.OperatorLogout? || r.ChangePassword? || r.MfaDisable? || r.Block? || r.PurgeExpired?
  }

  ghost predicate Frame(s: System, r: Request, t: System) {
    && s.next <= t.next
    && SlotsOnlyDrop(s, t)
    && (!r.EndImpersonating? ==> s.slots.Keys <= t.slots.Keys)
    && (!IsAttempt(r) ==> t.spent == s.spent)
    && (!ChangesEnrollment(r) ==> t.mfa == s.mfa)
    && (!MaySignIn(r) && !MayRevoke(r) ==> t.rows == s.rows)
    && (!MaySignIn(r) && !r.StartImpersonating? && !r.EndImpersonating? ==> t.minted == s.minted)
  }

  lemma SignInFrame(s: System, r: Request)
    requires MaySignIn(r)
    ensures Frame(s, r, Handle(s, r).0)
  {
    match r
    case Login(user, passwordOk, locked, infra) => LoginFrame(s, user, passwordOk, locked, infra);
    case LoginMfa(challenge, totp, backup, locked, infra) => LoginMfaFrame(s, challenge, totp, backup, locked, infra);
    case Refresh(cookie, bearer, infra) => RefreshFrame(s, cookie, bearer, infra);
    case LinkVerify(link, tenant, locked, infra) => LinkVerifyFrame(s, link, tenant, locked, infra);
    case OperatorLogin(user, passwordOk, locked, infra) => OperatorLoginFrame(s, user, passwordOk, locked, infra);
    case OperatorLoginMfa(challenge, totp, backup, locked, infra) => OperatorLoginMfaFrame(s, challenge, totp, backup, locked, infra);
    case OperatorRefresh(cookie, originOk, infra) => OperatorRefreshFrame(s, cookie, originOk, infra);
  }

  lemma AccountFrame(s: System, r: Request)
    requires OnTenantPlane(r) && !MaySignIn(r)
    ensures Frame(s, r, Handle(s, r).0)
  {
    match r
    case Logout(cookie, bearer) => LogoutFrame(s, cookie, bearer);
    case ChangePassword(bearer, accepted) => ChangePasswordFrame(s, bearer, accepted);
    case MfaSetup(bearer) => SetupFrame(s, bearer);
    case MfaVerify(bearer, code) => VerifyFrame(s, bearer, code);
    case MfaDisable(bearer, passwordOk, totp, backup) => DisableFrame(s, bearer, passwordOk, totp, backup);
    case MfaRegenerate(bearer, code) => RegenerateFrame(s, bearer, code);
    case LinkRequest(user) => LinkRequestFrame(s, user);
  }

  lemma OperatorEndsFrame(s: System, r: Request)
    requires r.OperatorLogout?
    ensures Frame(s, r, Handle(s, r).0)
  {
    OperatorLogoutFrame(s, r.operatorCookie, r.bearer);
  }

  lemma BlockingFrame(s: System, r: Request)
    requires r.Block? || r.Unblock?
    ensures Frame(s, r, Handle(s, r).0)
  {
    if r.Block? {
      BlockFrame(s, r.bearer, r.target, r.wellFormed, r.force);
    } else {
      UnblockFrame(s, r.bearer, r.target, r.wellFormed);
    }
  }

  lemma ImpersonationFrame(s: System, r: Request)
    requires r.StartImpersonating? || r.EndImpersonating?
    ensures Frame(s, r, Handle(s, r).0)
  {
    match r
    case StartImpersonating(bearer, cookie, u, ttl, limited, infra) => StartFrame(s, bearer, cookie, u, ttl, limited, infra);
    case EndImpersonating(bearer, infra) => EndFrame(s, bearer, infra);
  }

  lemma OutsideFrame(s: System, r: Request)
    requires FromOutside(r)
    ensures Frame(s, r, Handle(s, r).0)
  {
    if r.EnrollOperator? {
      var p := Backoffice(r.operator);
      EnableLeaves(CreateMfa(DeleteMfa(s, p), p), p);
    }
  }

  /** Slots change only when impersonations start and end, the ledger only by attempts, rows only as `Frame` says. */
  lemma HandlerFrame(s: System, r: Request)
    ensures Frame(s, r, Handle(s, r).0)
  {
    if MaySignIn(r) {
      SignInFrame(s, r);
    } else if FromOutside(r) {
      OutsideFrame(s, r);
    } else if OnTenantPlane(r) {
      AccountFrame(s, r);
    } else if r.StartImpersonating? || r.EndImpersonating? {
      ImpersonationFrame(s, r);
    } else if r.OperatorLogout? {
      OperatorEndsFrame(s, r);
    } else {
      BlockingFrame(s, r);
    }
  }
}
