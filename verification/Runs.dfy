/**
 Runs of whole requests. A request is one handler (or something outside them: the clock,
 an account edited, an operator enrolled, expired rows purged), and each is shown to be a
 schedule of lawful registry calls: all that is proved about schedules holds for runs.
 */
module Runs {
  import opened Basics
  import opened Model
  import opened Tokens
  import opened Registries
  import opened Schedules
  import opened Revocation
  import opened Issue
  import opened Auth
  import AuthMfa
  import AuthMagicLink
  import opened BackofficeAuth
  import opened AdminUsers
  import opened AdminImpersonation

  datatype Request =
    | Login(user: Option<nat>, passwordOk: bool, locked: bool, infra: Infra)
    | LoginMfa(challenge: nat, totp: Option<TotpCode>, backup: Option<nat>, locked: bool, infra: Infra)
    | Refresh(cookie: Cookie, bearer: Option<nat>, infra: Infra)
    | Logout(cookie: Cookie, bearer: Option<nat>)
    | ChangePassword(bearer: Option<nat>, accepted: bool)
    | MfaSetup(bearer: Option<nat>)
    | MfaVerify(bearer: Option<nat>, code: TotpCode)
    | MfaDisable(bearer: Option<nat>, passwordOk: bool, totp: Option<TotpCode>, backup: Option<nat>)
    | MfaRegenerate(bearer: Option<nat>, code: TotpCode)
    | LinkRequest(user: Option<nat>)
    | LinkVerify(link: nat, tenant: nat, locked: bool, infra: Infra)
    | OperatorLogin(user: Option<nat>, passwordOk: bool, locked: bool, infra: Infra)
    | OperatorLoginMfa(challenge: nat, totp: Option<TotpCode>, backup: Option<nat>, locked: bool, infra: Infra)
    | OperatorRefresh(operatorCookie: Option<nat>, originOk: bool, infra: Infra)
    | OperatorLogout(operatorCookie: Option<nat>, bearer: Option<nat>)
    | Block(bearer: Option<nat>, target: nat, wellFormed: bool, force: bool)
    | Unblock(bearer: Option<nat>, target: nat, wellFormed: bool)
    | StartImpersonating(bearer: Option<nat>, operatorCookie: Option<nat>, target: nat, ttl: int, limited: bool, infra: Infra)
    | EndImpersonating(bearer: Option<nat>, infra: Infra)
    | ClockTick(d: nat)
    | EditUser(target: nat, tenantUser: TenantUser)
    | EditOperator(operator: nat, backofficeUser: BackofficeUser)
    | EnrollOperator(operator: nat)
    | UnenrollOperator(operator: nat)
    | PurgeExpired

  function Enrolled(s: System, p: Principal): System {
    EnableMfa(CreateMfa(DeleteMfa(s, p), p), p)
  }

  ghost function Handle(s: System, r: Request): Outcome {
    match r
    case Login(user, passwordOk, locked, infra) => LoginOutcome(s, user, passwordOk, locked, infra)
    case LoginMfa(challenge, totp, backup, locked, infra) => AuthMfa.LoginMfaOutcome(s, challenge, totp, backup, locked, infra)
    case Refresh(cookie, bearer, infra) => RefreshOutcome(s, cookie, bearer, infra)
    case Logout(cookie, bearer) => LogoutOutcome(s, cookie, bearer)
    case ChangePassword(bearer, accepted) => ChangePasswordOutcome(s, bearer, accepted)
    case MfaSetup(bearer) => AuthMfa.SetupOutcome(s, bearer)
    case MfaVerify(bearer, code) => AuthMfa.VerifyOutcome(s, bearer, code)
    case MfaDisable(bearer, passwordOk, totp, backup) => AuthMfa.DisableOutcome(s, bearer, passwordOk, totp, backup)
    case MfaRegenerate(bearer, code) => AuthMfa.RegenerateOutcome(s, bearer, code)
    case LinkRequest(user) => AuthMagicLink.RequestOutcome(s, user)
    case LinkVerify(link, tenant, locked, infra) => AuthMagicLink.VerifyOutcome(s, link, tenant, locked, infra)
    case OperatorLogin(user, passwordOk, locked, infra) => BackofficeLoginOutcome(s, user, passwordOk, locked, infra)
    case OperatorLoginMfa(challenge, totp, backup, locked, infra) => BackofficeLoginMfaOutcome(s, challenge, totp, backup, locked, infra)
    case OperatorRefresh(cookie, originOk, infra) => BackofficeRefreshOutcome(s, cookie, originOk, infra)
    case OperatorLogout(cookie, bearer) => BackofficeLogoutOutcome(s, cookie, bearer)
    case Block(bearer, u, wellFormed, force) => BlockOutcome(s, bearer, u, wellFormed, force)
    case Unblock(bearer, u, wellFormed) => UnblockOutcome(s, bearer, u, wellFormed)
    case StartImpersonating(bearer, cookie, u, ttl, limited, infra) => StartOutcome(s, bearer, cookie, u, ttl, limited, infra)
    case EndImpersonating(bearer, infra) => EndOutcome(s, bearer, infra)
    case ClockTick(d) => (Tick(s, d), Accepted)
    case EditUser(u, user) => (PutUser(s, u, user), Accepted)
    case EditOperator(a, operator) => (PutOperator(s, a, operator), Accepted)
    case EnrollOperator(a) => (Enrolled(s, Backoffice(a)), Accepted)
    case UnenrollOperator(a) => (DeleteMfa(s, Backoffice(a)), Accepted)
    case PurgeExpired => (DeleteExpiredRows(s), Accepted)
  }

  ghost function Run(s: System, requests: seq<Request>): System
    decreases |requests|
  {
    if requests == [] then s else Run(Handle(s, requests[0]).0, requests[1..])
  }

  // ---- a request is a schedule of lawful calls ----

  lemma SessionLed(s: System, t: System, owner: Principal, opening: Opening, infra: Infra)
    requires Reaches(s, t)
    ensures Reaches(s, SessionFor(t, owner, opening, infra).0)
  {
    ReachesNext(s, t, CCreateRow(owner, opening));
    var stored := CreateRow(t, owner, opening);
    ReachesNext(s, stored, CRevokeById(owner, t.next));
    ReachesNext(s, stored, CMint(Session(owner, t.next, opening)));
  }

  lemma RotationLed(s: System, t: System, id: nat, infra: Infra)
    requires Reaches(s, t) && id in t.rows
    ensures Reaches(s, RotationOf(t, id, infra).0)
  {
    var row := t.rows[id];
    SessionLed(s, t, row.owner, row.opening, infra);
    ReachesNext(s, SessionFor(t, row.owner, row.opening, infra).0, CRevokeById(row.owner, id));
  }

  lemma FirstFactorLed(s: System, t: System, u: nat, means: Means, infra: Infra)
    requires Reaches(s, t) && u in t.users
    ensures Reaches(s, AfterFirstFactor(t, u, means, infra).0)
  {
    ReachesNext(s, t, CMint(Challenge(Tenant(u), t.users[u].tenant)));
    SessionLed(s, t, Tenant(u), NewOpening(t, Tenant(u), means), infra);
  }

  lemma BlacklistLed(s: System, t: System, j: nat)
    requires Reaches(s, t) && j in t.minted
    ensures Reaches(s, BlacklistToken(t, j, t.minted[j].claims.exp * SECOND))
  {
    ReachesNext(s, t, CBlacklistToken(j, t.minted[j].claims.exp * SECOND));
  }

  lemma BearerLed(s: System, t: System, bearer: Option<nat>)
    requires WellFormed(s) && Reaches(s, t)
    ensures Reaches(s, BlacklistBearer(t, bearer))
  {
    if bearer.Some? && bearer.value in t.minted {
      StaysWellFormed(s, t);
      CapIsNeverReached(t, bearer.value);
      BlacklistLed(s, t, bearer.value);
    }
  }

  lemma CookieLed(s: System, t: System, plane: Principal, raw: nat)
    requires Reaches(s, t)
    ensures Reaches(s, WithoutCookie(t, plane, raw))
  {
    var found := FindByHash(t.rows, plane, Hash(raw));
    if found.Some? {
      ReachesNext(s, t, CRevokeById(t.rows[found.value].owner, found.value));
    }
  }

  lemma SessionsEndedLed(s: System, t: System, u: nat, bearer: Option<nat>)
    requires WellFormed(s) && Reaches(s, t)
    ensures Reaches(s, AllSessionsEnded(t, u, bearer))
  {
    ReachesNext(s, t, CRevokeByOwner(Tenant(u)));
    BearerLed(s, RevokeByOwner(t, Tenant(u)), bearer);
    ReachesNext(s, BlacklistBearer(RevokeByOwner(t, Tenant(u)), bearer), CBlacklistUser(Tenant(u)));
  }

  lemma FactorLed(s: System, t: System, p: Principal, f: Option<Factor>)
    requires Reaches(s, t)
    ensures Reaches(s, WithoutFactor(t, p, f))
  {
    match f
    case None =>
    case Some(TotpStep(_, step)) => ReachesNext(s, t, CMarkStep(p, step));
    case Some(BackupCode(_, code)) => ReachesNext(s, t, CConsumeCode(p, code));
  }

  lemma StepTwoLed(s: System, p: Principal, challenge: nat, totp: Option<TotpCode>, backup: Option<nat>, infra: Infra)
    requires WellFormed(s) && challenge in s.minted
    ensures Reaches(s, AuthMfa.StepTwo(s, p, challenge, totp, backup, infra).0)
  {
    ReachesSelf(s);
    if MfaEnabled(s, p) && FactorOf(s, p, totp, backup).Some? {
      var f := FactorOf(s, p, totp, backup);
      FactorLed(s, s, p, f);
      AuthMfa.FactorStillDue(s, p, f);
      BlacklistLed(s, WithoutFactor(s, p, f), challenge);
      var used := BlacklistToken(WithoutFactor(s, p, f), challenge, s.minted[challenge].claims.exp * SECOND);
      SessionLed(s, used, p, NewOpening(used, p, SecondStep(challenge, f.value)), infra);
    }
  }

  lemma DisableLed(s: System, bearer: Option<nat>, passwordOk: bool, totp: Option<TotpCode>, backup: Option<nat>)
    requires WellFormed(s)
    ensures Reaches(s, AuthMfa.DisableOutcome(s, bearer, passwordOk, totp, backup).0)
  {
    ReachesSelf(s);
    var v := AdmitTenant(s, bearer);
    if v.Ok? && MfaEnabled(s, Tenant(v.value)) {
      var p := Tenant(v.value);
      var f := FactorOf(s, p, totp, backup);
      FactorLed(s, s, p, f);
      ReachesNext(s, WithoutFactor(s, p, f), CDeleteMfa(p));
      SessionsEndedLed(s, DeleteMfa(WithoutFactor(s, p, f), p), v.value, bearer);
    }
  }

  lemma LinkRequestLed(s: System, user: Option<nat>)
    requires WellFormed(s)
    ensures Reaches(s, AuthMagicLink.RequestOutcome(s, user).0)
  {
    ReachesSelf(s);
    if user.Some? && user.value in s.users {
      ReachesNext(s, s, CDeleteLinks(user.value));
      ReachesNext(s, DeleteLinksOf(s, user.value), CCreateLink(user.value, s.users[user.value].tenant));
    }
  }

  lemma LinkBurntLed(s: System, link: nat, u: nat)
    requires WellFormed(s)
    ensures Reaches(s, MarkClaimed(s, link)) && Reaches(s, DeleteLinksOf(MarkClaimed(s, link), u))
  {
    ReachesSelf(s);
    var claimed := MarkClaimed(s, link);
    ReachesNext(s, s, CMarkClaimed(link));
    ReachesNext(s, claimed, CDeleteLinks(u));
  }

  lemma LinkVerifyLed(s: System, link: nat, tenant: nat, locked: bool, infra: Infra)
    requires WellFormed(s)
    ensures Reaches(s, AuthMagicLink.VerifyOutcome(s, link, tenant, locked, infra).0)
  {
    ReachesSelf(s);
    if Claimable(s, link) {
      var u := s.links[link].user;
      LinkBurntLed(s, link, u);
      if u in s.users {
        FirstFactorLed(s, DeleteLinksOf(MarkClaimed(s, link), u), u, MagicLink(link), infra);
      }
    }
  }

  lemma MintLed(s: System, t: System, g: Grant)
    requires Reaches(s, t) && Lawful(t, CMint(g))
    ensures Reaches(s, Mint(t, g))
  {
    ReachesNext(s, t, CMint(g));
  }

  lemma PutSlotLed(s: System, t: System, j: nat, slot: Slot)
    requires Reaches(s, t) && Lawful(t, CPutSlot(j, slot))
    ensures Reaches(s, PutSlot(t, j, slot))
  {
    ReachesNext(s, t, CPutSlot(j, slot));
  }

  lemma UnixFloors(t: Instant)
    ensures Unix(t) * SECOND <= t
  {
  }

  lemma SlotIsLawful(s: System, g: Grant, slot: Slot)
    requires g.Impersonation? && g.operator == slot.operator && g.target == slot.target && slot.expiresAt == s.now + g.ttl
    ensures Lawful(Mint(s, g), CPutSlot(s.next, slot))
  {
    UnixFloors(s.now + g.ttl);
  }

  /** The slot outlives the token, both being stamped at the same moment. */
  lemma SlotFiledLed(s: System, g: Grant, slot: Slot)
    requires WellFormed(s) && Lawful(s, CMint(g))
    requires g.Impersonation? && g.operator == slot.operator && g.target == slot.target && slot.expiresAt == s.now + g.ttl
    ensures Reaches(s, Filed(s, g, slot))
  {
    ReachesSelf(s);
    MintLed(s, s, g);
    SlotIsLawful(s, g, slot);
    PutSlotLed(s, Mint(s, g), s.next, slot);
  }

  lemma BorrowIsLawful(s: System, u: nat, tenant: nat, operator: nat, bearer: nat, ttl: nat)
    requires ttl <= MAX_IMPERSONATION_TTL && bearer in s.minted && IsOperatorSession(s.minted[bearer].grant, operator)
    ensures Lawful(s, CMint(Impersonation(u, tenant, operator, bearer, ttl)))
  {
  }

  lemma AdmittedOperator(s: System, bearer: Option<nat>)
    requires TokensSound(s) && AdmitBackoffice(s, bearer).Ok?
    ensures bearer.Some? && bearer.value in s.minted
    ensures IsOperatorSession(s.minted[bearer.value].grant, AdmitBackoffice(s, bearer).value)
    ensures AdmitBackoffice(s, bearer).value in s.operators
  {
    var a := AdmitBackoffice(s, bearer).value;
    assert TokenSound(s, bearer.value);
    BackofficeGateReadsSessions(s.minted[bearer.value].grant, s.minted[bearer.value].at, s.now, a);
  }

  lemma BorrowLed(s: System, bearer: Option<nat>, cookie: Option<nat>, u: nat, ttl: int, limited: bool)
    requires WellFormed(s) && StartProblem(s, bearer, u, limited).None?
    ensures var g := Borrowed(s, bearer, u, ttl);
      Reaches(s, Mint(s, g)) && Reaches(s, Filed(s, g, Slot(g.operator, cookie, u, s.now + g.ttl)))
  {
    AdmittedOperator(s, bearer);
    var g := Borrowed(s, bearer, u, ttl);
    BorrowIsLawful(s, u, g.tenant, g.operator, bearer.value, g.ttl);
    ReachesSelf(s);
    MintLed(s, s, g);
    SlotFiledLed(s, g, Slot(g.operator, cookie, u, s.now + g.ttl));
  }

  lemma StartImpersonatingLed(s: System, bearer: Option<nat>, cookie: Option<nat>, u: nat, ttl: int, limited: bool, infra: Infra)
    requires WellFormed(s)
    ensures Reaches(s, StartOutcome(s, bearer, cookie, u, ttl, limited, infra).0)
  {
    ReachesSelf(s);
    if StartProblem(s, bearer, u, limited).None? {
      BorrowLed(s, bearer, cookie, u, ttl, limited);
    }
    StartReaches(s, bearer, cookie, u, ttl, limited, infra);
  }

  lemma StartReaches(s: System, bearer: Option<nat>, cookie: Option<nat>, u: nat, ttl: int, limited: bool, infra: Infra)
    requires Reaches(s, s)
    requires StartProblem(s, bearer, u, limited).None? ==>
      var g := Borrowed(s, bearer, u, ttl);
      Reaches(s, Mint(s, g)) && Reaches(s, Filed(s, g, Slot(g.operator, cookie, u, s.now + g.ttl)))
    ensures Reaches(s, StartOutcome(s, bearer, cookie, u, ttl, limited, infra).0)
  {
  }

  lemma SlotEndedLed(s: System, j: nat, rti: Option<nat>)
    requires WellFormed(s) && j in s.slots
    ensures var ended := DeleteSlot(BlacklistToken(s, j, s.slots[j].expiresAt), j);
      Reaches(s, ended) && Reaches(s, Mint(ended, Restored(s.slots[j].operator, j, rti)))
  {
    ReachesSelf(s);
    var revoked := BlacklistToken(s, j, s.slots[j].expiresAt);
    ReachesNext(s, s, CBlacklistToken(j, s.slots[j].expiresAt));
    ReachesNext(s, revoked, CDeleteSlot(j));
    MintLed(s, DeleteSlot(revoked, j), Restored(s.slots[j].operator, j, rti));
  }

  lemma EndImpersonatingLed(s: System, bearer: Option<nat>, infra: Infra)
    requires WellFormed(s)
    ensures Reaches(s, EndOutcome(s, bearer, infra).0)
  {
    ReachesSelf(s);
    var v := ParseImpersonationEnd(s, bearer);
    var t := EndOutcome(s, bearer, infra).0;
    if t != s {
      var j := v.value.0;
      var ended := DeleteSlot(BlacklistToken(s, j, s.slots[j].expiresAt), j);
      var rti := CapturedRow(ended, s.slots[j].cookie);
      SlotEndedLed(s, j, rti);
      assert t == ended || t == Mint(ended, Restored(s.slots[j].operator, j, rti));
    }
  }

  lemma CascadeLed(s: System, t: System, u: nat)
    requires Reaches(s, t)
    ensures Reaches(s, BlockCascade(t, u))
  {
    ReachesNext(s, t, CRevokeByOwner(Tenant(u)));
    ReachesNext(s, RevokeByOwner(t, Tenant(u)), CBlacklistUser(Tenant(u)));
  }

  lemma BlockLed(s: System, bearer: Option<nat>, u: nat, wellFormed: bool, force: bool)
    requires WellFormed(s)
    ensures Reaches(s, BlockOutcome(s, bearer, u, wellFormed, force).0)
  {
    ReachesSelf(s);
    CascadeLed(s, s, u);
    if u in s.users {
      var blocked := s.users[u].(active := false);
      ReachesNext(s, s, CPutUser(u, blocked));
      CascadeLed(s, PutUser(s, u, blocked), u);
    }
  }

  lemma RenewedLed(s: System, p: Principal, step: int)
    requires WellFormed(s)
    ensures Reaches(s, UpdateCodes(MarkStep(s, p, step), p))
  {
    ReachesSelf(s);
    var marked := MarkStep(s, p, step);
    ReachesNext(s, s, CMarkStep(p, step));
    ReachesNext(s, marked, CUpdateCodes(p));
  }

  lemma RegenerateLed(s: System, bearer: Option<nat>, code: TotpCode)
    requires WellFormed(s)
    ensures Reaches(s, AuthMfa.RegenerateOutcome(s, bearer, code).0)
  {
    ReachesSelf(s);
    if AdmitTenant(s, bearer).Ok? {
      RenewedLed(s, Tenant(AdmitTenant(s, bearer).value), code.step);
    }
  }

  lemma EnableLed(s: System, t: System, p: Principal)
    requires Reaches(s, t)
    ensures Reaches(s, EnableMfa(t, p))
  {
    ReachesNext(s, t, CEnableMfa(p));
  }

  lemma PendingLed(s: System, p: Principal)
    requires WellFormed(s)
    ensures Reaches(s, DeleteMfa(s, p)) && Reaches(s, CreateMfa(DeleteMfa(s, p), p))
  {
    ReachesSelf(s);
    ReachesNext(s, s, CDeleteMfa(p));
    ReachesNext(s, DeleteMfa(s, p), CCreateMfa(p));
  }

  lemma EnrollLed(s: System, p: Principal)
    requires WellFormed(s)
    ensures Reaches(s, DeleteMfa(s, p)) && Reaches(s, Enrolled(s, p))
  {
    PendingLed(s, p);
    EnableLed(s, CreateMfa(DeleteMfa(s, p), p), p);
  }

  lemma MfaSetupLed(s: System, bearer: Option<nat>)
    requires WellFormed(s)
    ensures Reaches(s, AuthMfa.SetupOutcome(s, bearer).0)
  {
    ReachesSelf(s);
    if AdmitTenant(s, bearer).Ok? {
      PendingLed(s, Tenant(AdmitTenant(s, bearer).value));
    }
  }

  lemma MfaVerifyLed(s: System, bearer: Option<nat>, code: TotpCode)
    requires WellFormed(s)
    ensures Reaches(s, AuthMfa.VerifyOutcome(s, bearer, code).0)
  {
    ReachesSelf(s);
    if AdmitTenant(s, bearer).Ok? {
      EnableLed(s, s, Tenant(AdmitTenant(s, bearer).value));
    }
  }

  lemma LoginLed(s: System, user: Option<nat>, passwordOk: bool, locked: bool, infra: Infra)
    requires WellFormed(s)
    ensures Reaches(s, LoginOutcome(s, user, passwordOk, locked, infra).0)
  {
    ReachesSelf(s);
    if user.Some? && user.value in s.users {
      FirstFactorLed(s, s, user.value, Password, infra);
    }
  }

  lemma OperatorLoginLed(s: System, user: Option<nat>, passwordOk: bool, locked: bool, infra: Infra)
    requires WellFormed(s)
    ensures Reaches(s, BackofficeLoginOutcome(s, user, passwordOk, locked, infra).0)
  {
    ReachesSelf(s);
    if user.Some? {
      var p := Backoffice(user.value);
      ReachesNext(s, s, CMint(Challenge(p, 0)));
      SessionLed(s, s, p, NewOpening(s, p, Password), infra);
    }
  }

  lemma LoginMfaLed(s: System, challenge: nat, totp: Option<TotpCode>, backup: Option<nat>, locked: bool, infra: Infra)
    requires WellFormed(s)
    ensures Reaches(s, AuthMfa.LoginMfaOutcome(s, challenge, totp, backup, locked, infra).0)
  {
    ReachesSelf(s);
    if ParseMfaToken(s, challenge).Ok? {
      StepTwoLed(s, Tenant(ParseMfaToken(s, challenge).value.0), challenge, totp, backup, infra);
    }
  }

  lemma OperatorLoginMfaLed(s: System, challenge: nat, totp: Option<TotpCode>, backup: Option<nat>, locked: bool, infra: Infra)
    requires WellFormed(s)
    ensures Reaches(s, BackofficeLoginMfaOutcome(s, challenge, totp, backup, locked, infra).0)
  {
    ReachesSelf(s);
    if ParseBackofficeMfaToken(s, challenge).Ok? {
      StepTwoLed(s, Backoffice(ParseBackofficeMfaToken(s, challenge).value), challenge, totp, backup, infra);
    }
  }

  lemma RefreshLed(s: System, cookie: Cookie, bearer: Option<nat>, infra: Infra)
    requires WellFormed(s)
    ensures Reaches(s, RefreshOutcome(s, cookie, bearer, infra).0)
  {
    ReachesSelf(s);
    if cookie.Value? {
      var found := FindByHash(s.rows, ANY_TENANT, Hash(cookie.raw));
      if found.Some? {
        var row := s.rows[found.value];
        if row.revoked {
          ReachesNext(s, s, CRevokeByOwner(row.owner));
          assert Reaches(s, RevokeByOwner(s, row.owner));
        } else {
          RotationLed(s, s, found.value, infra);
        }
      }
    }
  }

  lemma OperatorRefreshLed(s: System, cookie: Option<nat>, originOk: bool, infra: Infra)
    requires WellFormed(s)
    ensures Reaches(s, BackofficeRefreshOutcome(s, cookie, originOk, infra).0)
  {
    ReachesSelf(s);
    if cookie.Some? {
      var found := FindByHash(s.rows, ANY_OPERATOR, Hash(cookie.value));
      if found.Some? {
        RotationLed(s, s, found.value, infra);
      }
    }
  }

  lemma LogoutLed(s: System, cookie: Cookie, bearer: Option<nat>)
    requires WellFormed(s)
    ensures Reaches(s, LogoutOutcome(s, cookie, bearer).0)
  {
    ReachesSelf(s);
    BearerLed(s, s, bearer);
    if cookie.Value? {
      CookieLed(s, BlacklistBearer(s, bearer), ANY_TENANT, cookie.raw);
    }
  }

  lemma OperatorLogoutLed(s: System, cookie: Option<nat>, bearer: Option<nat>)
    requires WellFormed(s)
    ensures Reaches(s, BackofficeLogoutOutcome(s, cookie, bearer).0)
  {
    ReachesSelf(s);
    BearerLed(s, s, bearer);
    var signedOut := if IsBackofficeBearer(s, bearer) then BlacklistBearer(s, bearer) else s;
    if cookie.Some? {
      CookieLed(s, signedOut, ANY_OPERATOR, cookie.value);
    }
  }

  lemma ChangePasswordLed(s: System, bearer: Option<nat>, accepted: bool)
    requires WellFormed(s)
    ensures Reaches(s, ChangePasswordOutcome(s, bearer, accepted).0)
  {
    ReachesSelf(s);
    if AdmitTenant(s, bearer).Ok? {
      SessionsEndedLed(s, s, AdmitTenant(s, bearer).value, bearer);
    }
  }

  lemma UnblockLed(s: System, bearer: Option<nat>, u: nat, wellFormed: bool)
    requires WellFormed(s)
    ensures Reaches(s, UnblockOutcome(s, bearer, u, wellFormed).0)
  {
    ReachesSelf(s);
    if u in s.users {
      ReachesNext(s, s, CPutUser(u, s.users[u].(active := true)));
    }
  }

  lemma TickLed(s: System, d: nat)
    requires WellFormed(s)
    ensures Reaches(s, Tick(s, d))
  {
    ReachesSelf(s);
    ReachesNext(s, s, CTick(d));
  }

  lemma EditUserLed(s: System, u: nat, user: TenantUser)
    requires WellFormed(s)
    ensures Reaches(s, PutUser(s, u, user))
  {
    ReachesSelf(s);
    ReachesNext(s, s, CPutUser(u, user));
  }

  lemma EditOperatorLed(s: System, a: nat, operator: BackofficeUser)
    requires WellFormed(s)
    ensures Reaches(s, PutOperator(s, a, operator))
  {
    ReachesSelf(s);
    ReachesNext(s, s, CPutOperator(a, operator));
  }

  lemma PurgeLed(s: System)
    requires WellFormed(s)
    ensures Reaches(s, DeleteExpiredRows(s))
  {
    ReachesSelf(s);
    ReachesNext(s, s, CDeleteExpired);
  }

  predicate OnTenantPlane(r: Request) {
    || r.Login? || r.LoginMfa? || r.Refresh? || r.Logout? || r.ChangePassword? || r.MfaSetup? || r.MfaVerify?
    || r.MfaDisable? || r.MfaRegenerate? || r.LinkRequest? || r.LinkVerify?
  }

  predicate FromOutside(r: Request) {
    r.ClockTick? || r.EditUser? || r.EditOperator? || r.EnrollOperator? || r.UnenrollOperator? || r.PurgeExpired?
  }

  lemma TenantHandlerLed(s: System, r: Request)
    requires WellFormed(s) && OnTenantPlane(r)
    ensures Reaches(s, Handle(s, r).0)
  {
    match r
    case Login(user, passwordOk, locked, infra) => LoginLed(s, user, passwordOk, locked, infra);
    case LoginMfa(challenge, totp, backup, locked, infra) => LoginMfaLed(s, challenge, totp, backup, locked, infra);
    case Refresh(cookie, bearer, infra) => RefreshLed(s, cookie, bearer, infra);
    case Logout(cookie, bearer) => LogoutLed(s, cookie, bearer);
    case ChangePassword(bearer, accepted) => ChangePasswordLed(s, bearer, accepted);
    case MfaSetup(bearer) => MfaSetupLed(s, bearer);
    case MfaVerify(bearer, code) => MfaVerifyLed(s, bearer, code);
    case MfaDisable(bearer, passwordOk, totp, backup) => DisableLed(s, bearer, passwordOk, totp, backup);
    case MfaRegenerate(bearer, code) => RegenerateLed(s, bearer, code);
    case LinkRequest(user) => LinkRequestLed(s, user);
    case LinkVerify(link, tenant, locked, infra) => LinkVerifyLed(s, link, tenant, locked, infra);
  }

  lemma OperatorHandlerLed(s: System, r: Request)
    requires WellFormed(s) && !OnTenantPlane(r) && !FromOutside(r)
    ensures Reaches(s, Handle(s, r).0)
  {
    match r
    case OperatorLogin(user, passwordOk, locked, infra) => OperatorLoginLed(s, user, passwordOk, locked, infra);
    case OperatorLoginMfa(challenge, totp, backup, locked, infra) => OperatorLoginMfaLed(s, challenge, totp, backup, locked, infra);
    case OperatorRefresh(cookie, originOk, infra) => OperatorRefreshLed(s, cookie, originOk, infra);
    case OperatorLogout(cookie, bearer) => OperatorLogoutLed(s, cookie, bearer);
    case Block(bearer, u, wellFormed, force) => BlockLed(s, bearer, u, wellFormed, force);
    case Unblock(bearer, u, wellFormed) => UnblockLed(s, bearer, u, wellFormed);
    case StartImpersonating(bearer, cookie, u, ttl, limited, infra) => StartImpersonatingLed(s, bearer, cookie, u, ttl, limited, infra);
    case EndImpersonating(bearer, infra) => EndImpersonatingLed(s, bearer, infra);
  }

  lemma EnrollmentLed(s: System, r: Request)
    requires WellFormed(s) && (r.EnrollOperator? || r.UnenrollOperator?)
    ensures Reaches(s, Handle(s, r).0)
  {
    EnrollLed(s, Backoffice(r.operator));
  }

  lemma EnvironmentLed(s: System, r: Request)
    requires WellFormed(s) && FromOutside(r) && !r.EnrollOperator? && !r.UnenrollOperator?
    ensures Reaches(s, Handle(s, r).0)
  {
    if r.ClockTick? {
      TickLed(s, r.d);
    } else if r.EditUser? {
      EditUserLed(s, r.target, r.tenantUser);
    } else if r.EditOperator? {
      EditOperatorLed(s, r.operator, r.backofficeUser);
    } else {
      PurgeLed(s);
    }
  }

  /** Every handler is a schedule of lawful calls. */
  lemma HandlerIsLawful(s: System, r: Request)
    requires WellFormed(s)
    ensures Reaches(s, Handle(s, r).0) && WellFormed(Handle(s, r).0)
  {
    if OnTenantPlane(r) {
      TenantHandlerLed(s, r);
    } else if r.EnrollOperator? || r.UnenrollOperator? {
      EnrollmentLed(s, r);
    } else if FromOutside(r) {
      EnvironmentLed(s, r);
    } else {
      OperatorHandlerLed(s, r);
    }
    StaysWellFormed(s, Handle(s, r).0);
  }

  lemma {:induction false} ReachesChains(s: System, states: seq<System>, calls: seq<Call>, i: nat)
    requires IsSchedule(states, calls) && i <= |calls| && Reaches(s, states[0])
    ensures Reaches(s, states[i])
  {
    if i > 0 {
      ReachesChains(s, states, calls, i - 1);
      assert Lawful(states[i - 1], calls[i - 1]);
      ReachesNext(s, states[i - 1], calls[i - 1]);
    }
  }

  lemma ReachesIsTransitive(s: System, t: System, u: System)
    requires Reaches(s, t) && Reaches(t, u)
    ensures Reaches(s, u)
  {
    var states, calls :| IsSchedule(states, calls) && states[0] == t && states[|calls|] == u;
    ReachesChains(s, states, calls, |calls|);
  }

  /** A run of requests is a schedule of lawful calls, and ends well-formed. */
  lemma {:induction false} RunIsLawful(s: System, requests: seq<Request>)
    requires WellFormed(s)
    ensures Reaches(s, Run(s, requests)) && WellFormed(Run(s, requests))
    decreases |requests|
  {
    ReachesSelf(s);
    if requests != [] {
      var t := Handle(s, requests[0]).0;
      HandlerIsLawful(s, requests[0]);
      RunIsLawful(t, requests[1..]);
      ReachesIsTransitive(s, t, Run(t, requests[1..]));
    }
  }
}
