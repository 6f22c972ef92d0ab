/**
 Which guard each refusal stands for, in the words of `Answers`: the guards are disjoint, so a
 caller can tell from the answer what was wrong, and from no answer more than that. Refused
 requests change nothing, with the exceptions named.
 */
module Refusals {
  import opened Basics
  import opened Model
  import opened Tokens
  import opened Registries
  import opened Revocation
  import opened Issue
  import opened Answers
  import opened Auth
  import AuthMfa
  import AuthMagicLink
  import opened BackofficeAuth
  import opened AdminUsers
  import opened AdminImpersonation

  // ---- the gates ----

  /** The user a token opens the tenant plane as. */
  function NamedUser(g: Grant): Option<nat> {
    match g
    case Session(Tenant(u), _, _) => Some(u)
    case Impersonation(target, _, _, _, _) => Some(target)
    case _ => None
  }

  /** The operator a token opens the back office as. */
  function NamedOperator(g: Grant): Option<nat> {
    match g
    case Session(Backoffice(a), _, _) => Some(a)
    case Restored(operator, _, _) => Some(operator)
    case _ => None
  }

  predicate OfTenantPlane(g: Grant) {
    NamedUser(g).Some? || (g.Challenge? && g.owner.Tenant?)
  }

  predicate IsOperatorChallenge(g: Grant) {
    g.Challenge? && g.owner.Backoffice?
  }

  predicate Signed(s: System, bearer: Option<nat>) {
    bearer.Some? && bearer.value in s.minted
  }

  predicate Unexpired(s: System, bearer: Option<nat>) {
    Signed(s, bearer) && Unix(s.now) < s.minted[bearer.value].claims.exp
  }

  predicate OnBlacklist(s: System, j: nat) {
    j in s.revoked && s.now <= s.revoked[j]
  }

  lemma TenantGateRefusals(s: System, bearer: Option<nat>)
    requires TokensSound(s)
    ensures var v := AdmitTenant(s, bearer);
      && (v == Err(NoToken) <==> bearer.None?)
      && (v == Err(InvalidToken) <==> bearer.Some? && bearer.value !in s.minted)
      && (v == Err(TokenExpired) <==> Signed(s, bearer) && s.minted[bearer.value].claims.exp <= Unix(s.now))
      && (v == Err(InvalidTokenType) <==> Unexpired(s, bearer) && s.minted[bearer.value].grant.Challenge?)
      && (v == Err(InvalidAudience) <==> Unexpired(s, bearer) && NamedOperator(s.minted[bearer.value].grant).Some?)
      && (Unexpired(s, bearer) && NamedUser(s.minted[bearer.value].grant).Some? ==>
            var j := bearer.value; var u := NamedUser(s.minted[j].grant).value;
            var cut := CutAfter(s, Tenant(u), s.minted[j].claims.iat);
            && (v == Err(TokenRevoked) <==> OnBlacklist(s, j))
            && (v == Err(SessionRevoked) <==> !OnBlacklist(s, j) && cut)
            && (v == Err(UserNotFound) <==> !OnBlacklist(s, j) && !cut && u !in s.users)
            && (v == Err(AccountDisabled) <==> !OnBlacklist(s, j) && !cut && u in s.users && !s.users[u].active))
  {
    if Signed(s, bearer) {
      assert TokenSound(s, bearer.value);
    }
  }

  lemma OperatorGateRefusals(s: System, bearer: Option<nat>)
    requires TokensSound(s)
    ensures var v := AdmitBackoffice(s, bearer);
      && (v == Err(NoToken) <==> bearer.None?)
      && (v == Err(InvalidToken) <==> bearer.Some? && bearer.value !in s.minted)
      && (v == Err(TokenExpired) <==> Signed(s, bearer) && s.minted[bearer.value].claims.exp <= Unix(s.now))
      && (v == Err(InvalidAudience) <==> Unexpired(s, bearer) && OfTenantPlane(s.minted[bearer.value].grant))
      && (v == Err(InvalidTokenType) <==> Unexpired(s, bearer) && IsOperatorChallenge(s.minted[bearer.value].grant))
      && (Unexpired(s, bearer) && NamedOperator(s.minted[bearer.value].grant).Some? ==>
            var j := bearer.value; var a := NamedOperator(s.minted[j].grant).value;
            var cut := CutAfter(s, Backoffice(a), s.minted[j].claims.iat);
            && (v == Err(TokenRevoked) <==> OnBlacklist(s, j))
            && (v == Err(SessionRevoked) <==> !OnBlacklist(s, j) && cut)
            && (v == Err(UserNotFound) <==> !OnBlacklist(s, j) && !cut && a !in s.operators)
            && (v == Err(AccountDisabled) <==> !OnBlacklist(s, j) && !cut && a in s.operators && !s.operators[a].active))
  {
    if Signed(s, bearer) {
      assert TokenSound(s, bearer.value);
    }
  }

  // ---- step 1 ----

  /** An unknown account and a wrong password are told the same; a disabled account is told only with the right password. */
  lemma LoginRefusals(s: System, user: Option<nat>, passwordOk: bool, locked: bool)
    ensures var (t, resp) := LoginOutcome(s, user, passwordOk, locked, AllWorks);
      var proven := !locked && passwordOk && user.Some? && user.value in s.users;
      && (resp == Refused(AccountLocked) <==> locked)
      && (resp == Refused(InvalidCredentials) <==> !locked && !proven)
      && (resp == Refused(UserDisabled) <==> proven && !ActiveUser(s, user.value))
  {
  }

  /** An unknown operator, a disabled one and a wrong password are told the same; an enforced one without a factor is told. */
  lemma OperatorLoginRefusals(s: System, user: Option<nat>, passwordOk: bool, locked: bool)
    ensures var (t, resp) := BackofficeLoginOutcome(s, user, passwordOk, locked, AllWorks);
      && (resp == Refused(AccountLocked) <==> locked)
      && (resp == Refused(InvalidCredentials) <==> !locked && !OperatorPasswordServes(s, user, passwordOk, locked))
      && (resp == Refused(MfaNotImplemented) <==>
            OperatorPasswordServes(s, user, passwordOk, locked)
            && s.operators[user.value].mfaEnforced && !HasSecondFactor(s, Backoffice(user.value)))
  {
  }

  predicate Unclaimed(s: System, link: nat) {
    link in s.links && !s.links[link].claimed && s.now <= s.links[link].expiresAt
  }

  /** A refused link is claimed all the same if it could be, and nothing else changes. */
  lemma LinkVerifyRefusals(s: System, link: nat, tenant: nat, locked: bool)
    ensures var (t, resp) := AuthMagicLink.VerifyOutcome(s, link, tenant, locked, AllWorks);
      var own := Unclaimed(s, link) && s.links[link].tenant == tenant && s.links[link].user in s.users;
      && (resp == Refused(InvalidLink) <==> !own)
      && (resp == Refused(UserDisabled) <==> own && !ActiveUser(s, s.links[link].user))
      && (resp == Refused(AccountLocked) <==> own && ActiveUser(s, s.links[link].user) && locked)
      && (resp.Refused? ==>
            t == if Unclaimed(s, link) then s.(links := s.links[link := s.links[link].(claimed := true)]) else s)
  {
  }

  // ---- step 2 ----

  /** The challenge serves this active user, in the tenant it was signed for. */
  predicate ChallengeServes(s: System, challenge: nat, u: nat) {
    ChallengeOf(s, challenge, Tenant(u)) && ActiveUser(s, u) && s.users[u].tenant == s.minted[challenge].grant.tenant
  }

  predicate OperatorChallengeServes(s: System, challenge: nat, a: nat) {
    ChallengeOf(s, challenge, Backoffice(a)) && ActiveOperator(s, a)
  }

  predicate WrongFactor(s: System, p: Principal, totp: Option<TotpCode>, backup: Option<nat>) {
    HasSecondFactor(s, p) && !FactorServes(s, p, totp, backup)
  }

  lemma StepTwoRefusals(s: System, p: Principal, challenge: nat, totp: Option<TotpCode>, backup: Option<nat>)
    requires challenge in s.minted
    ensures var (t, resp) := AuthMfa.StepTwo(s, p, challenge, totp, backup, AllWorks);
      && (resp == Refused(InvalidMfaToken) <==> !HasSecondFactor(s, p))
      && (resp == Refused(InvalidCode) <==> WrongFactor(s, p, totp, backup))
      && (resp.SignedIn? || resp == Refused(InvalidMfaToken) || resp == Refused(InvalidCode))
      && (resp.Refused? ==> t == s)
  {
    if HasSecondFactor(s, p) {
      FactorExactly(s, p, totp, backup);
    }
  }

  lemma LoginMfaRefusals(s: System, challenge: nat, totp: Option<TotpCode>, backup: Option<nat>, locked: bool)
    requires TokensSound(s)
    ensures var (t, resp) := AuthMfa.LoginMfaOutcome(s, challenge, totp, backup, locked, AllWorks);
      var coded := totp.Some? || backup.Some?;
      && (resp == Refused(BadRequest) <==> !coded)
      && (resp == Refused(InvalidMfaToken) <==>
            coded && forall u :: ChallengeServes(s, challenge, u) ==> !locked && !HasSecondFactor(s, Tenant(u)))
      && (resp == Refused(AccountLocked) <==> coded && locked && exists u :: ChallengeServes(s, challenge, u))
      && (resp == Refused(InvalidCode) <==>
            coded && !locked && exists u :: ChallengeServes(s, challenge, u) && WrongFactor(s, Tenant(u), totp, backup))
      && (resp.Refused? ==> t == s)
  {
    if challenge in s.minted {
      assert TokenSound(s, challenge);
      if ParseMfaToken(s, challenge).Ok? {
        var u := ParseMfaToken(s, challenge).value.0;
        assert ChallengeOf(s, challenge, Tenant(u));
        StepTwoRefusals(s, Tenant(u), challenge, totp, backup);
      }
    }
  }

  lemma OperatorLoginMfaRefusals(s: System, challenge: nat, totp: Option<TotpCode>, backup: Option<nat>, locked: bool)
    requires TokensSound(s)
    ensures var (t, resp) := BackofficeLoginMfaOutcome(s, challenge, totp, backup, locked, AllWorks);
      var coded := totp.Some? || backup.Some?;
      && (resp == Refused(BadRequest) <==> !coded)
      && (resp == Refused(InvalidMfaToken) <==>
            coded && forall a :: OperatorChallengeServes(s, challenge, a) ==> !locked && !HasSecondFactor(s, Backoffice(a)))
      && (resp == Refused(AccountLocked) <==> coded && locked && exists a :: OperatorChallengeServes(s, challenge, a))
      && (resp == Refused(InvalidCode) <==>
            coded && !locked && exists a :: OperatorChallengeServes(s, challenge, a) && WrongFactor(s, Backoffice(a), totp, backup))
      && (resp.Refused? ==> t == s)
  {
    if challenge in s.minted {
      assert TokenSound(s, challenge);
      if ParseBackofficeMfaToken(s, challenge).Ok? {
        var a := ParseBackofficeMfaToken(s, challenge).value;
        assert ChallengeOf(s, challenge, Backoffice(a));
        StepTwoRefusals(s, Backoffice(a), challenge, totp, backup);
      }
    }
  }

  // ---- refresh ----

  /** A row of this plane with this cookie's hash. */
  ghost predicate IsCookieOf(s: System, raw: nat, tenant: bool, id: nat) {
    id in s.rows && s.rows[id].hash == Hash(raw) && s.rows[id].owner.Tenant? == tenant
  }

  ghost predicate CookieOver(s: System, raw: nat, tenant: bool, id: nat) {
    IsCookieOf(s, raw, tenant, id) && (s.rows[id].revoked || s.rows[id].expiresAt <= s.now)
  }

  ghost predicate CookieCut(s: System, raw: nat, tenant: bool, id: nat) {
    && IsCookieOf(s, raw, tenant, id) && !CookieOver(s, raw, tenant, id)
    && (!AccountActive(s, s.rows[id].owner) || RowCut(s, s.rows[id]))
  }

  ghost predicate CookieRevoked(s: System, raw: nat, id: nat) {
    IsCookieOf(s, raw, true, id) && s.rows[id].revoked
  }

  /** The rows with exactly those of this owner revoked, and nothing else changed. */
  ghost predicate OnlyOwnerRevoked(s: System, t: System, owner: Principal) {
    && t == s.(rows := t.rows) && t.rows.Keys == s.rows.Keys
    && forall id :: id in s.rows ==> t.rows[id] == RevokedIf(s.rows[id], s.rows[id].owner == owner)
  }

  function Plane(tenant: bool): Principal {
    if tenant then ANY_TENANT else ANY_OPERATOR
  }

  /** The lookup finds the one row there is. */
  lemma CookieFound(s: System, tenant: bool, raw: nat)
    requires WellFormed(s)
    ensures var found := FindByHash(s.rows, Plane(tenant), Hash(raw));
      && (found.Some? ==> IsCookieOf(s, raw, tenant, found.value))
      && (found.Some? ==> (CookieOver(s, raw, tenant, found.value) <==> s.rows[found.value].revoked || s.rows[found.value].expiresAt <= s.now))
      && (forall id: nat :: IsCookieOf(s, raw, tenant, id) ==> found == Some(id))
  {
    forall id: nat | IsCookieOf(s, raw, tenant, id) ensures FindByHash(s.rows, Plane(tenant), Hash(raw)) == Some(id) {
      FoundByHash(s.rows, s.next, id, Plane(tenant));
    }
  }

  /** The answers about a found row, as answers about the row there is. */
  lemma CookieStates(s: System, tenant: bool, raw: nat)
    requires WellFormed(s)
    ensures var found := FindByHash(s.rows, Plane(tenant), Hash(raw));
      && (found.None? <==> forall id: nat :: !IsCookieOf(s, raw, tenant, id))
      && ((exists id: nat :: CookieOver(s, raw, tenant, id)) <==> found.Some? && CookieOver(s, raw, tenant, found.value))
      && ((exists id: nat :: CookieCut(s, raw, tenant, id)) <==> found.Some? && CookieCut(s, raw, tenant, found.value))
  {
    CookieFound(s, tenant, raw);
  }

  lemma RefreshRefusals(s: System, cookie: Cookie, bearer: Option<nat>)
    requires WellFormed(s)
    ensures var resp := RefreshOutcome(s, cookie, bearer, AllWorks).1; var own := !Borrows(s, bearer) && !cookie.ImpersonationMarker?;
      && (resp == Refused(ImpersonationCannotRefresh) <==> !own)
      && (resp == Refused(RefreshTokenRequired) <==> own && cookie.NoCookie?)
      && (own && cookie.Value? ==> var raw := cookie.raw;
            && (resp == Refused(InvalidRefreshToken) <==> forall id: nat :: !IsCookieOf(s, raw, true, id))
            && (resp == Refused(RefreshExpiredOrRevoked) <==> exists id: nat :: CookieOver(s, raw, true, id))
            && (resp == Refused(UserMissingOrInactive) <==> exists id: nat :: CookieCut(s, raw, true, id)))
  {
    if bearer.Some? {
      ImpersonationTokensAreRecognised(s, bearer.value);
    }
    if cookie.Value? {
      CookieFound(s, true, cookie.raw);
      CookieStates(s, true, cookie.raw);
    }
  }

  /** Of the refusals only that of a revoked cookie has consequences: every row of its owner is revoked. */
  lemma RefusedRefreshExactly(s: System, cookie: Cookie, bearer: Option<nat>)
    requires WellFormed(s) && RefreshOutcome(s, cookie, bearer, AllWorks).1.Refused?
    ensures var t := RefreshOutcome(s, cookie, bearer, AllWorks).0;
      var replay := !Borrows(s, bearer) && cookie.Value? && exists id: nat :: CookieRevoked(s, cookie.raw, id);
      && (!replay ==> t == s)
      && (replay ==> exists id: nat :: CookieRevoked(s, cookie.raw, id) && OnlyOwnerRevoked(s, t, s.rows[id].owner))
  {
    if bearer.Some? {
      ImpersonationTokensAreRecognised(s, bearer.value);
    }
    if cookie.Value? {
      CookieFound(s, true, cookie.raw);
      var found := FindByHash(s.rows, ANY_TENANT, Hash(cookie.raw));
      if found.Some? && s.rows[found.value].revoked {
        assert CookieRevoked(s, cookie.raw, found.value);
        OwnerRevoked(s, s.rows[found.value].owner);
      }
    }
  }

  lemma OwnerRevoked(s: System, owner: Principal)
    ensures OnlyOwnerRevoked(s, RevokeByOwner(s, owner), owner)
  {
  }

  /** A revoked operator cookie is only refused. */
  lemma OperatorRefreshRefusals(s: System, cookie: Option<nat>, originOk: bool)
    requires WellFormed(s)
    ensures var resp := BackofficeRefreshOutcome(s, cookie, originOk, AllWorks).1;
      && (resp == Refused(InvalidOrigin) <==> !originOk)
      && (resp == Refused(RefreshTokenRequired) <==> originOk && cookie.None?)
      && (originOk && cookie.Some? ==> var raw := cookie.value;
            && (resp == Refused(InvalidRefreshToken) <==> forall id: nat :: !IsCookieOf(s, raw, false, id))
            && (resp == Refused(RefreshExpiredOrRevoked) <==> exists id: nat :: CookieOver(s, raw, false, id))
            && (resp == Refused(UserMissingOrInactive) <==> exists id: nat :: CookieCut(s, raw, false, id)))
  {
    if cookie.Some? {
      CookieFound(s, false, cookie.value);
      CookieStates(s, false, cookie.value);
    }
  }

  // ---- behind the gate ----

  /** Not let through the gate, and told why. */
  predicate GateRefused(v: Verdict<nat>, resp: Response) {
    v.Err? && resp == Refused(AuthFailed(v.error))
  }

  lemma EnrollmentRefusals(s: System, bearer: Option<nat>, code: TotpCode)
    ensures var v, setup := AdmitTenant(s, bearer), AuthMfa.SetupOutcome(s, bearer).1;
      var verify, regenerate := AuthMfa.VerifyOutcome(s, bearer, code).1, AuthMfa.RegenerateOutcome(s, bearer, code).1;
      && (v.Err? ==> GateRefused(v, setup) && GateRefused(v, verify) && GateRefused(v, regenerate))
      && (v.Ok? ==> var p := Tenant(v.value); var pending := p in s.mfa && !s.mfa[p].enabled;
            && (setup == Refused(MfaAlreadyEnabled) <==> HasSecondFactor(s, p))
            && (verify == Refused(BadRequest) <==> !pending)
            && (verify == Refused(InvalidCode) <==> pending && !CodeIsGood(s, p, code))
            && (regenerate == Refused(BadRequest) <==> !HasSecondFactor(s, p))
            && (regenerate == Refused(InvalidCode) <==> HasSecondFactor(s, p) && !CodeWins(s, p, code)))
  {
    VerifyExactly(s, bearer, code);
    RegenerateExactly(s, bearer, code);
  }

  lemma DisableRefusals(s: System, bearer: Option<nat>, passwordOk: bool, totp: Option<TotpCode>, backup: Option<nat>)
    ensures var v, resp := AdmitTenant(s, bearer), AuthMfa.DisableOutcome(s, bearer, passwordOk, totp, backup).1;
      && (v.Err? ==> GateRefused(v, resp))
      && (v.Ok? ==> var p := Tenant(v.value);
            && (resp == Refused(InvalidCredentials) <==> !passwordOk)
            && (resp == Refused(InvalidCode) <==> passwordOk && HasSecondFactor(s, p) && !FactorServes(s, p, totp, backup)))
  {
    DisableExactly(s, bearer, passwordOk, totp, backup);
  }

  /** An unforced block of an already blocked system admin is accepted. */
  lemma BlockRefusals(s: System, bearer: Option<nat>, u: nat, wellFormed: bool, force: bool)
    ensures var v := AdmitBackoffice(s, bearer);
      var block, unblock := BlockOutcome(s, bearer, u, wellFormed, force).1, UnblockOutcome(s, bearer, u, wellFormed).1;
      && (v.Err? ==> GateRefused(v, block) && GateRefused(v, unblock))
      && (v.Ok? ==> var known := wellFormed && u in s.users;
            && (block == Refused(BadRequest) <==> !wellFormed)
            && (block == Refused(NotFound) <==> wellFormed && u !in s.users)
            && (block == Refused(SelfBlock) <==> known && u == v.value)
            && (block == Refused(AdminNeedsForce) <==> known && u != v.value && s.users[u].active && s.users[u].systemAdmin && !force)
            && (unblock == Refused(BadRequest) <==> !wellFormed)
            && (unblock == Refused(NotFound) <==> wellFormed && u !in s.users))
  {
  }

  /** A target that is both blocked and an admin is refused as an admin. */
  lemma StartRefusals(s: System, bearer: Option<nat>, cookie: Option<nat>, u: nat, ttl: int, limited: bool)
    ensures var v, resp := AdmitBackoffice(s, bearer), StartOutcome(s, bearer, cookie, u, ttl, limited, AllWorks).1;
      && (v.Err? ==> GateRefused(v, resp))
      && (v.Ok? ==> var allowed := s.operators[v.value].role.PlatformAdmin?; var known := allowed && !limited && u in s.users;
            && (resp == Refused(RoleRequired) <==> !allowed)
            && (resp == Refused(RateLimited) <==> allowed && limited)
            && (resp == Refused(NotFound) <==> allowed && !limited && u !in s.users)
            && (resp == Refused(TargetIsAdmin) <==> known && s.users[u].systemAdmin)
            && (resp == Refused(TargetBlocked) <==> known && !s.users[u].systemAdmin && !s.users[u].active))
  {
  }

  /** A token that is no impersonation is invalid; an operator who is gone still leaves the impersonation ended. */
  lemma EndRefusals(s: System, bearer: Option<nat>)
    requires TokensSound(s) && SlotsSound(s)
    ensures var (t, resp) := EndOutcome(s, bearer, AllWorks); var borrowed := Borrows(s, bearer);
      && (resp == Refused(AuthFailed(InvalidToken)) <==> !borrowed)
      && (resp == Refused(NoActiveImpersonation) <==> borrowed && !(bearer.value in s.slots && s.now <= s.slots[bearer.value].expiresAt))
      && (resp == Refused(InternalError) <==>
            borrowed && bearer.value in s.slots && s.now <= s.slots[bearer.value].expiresAt && s.slots[bearer.value].operator !in s.operators)
      && (resp == Refused(InternalError) ==> bearer.value !in t.slots && !TokenLives(t, bearer.value))
      && (resp.Refused? && resp != Refused(InternalError) ==> t == s)
  {
    if bearer.Some? {
      ImpersonationTokensAreRecognised(s, bearer.value);
    }
  }
}
