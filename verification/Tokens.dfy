/**
 Signing and admitting tokens. Presenting a token is naming the id of a signed one;
 an id that was never signed stands for a bad signature.
 */
module Tokens {
  import opened Basics
  import opened Model

  const ACCESS_TTL: nat := 15 * MINUTE
  const CHALLENGE_TTL: nat := 5 * MINUTE
  const DEFAULT_IMPERSONATION_TTL: nat := 30 * MINUTE
  const MAX_IMPERSONATION_TTL: nat := 30 * MINUTE
  const BLACKLIST_RING: nat := 2 * ACCESS_TTL

  datatype AuthError =
    | NoToken
    | InvalidToken
    | TokenExpired
    | InvalidTokenType
    | InvalidAudience
    | ForeignIdentity
    | MissingIdentity
    | TokenRevoked
    | SessionRevoked
    | UserNotFound
    | AccountDisabled
    | NotImpersonating

  datatype Verdict<+T> = Ok(value: T) | Err(error: AuthError)

  // ---- signing ----

  function ClampImpersonationTtl(ttl: int): (r: nat)
    ensures 0 < r <= MAX_IMPERSONATION_TTL
    ensures 0 < ttl ==> r <= ttl
    ensures 0 < ttl <= MAX_IMPERSONATION_TTL ==> r == ttl
  {
    if ttl <= 0 then DEFAULT_IMPERSONATION_TTL
    else if ttl > MAX_IMPERSONATION_TTL then MAX_IMPERSONATION_TTL
    else ttl
  }

  function AccessClaims(owner: Principal, row: Option<nat>, at: Instant): Claims {
    match owner
    case Tenant(u) => Claims(Some(u), None, None, NoAudience, Access, false, None, row, Unix(at), Unix(at + ACCESS_TTL))
    case Backoffice(a) => Claims(None, None, Some(a), BackofficeAudience, Access, false, None, row, Unix(at), Unix(at + ACCESS_TTL))
  }

  function ChallengeClaims(owner: Principal, tenant: nat, at: Instant): Claims {
    match owner
    case Tenant(u) => Claims(Some(u), Some(tenant), None, NoAudience, MfaChallenge, false, None, None, Unix(at), Unix(at + CHALLENGE_TTL))
    case Backoffice(a) => Claims(None, None, Some(a), BackofficeAudience, BackofficeMfaChallenge, false, None, None, Unix(at), Unix(at + CHALLENGE_TTL))
  }

  /** The claims each signing function stamps, at the moment it signs. */
  function ClaimsFor(g: Grant, at: Instant): Claims {
    match g
    case Session(owner, row, _) => AccessClaims(owner, Some(row), at)
    case Challenge(owner, tenant) => ChallengeClaims(owner, tenant, at)
    case Impersonation(target, tenant, operator, _, ttl) =>
      Claims(Some(target), Some(tenant), None, NoAudience, Access, true, Some(operator), None, Unix(at), Unix(at + ttl))
    case Restored(operator, _, row) => AccessClaims(Backoffice(operator), row, at)
  }

  // ---- reading the claims ----

  predicate AreImpersonation(c: Claims) {
    c.imp && c.impersonatorId.Some?
  }

  /** Claim checks of the tenant access path, before the blacklist is asked. */
  function TenantClaims(c: Claims, now: Instant): Verdict<nat> {
    if c.exp <= Unix(now) then Err(TokenExpired)
    else if c.tokenType != Access then Err(InvalidTokenType)
    else if c.audience == BackofficeAudience then Err(InvalidAudience)
    else if c.adminId.Some? then Err(ForeignIdentity)
    else if c.userId.None? then Err(MissingIdentity)
    else Ok(c.userId.value)
  }

  /** Claim checks of the back-office gate, before the blacklist is asked. */
  function BackofficeClaims(c: Claims, now: Instant): Verdict<nat> {
    if c.exp <= Unix(now) then Err(TokenExpired)
    else if c.audience != BackofficeAudience then Err(InvalidAudience)
    else if c.adminId.None? then Err(MissingIdentity)
    else if c.userId.Some? then Err(ForeignIdentity)
    else if c.tokenType != Access then Err(InvalidTokenType)
    else Ok(c.adminId.value)
  }

  /** The tenant step-2 parser: user and tenant of a tenant challenge. */
  function MfaClaims(c: Claims, now: Instant): Verdict<(nat, nat)> {
    if c.exp <= Unix(now) then Err(TokenExpired)
    else if c.tokenType != MfaChallenge then Err(InvalidTokenType)
    else if c.userId.None? || c.tenantId.None? then Err(MissingIdentity)
    else Ok((c.userId.value, c.tenantId.value))
  }

  /** The back-office step-2 parser: operator of a back-office challenge. */
  function BackofficeMfaClaims(c: Claims, now: Instant): Verdict<nat> {
    if c.exp <= Unix(now) then Err(TokenExpired)
    else if c.audience != BackofficeAudience then Err(InvalidAudience)
    else if c.tokenType != BackofficeMfaChallenge then Err(InvalidTokenType)
    else if c.adminId.None? then Err(MissingIdentity)
    else Ok(c.adminId.value)
  }

  // ---- the blacklist ----

  predicate IsBlacklisted(s: System, jti: nat) {
    jti in s.revoked && s.now <= s.revoked[jti]
  }

  function BlacklistedSince(s: System, p: Principal): Option<nat> {
    if p in s.cutoffs && s.now <= s.cutoffs[p].until then Some(s.cutoffs[p].since) else None
  }

  predicate CutOff(s: System, p: Principal, iat: nat) {
    BlacklistedSince(s, p).Some? && iat < BlacklistedSince(s, p).value
  }

  // ---- the gates in front of the handlers ----

  function AdmitTenant(s: System, bearer: Option<nat>): Verdict<nat> {
    if bearer.None? then Err(NoToken)
    else if bearer.value !in s.minted then Err(InvalidToken)
    else
      var c := s.minted[bearer.value].claims;
      var v := TenantClaims(c, s.now);
      if v.Err? then v
      else if IsBlacklisted(s, bearer.value) then Err(TokenRevoked)
      else if CutOff(s, Tenant(v.value), c.iat) then Err(SessionRevoked)
      else if v.value !in s.users then Err(UserNotFound)
      else if !s.users[v.value].active then Err(AccountDisabled)
      else v
  }

  function AdmitBackoffice(s: System, bearer: Option<nat>): Verdict<nat> {
    if bearer.None? then Err(NoToken)
    else if bearer.value !in s.minted then Err(InvalidToken)
    else
      var c := s.minted[bearer.value].claims;
      var v := BackofficeClaims(c, s.now);
      if v.Err? then v
      else if IsBlacklisted(s, bearer.value) then Err(TokenRevoked)
      else if CutOff(s, Backoffice(v.value), c.iat) then Err(SessionRevoked)
      else if v.value !in s.operators then Err(UserNotFound)
      else if !s.operators[v.value].active then Err(AccountDisabled)
      else v
  }

  /** The wider gate in front of the impersonation banner: either plane's caller. */
  function AdmitBackofficeOrImpersonating(s: System, bearer: Option<nat>): Verdict<Principal> {
    if bearer.None? then Err(NoToken)
    else if bearer.value !in s.minted then Err(InvalidToken)
    else
      var c := s.minted[bearer.value].claims;
      if c.exp <= Unix(s.now) then Err(TokenExpired)
      else if c.audience == BackofficeAudience then
        var v := AdmitBackoffice(s, bearer);
        if v.Err? then Err(v.error) else Ok(Backoffice(v.value))
      else if !AreImpersonation(c) then Err(NotImpersonating)
      else if IsBlacklisted(s, bearer.value) then Err(TokenRevoked)
      else if c.userId.Some? && CutOff(s, Tenant(c.userId.value), c.iat) then Err(SessionRevoked)
      else if c.userId.None? then Err(MissingIdentity)
      else if c.userId.value !in s.users then Err(UserNotFound)
      else if !s.users[c.userId.value].active then Err(AccountDisabled)
      else Ok(Tenant(c.userId.value))
  }

  function ParseMfaToken(s: System, token: nat): Verdict<(nat, nat)> {
    if token !in s.minted then Err(InvalidToken) else MfaClaims(s.minted[token].claims, s.now)
  }

  function ParseBackofficeMfaToken(s: System, token: nat): Verdict<nat> {
    if token !in s.minted then Err(InvalidToken) else BackofficeMfaClaims(s.minted[token].claims, s.now)
  }

  /** Tolerates an expired token, nothing else; the refresh endpoint asks this. */
  predicate BearerIsImpersonation(s: System, bearer: Option<nat>) {
    bearer.Some? && bearer.value in s.minted && s.minted[bearer.value].claims.imp
  }

  /** The self-validation of the end endpoint: a signed impersonation token, expired or not. */
  function ParseImpersonationEnd(s: System, bearer: Option<nat>): Verdict<(nat, nat)> {
    if bearer.None? || bearer.value !in s.minted then Err(InvalidToken)
    else
      var c := s.minted[bearer.value].claims;
      if !AreImpersonation(c) then Err(InvalidToken) else Ok((bearer.value, c.impersonatorId.value))
  }

  /** Which bearer the back-office logout may revoke: its own plane's tokens, expired or not. */
  predicate IsBackofficeBearer(s: System, bearer: Option<nat>) {
    && bearer.Some?
    && bearer.value in s.minted
    && s.minted[bearer.value].claims.audience == BackofficeAudience
    && s.minted[bearer.value].claims.adminId.Some?
  }

  // ---- what the parsers tell apart ----

  /** The back-office gate reads exactly the two grants that carry an operator's own session. */
  lemma BackofficeGateReadsSessions(g: Grant, at: Instant, now: Instant, a: nat)
    ensures BackofficeClaims(ClaimsFor(g, at), now) == Ok(a) <==>
            && Unix(now) < ClaimsFor(g, at).exp
            && ((g.Session? && g.owner == Backoffice(a)) || (g.Restored? && g.operator == a))
  {
  }

  lemma TenantGateReadsSessions(g: Grant, at: Instant, now: Instant, u: nat)
    ensures TenantClaims(ClaimsFor(g, at), now) == Ok(u) <==>
            && Unix(now) < ClaimsFor(g, at).exp
            && ((g.Session? && g.owner == Tenant(u)) || (g.Impersonation? && g.target == u))
  {
  }

  lemma StepTwoReadsItsOwnChallenge(g: Grant, at: Instant, now: Instant, u: nat, t: nat, a: nat)
    ensures MfaClaims(ClaimsFor(g, at), now) == Ok((u, t)) <==>
            Unix(now) < ClaimsFor(g, at).exp && g == Challenge(Tenant(u), t)
    ensures BackofficeMfaClaims(ClaimsFor(g, at), now) == Ok(a) <==>
            Unix(now) < ClaimsFor(g, at).exp && g.Challenge? && g.owner == Backoffice(a)
  {
  }

  /** A token lives at most the impersonation ceiling, measured in whole seconds. */
  lemma LifetimeBound(g: Grant, at: Instant)
    requires g.Impersonation? ==> g.ttl <= MAX_IMPERSONATION_TTL
    ensures ClaimsFor(g, at).exp <= ClaimsFor(g, at).iat + Unix(MAX_IMPERSONATION_TTL)
    ensures ClaimsFor(g, at).exp * SECOND <= at + MAX_IMPERSONATION_TTL
  {
  }
}
