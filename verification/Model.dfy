/**
 The data both identity planes share: accounts, refresh rows, second factors,
 sign-in links, signed tokens, the blacklist and the impersonation slots.

 Identifiers, cookie values, one-time codes and token ids are numbers drawn from
 one counter, `System.next`: that is what "random and never repeated" comes to.
 Fields marked (history) are read by no handler; the statements are about them.
 */
module Model {
  import opened Basics

  /** An account of one of the two planes. `Backoffice(a)` also stands for the blacklist key `backoffice:<a>`. */
  datatype Principal = Tenant(id: nat) | Backoffice(id: nat)

  datatype TenantUser = TenantUser(tenant: nat, active: bool, systemAdmin: bool)

  datatype Role = PlatformAdmin | SupportAgent

  datatype BackofficeUser = BackofficeUser(active: bool, role: Role, mfaEnforced: bool)

  /** SHA-256 of a refresh cookie value, idealised as injective. */
  datatype Hash = Hash(raw: nat)

  /** What one accepted second factor used up, in one incarnation of an MFA row. */
  datatype Factor =
    | TotpStep(incarnation: nat, step: int)
    | BackupCode(incarnation: nat, code: nat)

  /** How a family of refresh rows was opened. `challenge` is the id of the step-1 token. */
  datatype Means =
    | Password
    | MagicLink(link: nat)
    | SecondStep(challenge: nat, factor: Factor)

  /** The login a refresh row descends from (history). */
  datatype Opening = Opening(id: nat, at: Instant, factorDue: bool, means: Means)

  datatype Row = Row(
    owner: Principal,
    hash: Hash,
    createdAt: Instant,
    expiresAt: Instant,
    revoked: bool,
    opening: Opening)

  /** One row of user_mfa_secrets or backoffice_user_mfa_secrets; its list was issued as `issued` codes
   numbered from `firstCode` (history). */
  datatype MfaRow = MfaRow(
    incarnation: nat,
    secret: nat,
    enabled: bool,
    codes: seq<nat>,
    lastStep: int,
    firstCode: nat,
    issued: nat)

  datatype Link = Link(user: nat, tenant: nat, expiresAt: Instant, claimed: bool)

  datatype Cutoff = Cutoff(since: nat, until: Instant)

  datatype Slot = Slot(operator: nat, cookie: Option<nat>, target: nat, expiresAt: Instant)

  datatype TokenType = Access | MfaChallenge | BackofficeMfaChallenge

  datatype Audience = NoAudience | BackofficeAudience

  /** The claims of a signed token; a claim that is not stamped is None or NoAudience. */
  datatype Claims = Claims(
    userId: Option<nat>,
    tenantId: Option<nat>,
    adminId: Option<nat>,
    audience: Audience,
    tokenType: TokenType,
    imp: bool,
    impersonatorId: Option<nat>,
    rti: Option<nat>,
    iat: nat,
    exp: nat)

  /** Why a token was signed: one constructor per signing function of the two planes. */
  datatype Grant =
    | Session(owner: Principal, row: nat, opening: Opening)
    | Challenge(owner: Principal, tenant: nat)
    | Impersonation(target: nat, tenant: nat, operator: nat, bearer: nat, ttl: nat)
    | Restored(operator: nat, impersonation: nat, rti: Option<nat>)

  /** A signed token; `grant` and `at` are (history). */
  datatype Token = Token(claims: Claims, grant: Grant, at: Instant)

  datatype System = System(
    now: Instant,
    next: nat,
    users: map<nat, TenantUser>,
    operators: map<nat, BackofficeUser>,
    rows: map<nat, Row>,
    mfa: map<Principal, MfaRow>,
    spent: set<Factor>,
    links: map<nat, Link>,
    revoked: map<nat, Instant>,
    cutoffs: map<Principal, Cutoff>,
    minted: map<nat, Token>,
    slots: map<nat, Slot>)
}
