/** What the handlers of both planes share: responses, opening a session, rotating one, using up a factor. */
module Issue {
  import opened Basics
  import opened Model
  import opened Tokens
  import opened Registries
  import opened Stores

  /** Which of the two steps of minting a session breaks, if any. */
  datatype Infra = AllWorks | RowNotStored | TokenNotSigned

  datatype Refusal =
    | AuthFailed(error: AuthError)
    | BadRequest
    | AccountLocked
    | InvalidCredentials
    | UserDisabled
    | ImpersonationCannotRefresh
    | RefreshTokenRequired
    | InvalidRefreshToken
    | RefreshExpiredOrRevoked
    | UserMissingOrInactive
    | InvalidOrigin
    | InvalidMfaToken
    | InvalidCode
    | MfaAlreadyEnabled
    | MfaNotImplemented
    | InvalidLink
    | NotFound
    | SelfBlock
    | AdminNeedsForce
    | RoleRequired
    | RateLimited
    | TargetIsAdmin
    | TargetBlocked
    | NoActiveImpersonation
    | InternalError

  datatype Response =
    | Accepted
    | SignedIn(cookie: nat, token: nat)
    | MfaRequired(challenge: nat)
    | Impersonating(token: nat)
    | OperatorRestored(token: nat, replanted: Option<nat>)
    | Refused(why: Refusal)

  type Outcome = (System, Response)

  /** Whether this account's next session has to come out of step 2. */
  predicate FactorDue(s: System, p: Principal) {
    match p
    case Tenant(u) => MfaEnabled(s, p)
    case Backoffice(a) => a in s.operators && s.operators[a].mfaEnforced
  }

  function NewOpening(s: System, owner: Principal, means: Means): Opening {
    Opening(s.next, s.now, FactorDue(s, owner), means)
  }

  /** Store a row, sign its access token, and take the row back if signing fails. */
  function SessionFor(s: System, owner: Principal, opening: Opening, infra: Infra): Outcome {
    var stored := CreateRow(s, owner, opening);
    match infra
    case RowNotStored => (s, Refused(InternalError))
    case TokenNotSigned => (RevokeById(stored, owner, s.next), Refused(InternalError))
    case AllWorks => (Mint(stored, Session(owner, s.next, opening)), SignedIn(s.next + 1, s.next + 2))
  }

  method IssueSession(db: Database, owner: Principal, opening: Opening, infra: Infra) returns (resp: Response)
    modifies db
    ensures (db.View(), resp) == SessionFor(old(db.View()), owner, opening, infra)
  {
    if infra.RowNotStored? {
      return Refused(InternalError);
    }
    var rti, raw := db.Create(owner, opening);
    if infra.TokenNotSigned? {
      db.RevokeByID(owner, rti);
      return Refused(InternalError);
    }
    var token := db.Sign(Session(owner, rti, opening));
    return SignedIn(raw, token);
  }

  /** Rotation: the new row first, then the token, then the consumed row is revoked. */
  function RotationOf(s: System, id: nat, infra: Infra): Outcome
    requires id in s.rows
  {
    var row := s.rows[id];
    var (issued, resp) := SessionFor(s, row.owner, row.opening, infra);
    (if infra.AllWorks? then RevokeById(issued, row.owner, id) else issued, resp)
  }

  method RotateSession(db: Database, id: nat, infra: Infra) returns (resp: Response)
    requires id in db.rows
    modifies db
    ensures (db.View(), resp) == RotationOf(old(db.View()), id, infra)
  {
    var row := db.rows[id];
    resp := IssueSession(db, row.owner, row.opening, infra);
    if infra.AllWorks? {
      db.RevokeByID(row.owner, id);
    }
  }

  /** Sign the step-1 challenge. */
  function ChallengeFor(s: System, p: Principal, tenant: nat, infra: Infra): Outcome {
    if infra.TokenNotSigned? then (s, Refused(InternalError))
    else (Mint(s, Challenge(p, tenant)), MfaRequired(s.next))
  }

  method IssueChallenge(db: Database, p: Principal, tenant: nat, infra: Infra) returns (resp: Response)
    modifies db
    ensures (db.View(), resp) == ChallengeFor(old(db.View()), p, tenant, infra)
  {
    if infra.TokenNotSigned? {
      return Refused(InternalError);
    }
    var token := db.Sign(Challenge(p, tenant));
    return MfaRequired(token);
  }

  // ---- one-time codes ----

  const TOTP_PERIOD: nat := 30

  /** A time-based code: a function of the secret and the time step, idealised as injective. */
  datatype TotpCode = TotpCode(secret: nat, step: int)

  /** The step a code verifies for: within one step of the current one, on the right secret. */
  function MatchedStep(secret: nat, code: TotpCode, now: Instant): Option<int> {
    var base := Unix(now) / TOTP_PERIOD;
    if code.secret == secret && base - 1 <= code.step <= base + 1 then Some(code.step) else None
  }

  method MatchTotpStep(secret: nat, code: TotpCode, now: Instant) returns (matched: Option<int>)
    ensures matched == MatchedStep(secret, code, now)
  {
    var base := Unix(now) / TOTP_PERIOD;
    var delta := -1;
    while delta <= 1
      invariant -1 <= delta <= 2
      invariant code.secret == secret ==> !(base - 1 <= code.step < base + delta)
    {
      if code == TotpCode(secret, base + delta) {
        return Some(base + delta);
      }
      delta := delta + 1;
    }
    return None;
  }

  predicate TotpWins(s: System, p: Principal, totp: Option<TotpCode>)
    requires p in s.mfa
  {
    totp.Some? &&
    var m := MatchedStep(s.mfa[p].secret, totp.value, s.now);
    m.Some? && StepWins(s, p, m.value)
  }

  /** The factor a request uses up: its time code if that verifies and wins, else its backup code, else none. */
  function FactorOf(s: System, p: Principal, totp: Option<TotpCode>, backup: Option<nat>): Option<Factor>
    requires p in s.mfa
  {
    if TotpWins(s, p, totp) then Some(TotpStep(s.mfa[p].incarnation, totp.value.step))
    else if backup.Some? && CodeMatches(s, p, backup.value) then Some(BackupCode(s.mfa[p].incarnation, backup.value))
    else None
  }

  function WithoutFactor(s: System, p: Principal, f: Option<Factor>): System {
    match f
    case None => s
    case Some(TotpStep(_, step)) => MarkStep(s, p, step)
    case Some(BackupCode(_, code)) => ConsumeCode(s, p, code)
  }

  /** consumeAnyMFACode / consumeBackofficeMFACode. */
  method ConsumeAnyCode(db: Database, p: Principal, totp: Option<TotpCode>, backup: Option<nat>) returns (used: Option<Factor>)
    requires p in db.mfa
    modifies db
    ensures used == FactorOf(old(db.View()), p, totp, backup)
    ensures db.View() == WithoutFactor(old(db.View()), p, used)
  {
    var incarnation := db.mfa[p].incarnation;
    if totp.Some? {
      var step := MatchTotpStep(db.mfa[p].secret, totp.value, db.now);
      if step.Some? {
        var won := db.MarkTOTPStepUsedAtomic(p, step.value);
        if won {
          return Some(TotpStep(incarnation, step.value));
        }
      }
    }
    if backup.Some? {
      var matched := db.ConsumeBackupCodeAtomic(p, backup.value);
      if matched {
        return Some(BackupCode(incarnation, backup.value));
      }
    }
    return None;
  }
}
