/**
 What a response says about the state it leaves: cookie, row and claims agree, no session
 comes into being without its cookie being handed out, and what ended stays ended.
 */
module Responses {
  import opened Basics
  import opened Model
  import opened Tokens
  import opened Registries
  import opened Schedules
  import opened Revocation
  import opened Issue
  import opened Auth
  import AuthMfa
  import AuthMagicLink
  import opened BackofficeAuth
  import opened AdminUsers
  import opened Runs
  import opened Frames
  import opened Sessions
  import opened SessionSafety

  function LiveRows(s: System): set<nat> {
    set id | id in s.rows && !s.rows[id].revoked
  }

  /** The account a session's claims name. */
  predicate Names(c: Claims, owner: Principal) {
    match owner
    case Tenant(u) => c.userId == Some(u) && c.adminId.None?
    case Backoffice(a) => c.adminId == Some(a) && c.userId.None?
  }

  /** The cookie hashes to the live row that the token's rti names, and both are the same account's. */
  ghost predicate Agree(t: System, cookie: nat, token: nat, owner: Principal) {
    && token in t.minted
    && t.minted[token].claims.rti.Some?
    && var id := t.minted[token].claims.rti.value;
    && id in t.rows && !t.rows[id].revoked && t.rows[id].owner == owner
    && FindByHash(t.rows, owner, Hash(cookie)) == Some(id)
    && Names(t.minted[token].claims, owner)
    && AdmittedAs(t, token, owner)
  }

  /** What a response promises, given the state the request found. */
  ghost predicate Honest(s: System, answer: Outcome) {
    var t := answer.0;
    match answer.1
    case SignedIn(cookie, token) =>
      && s.next <= cookie && token !in s.minted
      && exists owner :: UserActive(s, owner) && Agree(t, cookie, token, owner)
           && LiveRows(t) <= LiveRows(s) + {t.minted[token].claims.rti.value}
    case Refused(InternalError) => LiveRows(t) == LiveRows(s)
    case _ => LiveRows(t) <= LiveRows(s)
  }

  // ---- the pieces ----

  lemma NeverSigned(s: System, j: nat)
    requires TokensSound(s) && s.next <= j
    ensures j !in s.minted
  {
    assert forall k :: k in s.minted ==> TokenSound(s, k);
  }

  lemma FreshTokenOpens(s: System, owner: Principal, row: nat, opening: Opening)
    requires WellFormed(s) && UserActive(s, owner)
    ensures AdmittedAs(Mint(s, Session(owner, row, opening)), s.next, owner)
  {
    var t := Mint(s, Session(owner, row, opening));
    NeverSigned(s, s.next);
    assert Unix(s.now) < Unix(s.now + ACCESS_TTL);
    assert !IsBlacklisted(t, s.next) && !CutOff(t, owner, Unix(s.now));
  }

  /** Storing the row and signing the token: the two agree, and the token works at once. */
  lemma SessionAgrees(s: System, owner: Principal, opening: Opening)
    requires WellFormed(s) && UserActive(s, owner)
    ensures var (t, resp) := SessionFor(s, owner, opening, AllWorks);
      resp.SignedIn? && Agree(t, resp.cookie, resp.token, owner) && t.minted[resp.token].claims.rti == Some(s.next)
  {
    var stored := CreateRow(s, owner, opening);
    CallKeepsWellFormed(s, CCreateRow(owner, opening));
    FreshTokenOpens(stored, owner, s.next, opening);
    StoredRowAgrees(stored, owner, s.next, opening);
  }

  /** Signing a token for a stored row. */
  lemma StoredRowAgrees(s: System, owner: Principal, row: nat, opening: Opening)
    requires RowsFresh(s.rows, s.next) && row in s.rows && !s.rows[row].revoked && s.rows[row].owner == owner
    requires AdmittedAs(Mint(s, Session(owner, row, opening)), s.next, owner)
    ensures var t := Mint(s, Session(owner, row, opening));
      forall cookie :: s.rows[row].hash == Hash(cookie) ==> Agree(t, cookie, s.next, owner)
  {
    FoundByHash(s.rows, s.next, row, owner);
  }

  lemma SessionIsHonest(s0: System, s: System, owner: Principal, opening: Opening, infra: Infra)
    requires s.rows == s0.rows && s0.next <= s.next && s.minted == s0.minted
    requires WellFormed(s) && UserActive(s, owner) && UserActive(s0, owner)
    ensures Honest(s0, SessionFor(s, owner, opening, infra))
  {
    var (t, resp) := SessionFor(s, owner, opening, infra);
    if infra.AllWorks? {
      SessionAgrees(s, owner, opening);
      NeverSigned(s, resp.token);
    } else {
      assert LiveRows(t) == LiveRows(s0);
    }
  }

  lemma ChallengeIsHonest(s0: System, s: System, p: Principal, tenant: nat, infra: Infra)
    requires s.rows == s0.rows
    ensures Honest(s0, ChallengeFor(s, p, tenant, infra))
  {
  }

  lemma FirstFactorIsHonest(s0: System, s: System, u: nat, means: Means, infra: Infra)
    requires s.rows == s0.rows && s0.next <= s.next && s.minted == s0.minted && s.users == s0.users
    requires WellFormed(s) && UserActive(s, Tenant(u))
    ensures Honest(s0, AfterFirstFactor(s, u, means, infra))
  {
    if MfaEnabled(s, Tenant(u)) {
      ChallengeIsHonest(s0, s, Tenant(u), s.users[u].tenant, infra);
    } else {
      SessionIsHonest(s0, s, Tenant(u), NewOpening(s, Tenant(u), means), infra);
    }
  }

  /** Taking another row back does not disturb the agreement. */
  lemma StillAgrees(s: System, next: nat, id: nat, cookie: nat, token: nat, owner: Principal)
    requires Agree(s, cookie, token, owner) && RowsFresh(s.rows, next) && s.minted[token].claims.rti != Some(id)
    requires s.rows[s.minted[token].claims.rti.value].hash == Hash(cookie)
    ensures Agree(RevokeById(s, owner, id), cookie, token, owner)
  {
    FoundByHash(WithoutRow(s.rows, owner, id), next, s.minted[token].claims.rti.value, owner);
  }

  lemma RotationAgrees(s: System, id: nat)
    requires WellFormed(s) && id in s.rows && UserActive(s, s.rows[id].owner)
    ensures var (t, resp) := RotationOf(s, id, AllWorks);
      && resp.SignedIn? && Agree(t, resp.cookie, resp.token, s.rows[id].owner)
      && t.minted[resp.token].claims.rti == Some(s.next)
  {
    var row := s.rows[id];
    var (issued, resp) := SessionFor(s, row.owner, row.opening, AllWorks);
    SessionAgrees(s, row.owner, row.opening);
    StillAgrees(issued, issued.next, id, resp.cookie, resp.token, row.owner);
  }

  /** Rotation hands out the new row and takes back the old one; a failed one takes back the new. */
  lemma RotationIsHonest(s: System, id: nat, infra: Infra)
    requires WellFormed(s) && id in s.rows && !s.rows[id].revoked && UserActive(s, s.rows[id].owner)
    ensures Honest(s, RotationOf(s, id, infra))
    ensures infra.AllWorks? ==> LiveRows(RotationOf(s, id, infra).0) == LiveRows(s) - {id} + {s.next}
  {
    var row := s.rows[id];
    if infra.AllWorks? {
      var (t, resp) := RotationOf(s, id, AllWorks);
      assert t.rows == WithoutRow(CreateRow(s, row.owner, row.opening).rows, row.owner, id);
      assert LiveRows(t) == LiveRows(s) - {id} + {s.next};
      RotationAgrees(s, id);
      NeverSigned(s, resp.token);
    } else {
      SessionIsHonest(s, s, row.owner, row.opening, infra);
    }
  }

  lemma FactorTakenLed(s: System, p: Principal, f: Option<Factor>, challenge: nat)
    requires WellFormed(s) && challenge in s.minted
    ensures var t := BlacklistToken(WithoutFactor(s, p, f), challenge, s.minted[challenge].claims.exp * SECOND);
      WellFormed(t) && t == s.(mfa := t.mfa, spent := t.spent, revoked := t.revoked)
  {
    ReachesSelf(s);
    FactorLed(s, s, p, f);
    AuthMfa.FactorStillDue(s, p, f);
    BlacklistLed(s, WithoutFactor(s, p, f), challenge);
    StaysWellFormed(s, BlacklistToken(WithoutFactor(s, p, f), challenge, s.minted[challenge].claims.exp * SECOND));
  }

  lemma StepTwoIsHonest(s: System, p: Principal, challenge: nat, totp: Option<TotpCode>, backup: Option<nat>, infra: Infra)
    requires WellFormed(s) && challenge in s.minted && UserActive(s, p)
    ensures Honest(s, AuthMfa.StepTwo(s, p, challenge, totp, backup, infra))
  {
    if MfaEnabled(s, p) && FactorOf(s, p, totp, backup).Some? {
      var f := FactorOf(s, p, totp, backup);
      var used := BlacklistToken(WithoutFactor(s, p, f), challenge, s.minted[challenge].claims.exp * SECOND);
      FactorTakenLed(s, p, f, challenge);
      SessionIsHonest(s, used, p, NewOpening(used, p, SecondStep(challenge, f.value)), infra);
    }
  }

  // ---- every response ----

  lemma LoginIsHonest(s: System, user: Option<nat>, passwordOk: bool, locked: bool, infra: Infra)
    requires WellFormed(s)
    ensures Honest(s, LoginOutcome(s, user, passwordOk, locked, infra))
  {
    if user.Some? && UserActive(s, Tenant(user.value)) {
      FirstFactorIsHonest(s, s, user.value, Password, infra);
    }
  }

  lemma OperatorLoginIsHonest(s: System, user: Option<nat>, passwordOk: bool, locked: bool, infra: Infra)
    requires WellFormed(s)
    ensures Honest(s, BackofficeLoginOutcome(s, user, passwordOk, locked, infra))
  {
    if user.Some? && UserActive(s, Backoffice(user.value)) {
      var p := Backoffice(user.value);
      ChallengeIsHonest(s, s, p, 0, infra);
      SessionIsHonest(s, s, p, NewOpening(s, p, Password), infra);
    }
  }

  lemma LoginMfaIsHonest(s: System, challenge: nat, totp: Option<TotpCode>, backup: Option<nat>, locked: bool, infra: Infra)
    requires WellFormed(s)
    ensures Honest(s, AuthMfa.LoginMfaOutcome(s, challenge, totp, backup, locked, infra))
  {
    if ParseMfaToken(s, challenge).Ok? {
      var p := Tenant(ParseMfaToken(s, challenge).value.0);
      if UserActive(s, p) {
        StepTwoIsHonest(s, p, challenge, totp, backup, infra);
      }
    }
  }

  lemma OperatorLoginMfaIsHonest(s: System, challenge: nat, totp: Option<TotpCode>, backup: Option<nat>, locked: bool, infra: Infra)
    requires WellFormed(s)
    ensures Honest(s, BackofficeLoginMfaOutcome(s, challenge, totp, backup, locked, infra))
  {
    if ParseBackofficeMfaToken(s, challenge).Ok? {
      var p := Backoffice(ParseBackofficeMfaToken(s, challenge).value);
      if UserActive(s, p) {
        StepTwoIsHonest(s, p, challenge, totp, backup, infra);
      }
    }
  }

  lemma LinkVerifyIsHonest(s: System, link: nat, tenant: nat, locked: bool, infra: Infra)
    requires WellFormed(s)
    ensures Honest(s, AuthMagicLink.VerifyOutcome(s, link, tenant, locked, infra))
  {
    if Claimable(s, link) {
      var u := s.links[link].user;
      var (t, resp) := AuthMagicLink.VerifyOutcome(s, link, tenant, locked, infra);
      if UserActive(s, Tenant(u)) && s.links[link].tenant == tenant && !locked {
        LinkBurntLed(s, link, u);
        FirstFactorIsHonest(s, DeleteLinksOf(MarkClaimed(s, link), u), u, MagicLink(link), infra);
      } else {
        assert t == MarkClaimed(s, link) && t.rows == s.rows;
        assert resp.Refused? && resp.why != InternalError;
      }
    }
  }

  lemma RefreshIsHonest(s: System, cookie: Cookie, bearer: Option<nat>, infra: Infra)
    requires WellFormed(s)
    ensures Honest(s, RefreshOutcome(s, cookie, bearer, infra))
  {
    if cookie.Value? {
      var found := FindByHash(s.rows, ANY_TENANT, Hash(cookie.raw));
      if found.Some? && !s.rows[found.value].revoked && UserActive(s, s.rows[found.value].owner) {
        RotationIsHonest(s, found.value, infra);
      }
    }
  }

  lemma OperatorRefreshIsHonest(s: System, cookie: Option<nat>, originOk: bool, infra: Infra)
    requires WellFormed(s)
    ensures Honest(s, BackofficeRefreshOutcome(s, cookie, originOk, infra))
  {
    if cookie.Some? {
      var found := FindByHash(s.rows, ANY_OPERATOR, Hash(cookie.value));
      if found.Some? && !s.rows[found.value].revoked && UserActive(s, s.rows[found.value].owner) {
        RotationIsHonest(s, found.value, infra);
      }
    }
  }

  lemma OthersDoNotSignIn(s: System, r: Request)
    requires !MaySignIn(r)
    ensures !Handle(s, r).1.SignedIn?
    ensures Handle(s, r).1 == Refused(InternalError) ==> Handle(s, r).0.rows == s.rows
  {
  }

  lemma ShrunkIsHonest(s: System, answer: Outcome)
    requires Shrinks(s.rows, answer.0.rows) && !answer.1.SignedIn?
    requires answer.1 == Refused(InternalError) ==> answer.0.rows == s.rows
    ensures Honest(s, answer)
  {
  }

  lemma TenantSignInIsHonest(s: System, r: Request)
    requires WellFormed(s) && (r.Login? || r.LoginMfa? || r.Refresh? || r.LinkVerify?)
    ensures Honest(s, Handle(s, r))
  {
    match r
    case Login(user, passwordOk, locked, infra) => LoginIsHonest(s, user, passwordOk, locked, infra);
    case LoginMfa(challenge, totp, backup, locked, infra) => LoginMfaIsHonest(s, challenge, totp, backup, locked, infra);
    case Refresh(cookie, bearer, infra) => RefreshIsHonest(s, cookie, bearer, infra);
    case LinkVerify(link, tenant, locked, infra) => LinkVerifyIsHonest(s, link, tenant, locked, infra);
  }

  lemma OperatorStepOneIsHonest(s: System, r: Request)
    requires WellFormed(s) && r.OperatorLogin?
    ensures Honest(s, Handle(s, r))
  {
    OperatorLoginIsHonest(s, r.user, r.passwordOk, r.locked, r.infra);
  }

  lemma OperatorStepTwoIsHonest(s: System, r: Request)
    requires WellFormed(s) && r.OperatorLoginMfa?
    ensures Honest(s, Handle(s, r))
  {
    OperatorLoginMfaIsHonest(s, r.challenge, r.totp, r.backup, r.locked, r.infra);
  }

  lemma OperatorRotationIsHonest(s: System, r: Request)
    requires WellFormed(s) && r.OperatorRefresh?
    ensures Honest(s, Handle(s, r))
  {
    OperatorRefreshIsHonest(s, r.operatorCookie, r.originOk, r.infra);
  }

  /**
   Every answer of every handler. A session is answered with a fresh cookie that hashes to the
   one new live row, which the access token's rti names, for the same active account, and the
   token passes that account's gate at once. Any other answer leaves no row live that was not;
   one that failed on the way leaves exactly the live rows it found.
   */
  lemma EveryResponseIsHonest(s: System, r: Request)
    requires WellFormed(s)
    ensures Honest(s, Handle(s, r))
  {
    if r.Login? || r.LoginMfa? || r.Refresh? || r.LinkVerify? {
      TenantSignInIsHonest(s, r);
    } else if r.OperatorLogin? {
      OperatorStepOneIsHonest(s, r);
    } else if r.OperatorLoginMfa? {
      OperatorStepTwoIsHonest(s, r);
    } else if r.OperatorRefresh? {
      OperatorRotationIsHonest(s, r);
    } else {
      HandlerShrinks(s, r);
      OthersDoNotSignIn(s, r);
      ShrunkIsHonest(s, Handle(s, r));
    }
  }

  /** The cookie as a browser credential is accepted exactly when a refresh with it would succeed, and for the same account. */
  lemma BrowserAgreesWithRefresh(s: System, cookie: Cookie, u: nat)
    requires WellFormed(s)
    ensures BrowserUser(s, cookie, None) == Some(u) <==>
      && RefreshOutcome(s, cookie, None, AllWorks).1.SignedIn?
      && cookie.Value?
      && s.rows[FindByHash(s.rows, ANY_TENANT, Hash(cookie.raw)).value].owner == Tenant(u)
  {
  }
}
