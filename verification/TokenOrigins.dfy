/**
 Which request signed a token, and what a session token says about the row it names: so an
 operator's tokens lead back to a request in which that operator logged in.
 */
module TokenOrigins {
  import opened Basics
  import opened Model
  import opened Tokens
  import opened Registries
  import opened Schedules
  import opened Revocation
  import opened Issue
  import opened Answers
  import opened Auth
  import AuthMfa
  import AuthMagicLink
  import opened BackofficeAuth
  import opened AdminImpersonation
  import opened Runs
  import opened Frames
  import opened Sessions
  import opened SessionSafety

  // ---- one request ----

  /** The request is of the owner's plane and presents what a session of the owner takes. */
  ghost predicate Presents(s: System, r: Request, owner: Principal) {
    match r
    case Login(user, passwordOk, locked, _) => user.Some? && owner == Tenant(user.value) && PasswordServes(s, user, passwordOk, locked)
    case LoginMfa(challenge, totp, backup, locked, _) =>
      owner.Tenant? && !locked && ActiveUser(s, owner.id) && ChallengeOf(s, challenge, owner) && FactorServes(s, owner, totp, backup)
    case LinkVerify(link, tenant, locked, _) => LinkServes(s, link, tenant, locked) && owner == Tenant(s.links[link].user)
    case Refresh(cookie, bearer, _) => owner.Tenant? && cookie.Value? && !Borrows(s, bearer) && CookieServes(s, cookie.raw, owner)
    case OperatorLogin(user, passwordOk, locked, _) =>
      user.Some? && owner == Backoffice(user.value) && OperatorPasswordServes(s, user, passwordOk, locked)
    case OperatorLoginMfa(challenge, totp, backup, locked, _) =>
      owner.Backoffice? && !locked && ActiveOperator(s, owner.id) && ChallengeOf(s, challenge, owner) && FactorServes(s, owner, totp, backup)
    case OperatorRefresh(cookie, originOk, _) => owner.Backoffice? && originOk && cookie.Some? && CookieServes(s, cookie.value, owner)
    case _ => false
  }

  /** A row of the owner's with this cookie's hash can be rotated. */
  ghost predicate CookieServes(s: System, raw: nat, owner: Principal) {
    exists id :: id in s.rows && s.rows[id].hash == Hash(raw) && s.rows[id].owner == owner && RowServes(s, s.rows[id])
  }

  /** The request presents the first factor of an account that owes a second, and names the account's tenant. */
  predicate PresentsFirst(s: System, r: Request, owner: Principal, tenant: nat) {
    && HasSecondFactor(s, owner)
    && match r
       case Login(user, passwordOk, locked, _) =>
         user.Some? && owner == Tenant(user.value) && PasswordServes(s, user, passwordOk, locked) && tenant == s.users[user.value].tenant
       case LinkVerify(link, t, locked, _) =>
         LinkServes(s, link, t, locked) && owner == Tenant(s.links[link].user) && tenant == s.users[s.links[link].user].tenant
       case OperatorLogin(user, passwordOk, locked, _) =>
         && user.Some? && owner == Backoffice(user.value) && OperatorPasswordServes(s, user, passwordOk, locked)
         && s.operators[user.value].mfaEnforced
       case _ => false
  }

  /** The token names a live row, the account and the login of that row. */
  ghost predicate NamesItsRow(s: System, owner: Principal, row: nat, o: Opening) {
    row in s.rows && !s.rows[row].revoked && s.rows[row].owner == owner && s.rows[row].opening == o
  }

  /** What it takes for the request to sign this token. */
  ghost predicate Signs(s: System, r: Request, t: System, g: Grant) {
    match g
    case Session(owner, row, o) => Presents(s, r, owner) && s.next <= row && NamesItsRow(t, owner, row, o)
    case Challenge(owner, tenant) => PresentsFirst(s, r, owner, tenant)
    case Impersonation(_, _, operator, bearer, _) => r.StartImpersonating? && AdmitBackoffice(s, Some(bearer)) == Ok(operator)
    case Restored(operator, jti, _) => r.EndImpersonating? && jti in s.slots && s.slots[jti].operator == operator
  }

  /** Signed tokens stay, and every new one is signed by this request. */
  ghost predicate SignsOnly(s: System, r: Request, t: System) {
    forall j :: j in t.minted ==> (j in s.minted && t.minted[j] == s.minted[j]) || Signs(s, r, t, t.minted[j].grant)
  }

  /** One more token, signed as the request may. */
  lemma OneMoreSigns(s: System, r: Request, t: System, j: nat, token: Token)
    requires t.minted == s.minted[j := token] && Signs(s, r, t, token.grant)
    ensures SignsOnly(s, r, t)
  {
  }

  lemma SessionSigns(s0: System, s: System, r: Request, owner: Principal, opening: Opening, infra: Infra)
    requires s.minted == s0.minted && s0.next <= s.next && Presents(s0, r, owner)
    ensures SignsOnly(s0, r, SessionFor(s, owner, opening, infra).0)
  {
    var t := SessionFor(s, owner, opening, infra).0;
    if infra.AllWorks? {
      var g := Session(owner, s.next, opening);
      assert NamesItsRow(t, owner, s.next, opening);
      OneMoreSigns(s0, r, t, s.next + 2, Token(ClaimsFor(g, s.now), g, s.now));
    } else {
      assert t.minted == s0.minted;
    }
  }

  lemma RotationSigns(s: System, r: Request, id: nat, infra: Infra)
    requires RowsFresh(s.rows, s.next) && id in s.rows && Presents(s, r, s.rows[id].owner)
    ensures SignsOnly(s, r, RotationOf(s, id, infra).0)
  {
    var row := s.rows[id];
    SessionSigns(s, s, r, row.owner, row.opening, infra);
    var issued := SessionFor(s, row.owner, row.opening, infra).0;
    if infra.AllWorks? {
      RevokedElsewhere(issued, row.owner, id, s.next);
      assert RevokeById(issued, row.owner, id).minted == issued.minted;
    }
  }

  lemma RevokedElsewhere(s: System, owner: Principal, id: nat, row: nat)
    requires row != id && row in s.rows
    ensures row in RevokeById(s, owner, id).rows && RevokeById(s, owner, id).rows[row] == s.rows[row]
  {
  }

  lemma FirstFactorSigns(s0: System, s: System, r: Request, u: nat, means: Means, infra: Infra)
    requires s.minted == s0.minted && s0.next <= s.next && s.users == s0.users && s.mfa == s0.mfa
    requires u in s.users && Presents(s0, r, Tenant(u))
    requires HasSecondFactor(s0, Tenant(u)) ==> PresentsFirst(s0, r, Tenant(u), s.users[u].tenant)
    ensures SignsOnly(s0, r, AfterFirstFactor(s, u, means, infra).0)
  {
    if !MfaEnabled(s, Tenant(u)) {
      SessionSigns(s0, s, r, Tenant(u), NewOpening(s, Tenant(u), means), infra);
    }
  }

  lemma StepTwoSigns(s: System, r: Request, p: Principal, challenge: nat, totp: Option<TotpCode>, backup: Option<nat>, infra: Infra)
    requires challenge in s.minted && (FactorServes(s, p, totp, backup) ==> Presents(s, r, p))
    ensures SignsOnly(s, r, AuthMfa.StepTwo(s, p, challenge, totp, backup, infra).0)
  {
    if MfaEnabled(s, p) && FactorOf(s, p, totp, backup).Some? {
      var f := FactorOf(s, p, totp, backup);
      FactorFrame(s, p, f);
      FactorExactly(s, p, totp, backup);
      var used := BlacklistToken(WithoutFactor(s, p, f), challenge, s.minted[challenge].claims.exp * SECOND);
      SessionSigns(s, used, r, p, NewOpening(used, p, SecondStep(challenge, f.value)), infra);
    }
  }

  lemma LoginSigns(s: System, r: Request, user: Option<nat>, passwordOk: bool, locked: bool, infra: Infra)
    requires r == Login(user, passwordOk, locked, infra)
    ensures SignsOnly(s, r, LoginOutcome(s, user, passwordOk, locked, infra).0)
  {
    if PasswordServes(s, user, passwordOk, locked) {
      FirstFactorSigns(s, s, r, user.value, Password, infra);
    }
  }

  lemma ChallengeSigns(s: System, r: Request, p: Principal, tenant: nat, infra: Infra)
    requires PresentsFirst(s, r, p, tenant)
    ensures SignsOnly(s, r, ChallengeFor(s, p, tenant, infra).0)
  {
  }

  lemma OperatorLoginSigns(s: System, r: Request, user: Option<nat>, passwordOk: bool, locked: bool, infra: Infra)
    requires r == OperatorLogin(user, passwordOk, locked, infra)
    ensures SignsOnly(s, r, BackofficeLoginOutcome(s, user, passwordOk, locked, infra).0)
  {
    if OperatorPasswordServes(s, user, passwordOk, locked) {
      var p := Backoffice(user.value);
      if !s.operators[user.value].mfaEnforced {
        SessionSigns(s, s, r, p, NewOpening(s, p, Password), infra);
      } else if HasSecondFactor(s, p) {
        ChallengeSigns(s, r, p, 0, infra);
      }
    }
  }

  lemma LoginMfaSigns(s: System, r: Request, challenge: nat, totp: Option<TotpCode>, backup: Option<nat>, locked: bool, infra: Infra)
    requires TokensSound(s) && r == LoginMfa(challenge, totp, backup, locked, infra)
    ensures SignsOnly(s, r, AuthMfa.LoginMfaOutcome(s, challenge, totp, backup, locked, infra).0)
  {
    if ParseMfaToken(s, challenge).Ok? && !locked {
      var (u, tenant) := ParseMfaToken(s, challenge).value;
      assert TokenSound(s, challenge);
      StepTwoReadsItsOwnChallenge(s.minted[challenge].grant, s.minted[challenge].at, s.now, u, tenant, 0);
      if ActiveUser(s, u) {
        StepTwoSigns(s, r, Tenant(u), challenge, totp, backup, infra);
      }
    }
  }

  lemma OperatorLoginMfaSigns(s: System, r: Request, challenge: nat, totp: Option<TotpCode>, backup: Option<nat>, locked: bool, infra: Infra)
    requires TokensSound(s) && r == OperatorLoginMfa(challenge, totp, backup, locked, infra)
    ensures SignsOnly(s, r, BackofficeLoginMfaOutcome(s, challenge, totp, backup, locked, infra).0)
  {
    if ParseBackofficeMfaToken(s, challenge).Ok? && !locked {
      var a := ParseBackofficeMfaToken(s, challenge).value;
      assert TokenSound(s, challenge);
      StepTwoReadsItsOwnChallenge(s.minted[challenge].grant, s.minted[challenge].at, s.now, 0, 0, a);
      if ActiveOperator(s, a) {
        StepTwoSigns(s, r, Backoffice(a), challenge, totp, backup, infra);
      }
    }
  }

  lemma RowPresents(s: System, id: nat, raw: nat)
    requires id in s.rows && s.rows[id].hash == Hash(raw) && RowServes(s, s.rows[id])
    ensures CookieServes(s, raw, s.rows[id].owner)
  {
  }

  /** A refresh rotates a row that serves, or signs nothing. */
  lemma RefreshIs(s: System, cookie: Cookie, bearer: Option<nat>, infra: Infra)
    requires TokensSound(s)
    ensures var t := RefreshOutcome(s, cookie, bearer, infra).0;
      t.minted == s.minted ||
      (!Borrows(s, bearer) && cookie.Value? &&
       var found := FindByHash(s.rows, ANY_TENANT, Hash(cookie.raw));
       found.Some? && RowServes(s, s.rows[found.value]) && t == RotationOf(s, found.value, infra).0)
  {
    if bearer.Some? {
      ImpersonationTokensAreRecognised(s, bearer.value);
    }
  }

  lemma RefreshSigns(s: System, r: Request, cookie: Cookie, bearer: Option<nat>, infra: Infra)
    requires RowsFresh(s.rows, s.next) && TokensSound(s) && r == Refresh(cookie, bearer, infra)
    ensures SignsOnly(s, r, RefreshOutcome(s, cookie, bearer, infra).0)
  {
    RefreshIs(s, cookie, bearer, infra);
    if RefreshOutcome(s, cookie, bearer, infra).0.minted != s.minted {
      var id := FindByHash(s.rows, ANY_TENANT, Hash(cookie.raw)).value;
      RowPresents(s, id, cookie.raw);
      RotationSigns(s, r, id, infra);
    }
  }

  lemma OperatorRefreshIs(s: System, cookie: Option<nat>, originOk: bool, infra: Infra)
    ensures var t := BackofficeRefreshOutcome(s, cookie, originOk, infra).0;
      t.minted == s.minted ||
      (originOk && cookie.Some? &&
       var found := FindByHash(s.rows, ANY_OPERATOR, Hash(cookie.value));
       found.Some? && RowServes(s, s.rows[found.value]) && t == RotationOf(s, found.value, infra).0)
  {
  }

  lemma OperatorRefreshSigns(s: System, r: Request, cookie: Option<nat>, originOk: bool, infra: Infra)
    requires RowsFresh(s.rows, s.next) && r == OperatorRefresh(cookie, originOk, infra)
    ensures SignsOnly(s, r, BackofficeRefreshOutcome(s, cookie, originOk, infra).0)
  {
    OperatorRefreshIs(s, cookie, originOk, infra);
    if BackofficeRefreshOutcome(s, cookie, originOk, infra).0.minted != s.minted {
      var id := FindByHash(s.rows, ANY_OPERATOR, Hash(cookie.value)).value;
      RowPresents(s, id, cookie.value);
      RotationSigns(s, r, id, infra);
    }
  }

  lemma LinkVerifySigns(s: System, r: Request, link: nat, tenant: nat, locked: bool, infra: Infra)
    requires r == LinkVerify(link, tenant, locked, infra)
    ensures SignsOnly(s, r, AuthMagicLink.VerifyOutcome(s, link, tenant, locked, infra).0)
  {
    if Claimable(s, link) {
      var claimed, u := MarkClaimed(s, link), s.links[link].user;
      assert claimed == s.(links := claimed.links);
      if LinkServes(s, link, tenant, locked) {
        FirstFactorSigns(s, DeleteLinksOf(claimed, u), r, u, MagicLink(link), infra);
      }
    }
  }

  lemma StartSigns(s: System, r: Request, bearer: Option<nat>, cookie: Option<nat>, u: nat, ttl: int, limited: bool, infra: Infra)
    requires r.StartImpersonating?
    ensures SignsOnly(s, r, StartOutcome(s, bearer, cookie, u, ttl, limited, infra).0)
  {
    if StartProblem(s, bearer, u, limited).None? && !infra.TokenNotSigned? {
      var g := Borrowed(s, bearer, u, ttl);
      FiledFrame(s, g, Slot(g.operator, cookie, u, s.now + g.ttl));
      OneMoreSigns(s, r, StartOutcome(s, bearer, cookie, u, ttl, limited, infra).0, s.next, Token(ClaimsFor(g, s.now), g, s.now));
    }
  }

  lemma EndSigns(s: System, r: Request, bearer: Option<nat>, infra: Infra)
    requires r.EndImpersonating?
    ensures SignsOnly(s, r, EndOutcome(s, bearer, infra).0)
  {
    var v := ParseImpersonationEnd(s, bearer);
    if v.Ok? && SlotLive(s, v.value.0) {
      var slot := s.slots[v.value.0];
      var ended := DeleteSlot(BlacklistToken(s, v.value.0, slot.expiresAt), v.value.0);
      SlotEndedFrame(s, v.value.0, slot.expiresAt, Restored(v.value.1, v.value.0, CapturedRow(ended, slot.cookie)));
    }
  }

  lemma TenantHandlerSigns(s: System, r: Request)
    requires RowsFresh(s.rows, s.next) && TokensSound(s) && (r.Login? || r.LoginMfa? || r.Refresh? || r.LinkVerify?)
    ensures SignsOnly(s, r, Handle(s, r).0)
  {
    match r
    case Login(user, passwordOk, locked, infra) => LoginSigns(s, r, user, passwordOk, locked, infra);
    case LoginMfa(challenge, totp, backup, locked, infra) => LoginMfaSigns(s, r, challenge, totp, backup, locked, infra);
    case Refresh(cookie, bearer, infra) => RefreshSigns(s, r, cookie, bearer, infra);
    case LinkVerify(link, tenant, locked, infra) => LinkVerifySigns(s, r, link, tenant, locked, infra);
  }

  lemma OperatorHandlerSigns(s: System, r: Request)
    requires RowsFresh(s.rows, s.next) && TokensSound(s) && (r.OperatorLogin? || r.OperatorLoginMfa? || r.OperatorRefresh?)
    ensures SignsOnly(s, r, Handle(s, r).0)
  {
    match r
    case OperatorLogin(user, passwordOk, locked, infra) => OperatorLoginSigns(s, r, user, passwordOk, locked, infra);
    case OperatorLoginMfa(challenge, totp, backup, locked, infra) => OperatorLoginMfaSigns(s, r, challenge, totp, backup, locked, infra);
    case OperatorRefresh(cookie, originOk, infra) => OperatorRefreshSigns(s, r, cookie, originOk, infra);
  }

  lemma ImpersonationHandlerSigns(s: System, r: Request)
    requires r.StartImpersonating? || r.EndImpersonating?
    ensures SignsOnly(s, r, Handle(s, r).0)
  {
    match r
    case StartImpersonating(bearer, cookie, u, ttl, limited, infra) => StartSigns(s, r, bearer, cookie, u, ttl, limited, infra);
    case EndImpersonating(bearer, infra) => EndSigns(s, r, bearer, infra);
  }

  /**
   Every new token comes from a request that may sign it: a session token only from a login,
   step 2, link or refresh of its own plane that presents what that very account's session
   takes, for the live row it names; a challenge only from a first factor; an impersonation only from a start by the admitted operator; a restored session
   only from the end of a slot of that operator.
   */
  lemma HandlerSigns(s: System, r: Request)
    requires RowsFresh(s.rows, s.next) && TokensSound(s)
    ensures SignsOnly(s, r, Handle(s, r).0)
  {
    if r.Login? || r.LoginMfa? || r.Refresh? || r.LinkVerify? {
      TenantHandlerSigns(s, r);
    } else if r.OperatorLogin? || r.OperatorLoginMfa? || r.OperatorRefresh? {
      OperatorHandlerSigns(s, r);
    } else if r.StartImpersonating? || r.EndImpersonating? {
      ImpersonationHandlerSigns(s, r);
    } else {
      HandlerFrame(s, r);
    }
  }

  // ---- every run ----

  /** Step i of the run signs token j. */
  ghost predicate SignedAt(s: System, requests: seq<Request>, i: nat, j: nat)
    requires i < |requests|
  {
    var u := Run(s, requests[..i]);
    var t := Handle(u, requests[i]).0;
    j !in u.minted && j in t.minted && Signs(u, requests[i], t, t.minted[j].grant)
  }

  lemma {:induction false} RunUnfolds(s: System, requests: seq<Request>)
    requires requests != []
    ensures Run(s, requests) == Handle(Run(s, requests[..|requests| - 1]), requests[|requests| - 1]).0
    decreases |requests|
  {
    var n := |requests| - 1;
    if n > 0 {
      RunUnfolds(Handle(s, requests[0]).0, requests[1..]);
      assert requests[1..][..n - 1] == requests[..n][1..];
    } else {
      assert requests[1..] == [];
    }
  }

  /** In a run from a state without tokens, every token was signed by one of the requests, and is unchanged since. */
  lemma {:induction false} EveryTokenHasItsRequest(s: System, requests: seq<Request>, j: nat) returns (i: nat)
    requires WellFormed(s) && j in Run(s, requests).minted && j !in s.minted
    ensures i < |requests| && SignedAt(s, requests, i, j)
    ensures Handle(Run(s, requests[..i]), requests[i]).0.minted[j] == Run(s, requests).minted[j]
    decreases |requests|
  {
    var n := |requests| - 1;
    var u := Run(s, requests[..n]);
    RunUnfolds(s, requests);
    RunIsLawful(s, requests[..n]);
    HandlerSigns(u, requests[n]);
    if j in u.minted {
      i := EveryTokenHasItsRequest(s, requests[..n], j);
      assert requests[..n][..i] == requests[..i];
      HandlerIsLawful(u, requests[n]);
      PromiseKept(u, Run(s, requests), TokenIsSigned(j, u.minted[j]));
    } else {
      i := n;
    }
  }

  /** Each session token carries a proven login, and agrees with its row for as long as the row is stored. */
  ghost predicate Backed(s: System, j: nat)
    requires j in s.minted
  {
    match s.minted[j].grant
    case Session(owner, row, o) =>
      && row < s.next && ProvenLogin(s, owner, o)
      && (row in s.rows ==> s.rows[row].owner == owner && s.rows[row].opening == o)
    case _ => true
  }

  ghost predicate AllBacked(s: System) {
    Safe(s) && forall j :: j in s.minted ==> Backed(s, j)
  }

  lemma HandlerKeepsBacked(s: System, r: Request)
    requires AllBacked(s)
    ensures AllBacked(Handle(s, r).0)
  {
    var t := Handle(s, r).0;
    HandlerKeepsSafe(s, r);
    HandlerIsLawful(s, r);
    NextGrows(s, t);
    HandlerSigns(s, r);
    HandlerMovesRows(s, r);
    var c :| Changes(s, t, c);
    forall j | j in t.minted ensures Backed(t, j) {
      if t.minted[j].grant.Session? {
        BackedStays(s, r, t, c, j);
      }
    }
  }

  lemma BackedStays(s: System, r: Request, t: System, c: RowChange, j: nat)
    requires WellFormed(s) && (j in s.minted ==> Backed(s, j))
    requires AllProven(t) && Reaches(s, t) && s.next <= t.next && SignsOnly(s, r, t) && Changes(s, t, c) && WellFormed(t)
    requires j in t.minted && t.minted[j].grant.Session?
    ensures Backed(t, j)
  {
    var g := t.minted[j].grant;
    assert (j in s.minted && t.minted[j] == s.minted[j]) || Signs(s, r, t, g);
    if j in s.minted && t.minted[j] == s.minted[j] {
      OldTokenBacked(s, t, c, g.owner, g.row, g.opening);
    } else {
      NewTokenBacked(t, j);
    }
  }

  lemma NewTokenBacked(t: System, j: nat)
    requires RowsFresh(t.rows, t.next) && AllProven(t) && j in t.minted
    requires var g := t.minted[j].grant; g.Session? && NamesItsRow(t, g.owner, g.row, g.opening)
    ensures Backed(t, j)
  {
    assert Proven(t, t.minted[j].grant.row);
  }

  lemma OldTokenBacked(s: System, t: System, c: RowChange, owner: Principal, row: nat, o: Opening)
    requires WellFormed(s) && Reaches(s, t) && s.next <= t.next && Changes(s, t, c) && row < s.next && ProvenLogin(s, owner, o)
    requires row in s.rows ==> s.rows[row].owner == owner && s.rows[row].opening == o
    ensures ProvenLogin(t, owner, o) && (row in t.rows ==> t.rows[row].owner == owner && t.rows[row].opening == o)
  {
    ProofsLast(s, t, owner, o);
    if row in t.rows {
      RowOrigin(s, t, c, row);
    }
  }

  lemma {:induction false} RunIsBacked(s: System, requests: seq<Request>)
    requires AllBacked(s)
    ensures AllBacked(Run(s, requests))
    decreases |requests|
  {
    if requests != [] {
      HandlerKeepsBacked(s, requests[0]);
      RunIsBacked(Handle(s, requests[0]).0, requests[1..]);
    }
  }

  // ---- the results ----

  /** Following starts and ends of impersonations back to the token they were obtained with. */
  ghost function RootToken(s: System, j: nat): (root: nat)
    requires TokensSound(s) && j in s.minted
    ensures root in s.minted && s.minted[root].grant == Root(s, j)
    decreases j
  {
    assert TokenSound(s, j);
    var g := s.minted[j].grant;
    if g.Impersonation? then RootToken(s, g.bearer)
    else if g.Restored? then RootToken(s, g.impersonation)
    else j
  }

  /** Request i presents what a session of operator a takes, when a is active, and signs this token. */
  ghost predicate LoggedInAt(s: System, requests: seq<Request>, i: nat, a: nat, root: nat) {
    && i < |requests|
    && var u := Run(s, requests[..i]);
       Presents(u, requests[i], Backoffice(a)) && ActiveOperator(u, a) && root !in u.minted && root in Handle(u, requests[i]).0.minted
  }

  /** The token leads back to a session token of operator a, signed in this run, whose login is proven. */
  ghost predicate RestsOnLogin(s: System, requests: seq<Request>, j: nat, a: nat)
    requires TokensSound(Run(s, requests)) && j in Run(s, requests).minted
  {
    var t := Run(s, requests);
    var root := RootToken(t, j);
    && t.minted[root].grant.Session? && t.minted[root].grant.owner == Backoffice(a)
    && ProvenLogin(t, Backoffice(a), t.minted[root].grant.opening)
    && exists i :: LoggedInAt(s, requests, i, a, root)
  }

  lemma OperatorRestsOnLogin(s: System, requests: seq<Request>, j: nat, a: nat)
    requires Initial(s) && j in Run(s, requests).minted && OperatorOfRecord(Run(s, requests).minted[j].grant, a)
    ensures TokensSound(Run(s, requests)) && RestsOnLogin(s, requests, j, a)
  {
    var t := Run(s, requests);
    InitialIsSafe(s);
    RunIsBacked(s, requests);
    RootIsOwnLogin(t, j, a);
    var root := RootToken(t, j);
    assert Backed(t, root);
    var i := EveryTokenHasItsRequest(s, requests, root);
    assert LoggedInAt(s, requests, i, a, root);
  }

  /**
   In every run: a token that passes the back-office gate leads back to a session token of
   that operator, which one of the requests signed, namely a back-office login, step 2 or
   refresh by that operator, then active; and its login is proven.
   */
  lemma GateRestsOnLogin(s: System, requests: seq<Request>, j: nat, a: nat)
    requires Initial(s) && AdmitBackoffice(Run(s, requests), Some(j)) == Ok(a)
    ensures var t := Run(s, requests);
      j in t.minted && IsOperatorSession(t.minted[j].grant, a) && TokensSound(t) && RestsOnLogin(s, requests, j, a)
  {
    InitialIsSafe(s);
    RunIsLawful(s, requests);
    AdmittedOperator(Run(s, requests), Some(j));
    OperatorRestsOnLogin(s, requests, j, a);
  }

  /** The operator was under enforcement at every point of the run. */
  ghost predicate AlwaysEnforced(s: System, requests: seq<Request>, a: nat)
    decreases |requests|
  {
    FactorDue(s, Backoffice(a)) && (requests == [] || AlwaysEnforced(Handle(s, requests[0]).0, requests[1..], a))
  }

  /** Every row and session token of the operator belongs to a login that owed a second factor. */
  ghost predicate AllDue(s: System, a: nat) {
    && (forall id :: id in s.rows && s.rows[id].owner == Backoffice(a) ==> s.rows[id].opening.factorDue)
    && (forall j :: j in s.minted && s.minted[j].grant.Session? && s.minted[j].grant.owner == Backoffice(a) ==>
          s.minted[j].grant.opening.factorDue)
  }

  lemma RowsKeepDue(s: System, t: System, c: RowChange, a: nat)
    requires Changes(s, t, c) && FactorDue(s, Backoffice(a)) && AllDue(s, a)
    ensures forall id :: id in t.rows && t.rows[id].owner == Backoffice(a) ==> t.rows[id].opening.factorDue
  {
    forall id | id in t.rows && t.rows[id].owner == Backoffice(a) ensures t.rows[id].opening.factorDue {
      RowOrigin(s, t, c, id);
    }
  }

  lemma TokensKeepDue(s: System, r: Request, t: System, a: nat)
    requires SignsOnly(s, r, t) && AllDue(s, a)
    requires forall id :: id in t.rows && t.rows[id].owner == Backoffice(a) ==> t.rows[id].opening.factorDue
    ensures AllDue(t, a)
  {
    forall j | j in t.minted && t.minted[j].grant.Session? && t.minted[j].grant.owner == Backoffice(a)
      ensures t.minted[j].grant.opening.factorDue
    {
      assert (j in s.minted && t.minted[j] == s.minted[j]) || Signs(s, r, t, t.minted[j].grant);
    }
  }

  lemma HandlerKeepsDue(s: System, r: Request, a: nat)
    requires WellFormed(s) && FactorDue(s, Backoffice(a)) && AllDue(s, a)
    ensures AllDue(Handle(s, r).0, a)
  {
    var t := Handle(s, r).0;
    HandlerMovesRows(s, r);
    var c :| Changes(s, t, c);
    RowsKeepDue(s, t, c, a);
    HandlerSigns(s, r);
    TokensKeepDue(s, r, t, a);
  }

  lemma {:induction false} RunKeepsDue(s: System, requests: seq<Request>, a: nat)
    requires WellFormed(s) && AlwaysEnforced(s, requests, a) && AllDue(s, a)
    ensures AllDue(Run(s, requests), a)
    decreases |requests|
  {
    if requests != [] {
      HandlerKeepsDue(s, requests[0], a);
      HandlerIsLawful(s, requests[0]);
      RunKeepsDue(Handle(s, requests[0]).0, requests[1..], a);
    }
  }

  /**
   An operator who is under enforcement throughout: whatever token names them as operator,
   their own or one of an impersonation they started, leads back to a login in which they
   used up a second factor.
   */
  lemma EnforcedOperatorUsedAFactor(s: System, requests: seq<Request>, j: nat, a: nat)
    requires Initial(s) && AlwaysEnforced(s, requests, a)
    requires j in Run(s, requests).minted && OperatorOfRecord(Run(s, requests).minted[j].grant, a)
    ensures var t := Run(s, requests);
      && TokensSound(t) && RestsOnLogin(s, requests, j, a)
      && var o := t.minted[RootToken(t, j)].grant.opening;
         o.means.SecondStep? && o.means.factor in t.spent
  {
    InitialIsSafe(s);
    RunKeepsDue(s, requests, a);
    OperatorRestsOnLogin(s, requests, j, a);
  }
}
