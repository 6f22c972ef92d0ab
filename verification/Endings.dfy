/** What ends for good: sessions of a cleared account, a logged-out cookie, a link, an impersonation. */
module Endings {
  import opened Basics
  import opened Model
  import opened Tokens
  import opened Registries
  import opened Schedules
  import opened Revocation
  import opened Issue
  import opened Auth
  import AuthMfa
  import AuthMagicLink
  import opened BackofficeAuth
  import opened AdminUsers
  import opened AdminImpersonation
  import opened Runs
  import opened Frames
  import opened Sessions
  import opened SessionSafety

  // ---- clearing an account ----

  /** Requests after which nothing of the tenant account's earlier sessions may work. */
  ghost predicate Clears(s: System, r: Request, u: nat) {
    match r
    case Block(_, target, _, _) => target == u && Handle(s, r).1.Accepted?
    case ChangePassword(bearer, _) => AdmitTenant(s, bearer) == Ok(u) && Handle(s, r).1.Accepted?
    case MfaDisable(bearer, _, _, _) =>
      AdmitTenant(s, bearer) == Ok(u) && Handle(s, r).1.Accepted? && MfaEnabled(s, Tenant(u))
    case _ => false
  }

  /** No row of the account is live and every token of an earlier second is cut off. */
  ghost predicate Cleared(t: System, u: nat, at: Instant) {
    && (forall id :: id in t.rows && t.rows[id].owner == Tenant(u) ==> t.rows[id].revoked)
    && Holds(t, CutoffAt(Tenant(u), at))
  }

  lemma CascadeClears(s: System, u: nat)
    ensures Cleared(BlockCascade(s, u), u, s.now)
  {
  }

  lemma SessionsEndedClears(s: System, u: nat, bearer: Option<nat>)
    ensures Cleared(AllSessionsEnded(s, u, bearer), u, s.now)
  {
    var revoked := RevokeByOwner(s, Tenant(u));
    assert BlacklistBearer(revoked, bearer).rows == revoked.rows;
    assert BlacklistBearer(revoked, bearer).now == s.now;
  }

  lemma ClearingRequestClears(s: System, r: Request, u: nat)
    requires Clears(s, r, u)
    ensures Cleared(Handle(s, r).0, u, s.now)
  {
    if r.Block? {
      CascadeClears(s, u);
      CascadeClears(PutUser(s, u, s.users[u].(active := false)), u);
    } else if r.ChangePassword? {
      SessionsEndedClears(s, u, r.bearer);
    } else {
      var p := Tenant(u);
      var f := FactorOf(s, p, r.totp, r.backup);
      AuthMfa.FactorStillDue(s, p, f);
      SessionsEndedClears(DeleteMfa(WithoutFactor(s, p, f), p), u, r.bearer);
    }
  }

  /**
   A block, a password change and a disabled second factor clear the account for good: in
   every later state each live row descends from a login opened afterwards, and no token
   stamped in an earlier second passes any gate as that user, unblocked or not.
   */
  lemma ClearedForGood(s: System, r: Request, u: nat, requests: seq<Request>, j: nat)
    requires Safe(s) && Clears(s, r, u)
    ensures var v := Run(Handle(s, r).0, requests);
      && DescendsFrom(v, Tenant(u), s.next, s.now)
      && (j in v.minted && v.minted[j].claims.iat < Unix(s.now) ==> NotAdmittedAs(v, j, Tenant(u)))
  {
    var t := Handle(s, r).0;
    var v := Run(t, requests);
    ClearingRequestClears(s, r, u);
    HandlerIsLawful(s, r);
    HandlerKeepsSafe(s, r);
    NextGrows(s, t);
    RunKeepsDescent(t, requests, Tenant(u), s.next, s.now);
    RunIsLawful(t, requests);
    PromiseKept(t, v, CutoffAt(Tenant(u), s.now));
    if j in v.minted && v.minted[j].claims.iat < Unix(s.now) {
      CutoffRefuses(v, Tenant(u), s.now, j);
    }
  }

  /** The bearer of a password change or a disable is refused ever after, even if stamped in the same second. */
  lemma ClearingBearerIsRefused(s: System, r: Request, u: nat, requests: seq<Request>)
    requires WellFormed(s) && Clears(s, r, u) && (r.ChangePassword? || r.MfaDisable?)
    ensures AdmitTenant(Run(Handle(s, r).0, requests), r.bearer).Err?
  {
    var t := Handle(s, r).0;
    HandlerIsLawful(s, r);
    RunIsLawful(t, requests);
    var before := if r.ChangePassword? then s else DeleteMfa(WithoutFactor(s, Tenant(u), FactorOf(s, Tenant(u), r.totp, r.backup)), Tenant(u));
    if r.MfaDisable? {
      FactorFrame(s, Tenant(u), FactorOf(s, Tenant(u), r.totp, r.backup));
    }
    assert t == AllSessionsEnded(before, u, r.bearer);
    SessionsEndedRevokes(s, before, u, r.bearer.value);
    PromiseKept(t, Run(t, requests), TokenStaysRevoked(r.bearer.value));
    RevokedTokenIsRefused(Run(t, requests), r.bearer.value);
  }

  lemma SessionsEndedRevokes(s: System, before: System, u: nat, bearer: nat)
    requires TokensSound(s) && bearer in s.minted && before.minted == s.minted && before.now == s.now && before.next == s.next
    ensures Holds(AllSessionsEnded(before, u, Some(bearer)), TokenStaysRevoked(bearer))
  {
    var revoked := RevokeByOwner(before, Tenant(u));
    TokensOutlast(s, revoked);
    BearerRevoked(revoked, bearer);
  }

  // ---- logout ----

  /** What a logout with a stored cookie and a signed bearer leaves behind. */
  lemma LogoutLeaves(s: System, raw: nat, bearer: nat)
    requires Safe(s) && FindByHash(s.rows, ANY_TENANT, Hash(raw)).Some? && bearer in s.minted
    ensures var t := LogoutOutcome(s, Value(raw), Some(bearer)).0; var id := FindByHash(s.rows, ANY_TENANT, Hash(raw)).value;
      Holds(t, TokenStaysRevoked(bearer)) && Holds(t, RowStaysRevoked(id)) && Holds(t, RowIs(id, s.rows[id].owner, Hash(raw)))
  {
    var id := FindByHash(s.rows, ANY_TENANT, Hash(raw)).value;
    var signedOut := BlacklistBearer(s, Some(bearer));
    BearerRevoked(s, bearer);
    RowTakenBack(signedOut, s.rows[id].owner, id, bearer, raw);
    LogoutIs(s, raw, Some(bearer));
  }

  /** A logout whose cookie is stored: the bearer goes, then the row. */
  lemma LogoutIs(s: System, raw: nat, bearer: Option<nat>)
    requires FindByHash(s.rows, ANY_TENANT, Hash(raw)).Some?
    ensures var id := FindByHash(s.rows, ANY_TENANT, Hash(raw)).value;
      LogoutOutcome(s, Value(raw), bearer).0 == RevokeById(BlacklistBearer(s, bearer), s.rows[id].owner, id)
  {
    BearerFrame(s, bearer);
  }

  lemma OperatorLogoutIs(s: System, raw: nat, bearer: Option<nat>)
    requires FindByHash(s.rows, ANY_OPERATOR, Hash(raw)).Some? && IsBackofficeBearer(s, bearer)
    ensures var id := FindByHash(s.rows, ANY_OPERATOR, Hash(raw)).value;
      BackofficeLogoutOutcome(s, Some(raw), bearer).0 == RevokeById(BlacklistBearer(s, bearer), s.rows[id].owner, id)
  {
    BearerFrame(s, bearer);
  }

  lemma BearerRevoked(s: System, bearer: nat)
    requires TokensSound(s) && bearer in s.minted
    ensures var t := BlacklistBearer(s, Some(bearer)); Holds(t, TokenStaysRevoked(bearer)) && t == s.(revoked := t.revoked)
  {
    CapIsNeverReached(s, bearer);
    BearerFrame(s, Some(bearer));
  }

  /** Taking a row back once the bearer is revoked. */
  lemma RowTakenBack(s: System, owner: Principal, id: nat, bearer: nat, raw: nat)
    requires Holds(s, TokenStaysRevoked(bearer)) && Holds(s, RowIs(id, owner, Hash(raw)))
    ensures var t := RevokeById(s, owner, id);
      Holds(t, TokenStaysRevoked(bearer)) && Holds(t, RowStaysRevoked(id)) && Holds(t, RowIs(id, owner, Hash(raw)))
  {
  }

  lemma DeadRowIsRefused(t: System, raw: nat, id: nat, owner: Principal, bearer: Option<nat>, infra: Infra)
    requires Holds(t, RowStaysRevoked(id)) && Holds(t, RowIs(id, owner, Hash(raw)))
    ensures RefreshOutcome(t, Value(raw), bearer, infra).1.Refused?
  {
  }

  /** After a logout neither the cookie nor the bearer it was sent with is accepted again, under any schedule. */
  lemma LoggedOutForGood(s: System, raw: nat, bearer: nat, t: System, bearer': Option<nat>, infra: Infra)
    requires Safe(s) && FindByHash(s.rows, ANY_TENANT, Hash(raw)).Some? && bearer in s.minted
    requires Reaches(LogoutOutcome(s, Value(raw), Some(bearer)).0, t)
    ensures RefreshOutcome(t, Value(raw), bearer', infra).1.Refused?
    ensures AdmitTenant(t, Some(bearer)).Err? && AdmitBackoffice(t, Some(bearer)).Err?
    ensures AdmitBackofficeOrImpersonating(t, Some(bearer)).Err?
  {
    var id := FindByHash(s.rows, ANY_TENANT, Hash(raw)).value;
    var u := LogoutOutcome(s, Value(raw), Some(bearer)).0;
    LogoutLed(s, Value(raw), Some(bearer));
    StaysWellFormed(s, u);
    LogoutLeaves(s, raw, bearer);
    PromiseKept(u, t, TokenStaysRevoked(bearer));
    PromiseKept(u, t, RowStaysRevoked(id));
    PromiseKept(u, t, RowIs(id, s.rows[id].owner, Hash(raw)));
    RevokedTokenIsRefused(t, bearer);
    DeadRowIsRefused(t, raw, id, s.rows[id].owner, bearer', infra);
  }

  // ---- sign-in links ----

  lemma VerifyBurnsLink(s: System, link: nat, tenant: nat, locked: bool, infra: Infra)
    requires WellFormed(s) && Claimable(s, link)
    ensures Holds(AuthMagicLink.VerifyOutcome(s, link, tenant, locked, infra).0, LinkStaysBurnt(link))
  {
    var claimed := MarkClaimed(s, link);
    var u := s.links[link].user;
    if u in s.users {
      FirstFactorFrame(DeleteLinksOf(claimed, u), u, MagicLink(link), infra);
    }
  }

  /** A link that could be claimed and was presented is answered InvalidLink ever after: one session or challenge at most. */
  lemma LinkWorksOnce(s: System, link: nat, tenant: nat, locked: bool, infra: Infra, t: System, tenant': nat, locked': bool, infra': Infra)
    requires WellFormed(s) && Claimable(s, link)
    requires Reaches(AuthMagicLink.VerifyOutcome(s, link, tenant, locked, infra).0, t)
    ensures AuthMagicLink.VerifyOutcome(t, link, tenant', locked', infra') == (t, Refused(InvalidLink))
  {
    var u := AuthMagicLink.VerifyOutcome(s, link, tenant, locked, infra).0;
    LinkVerifyLed(s, link, tenant, locked, infra);
    StaysWellFormed(s, u);
    VerifyBurnsLink(s, link, tenant, locked, infra);
    PromiseKept(u, t, LinkStaysBurnt(link));
  }

  // ---- impersonation ----

  /** Over any run an old slot is dropped or kept, never rewritten. */
  lemma {:induction false} RunSlots(s: System, requests: seq<Request>)
    requires WellFormed(s)
    ensures SlotsOnlyDrop(s, Run(s, requests))
    decreases |requests|
  {
    if requests != [] {
      var t := Handle(s, requests[0]).0;
      HandlerFrame(s, requests[0]);
      HandlerIsLawful(s, requests[0]);
      RunSlots(t, requests[1..]);
    }
  }

  /** The request got as far as taking the slot. */
  ghost predicate Ends(s: System, bearer: Option<nat>) {
    && ParseImpersonationEnd(s, bearer).Ok?
    && SlotLive(s, bearer.value)
    && s.slots[bearer.value].operator == ParseImpersonationEnd(s, bearer).value.1
  }

  /** Each start is ended at most once, even if the end failed after taking the slot. */
  lemma EndedAtMostOnce(s: System, bearer: Option<nat>, infra: Infra, requests: seq<Request>, infra': Infra)
    requires WellFormed(s) && Ends(s, bearer)
    ensures var v := Run(EndOutcome(s, bearer, infra).0, requests);
      EndOutcome(v, bearer, infra') == (v, Refused(NoActiveImpersonation))
  {
    var t := EndOutcome(s, bearer, infra).0;
    var v := Run(t, requests);
    var token := s.minted[bearer.value];
    EndImpersonatingLed(s, bearer, infra);
    StaysWellFormed(s, t);
    NextGrows(s, t);
    RunSlots(t, requests);
    RunIsLawful(t, requests);
    assert TokenSound(s, bearer.value);
    PromiseKept(s, t, TokenIsSigned(bearer.value, token));
    PromiseKept(t, v, TokenIsSigned(bearer.value, token));
    assert bearer.value !in t.slots;
  }

  lemma EndTakesSlot(s: System, j: nat, infra: Infra)
    requires Ends(s, Some(j))
    ensures var u := EndOutcome(s, Some(j), infra).0;
      u.now == s.now && u.revoked == BlacklistToken(s, j, s.slots[j].expiresAt).revoked && u.slots == s.slots - {j}
  {
  }

  lemma EndRevokes(s: System, j: nat, infra: Infra)
    requires WellFormed(s) && Ends(s, Some(j))
    ensures Holds(EndOutcome(s, Some(j), infra).0, TokenStaysRevoked(j))
  {
    EndTakesSlot(s, j, infra);
    EndImpersonatingLed(s, Some(j), infra);
    PromiseKept(s, EndOutcome(s, Some(j), infra).0, TokenIsSigned(j, s.minted[j]));
  }

  /** Once ended, the token passes no gate again, under any schedule. */
  lemma EndedIsNeverAdmitted(s: System, j: nat, infra: Infra, t: System)
    requires WellFormed(s) && Ends(s, Some(j)) && Reaches(EndOutcome(s, Some(j), infra).0, t)
    ensures AdmitTenant(t, Some(j)).Err? && AdmitBackoffice(t, Some(j)).Err? && AdmitBackofficeOrImpersonating(t, Some(j)).Err?
  {
    var u := EndOutcome(s, Some(j), infra).0;
    EndImpersonatingLed(s, Some(j), infra);
    StaysWellFormed(s, u);
    EndRevokes(s, j, infra);
    PromiseKept(u, t, TokenStaysRevoked(j));
    RevokedTokenIsRefused(t, j);
  }

  /**
   The session an end restores, in any state any schedule can reach, is that of the very
   operator who started the impersonation, and it is rooted in that operator's own login.
   */
  lemma EndRestoresTheStarter(s: System, t: System, bearer: Option<nat>, infra: Infra)
    requires WellFormed(s) && Reaches(s, t) && EndOutcome(t, bearer, infra).1.OperatorRestored?
    ensures var (u, resp) := EndOutcome(t, bearer, infra);
      && bearer.value in t.minted && t.minted[bearer.value].grant.Impersonation?
      && var operator := t.minted[bearer.value].grant.operator;
      && resp.token in u.minted
      && u.minted[resp.token].claims.adminId == Some(operator)
      && operator in t.operators
      && TokensSound(u) && Root(u, resp.token).Session? && Root(u, resp.token).owner == Backoffice(operator)
  {
    var (u, resp) := EndOutcome(t, bearer, infra);
    StaysWellFormed(s, t);
    EndImpersonatingLed(t, bearer, infra);
    StaysWellFormed(t, u);
    assert TokenSound(t, bearer.value);
    RootIsOwnLogin(u, resp.token, t.minted[bearer.value].grant.operator);
  }

  /** What a start files, and what an end makes of it. */
  lemma StartFiles(s: System, bearer: Option<nat>, cookie: Option<nat>, u: nat, ttl: int)
    requires StartOutcome(s, bearer, cookie, u, ttl, false, AllWorks).1.Impersonating?
    ensures var t := StartOutcome(s, bearer, cookie, u, ttl, false, AllWorks).0;
      && s.next < t.next && s.next in t.slots
      && t.slots[s.next].cookie == cookie && AdmitBackoffice(s, bearer) == Ok(t.slots[s.next].operator)
  {
  }

  lemma EndReadsSlot(s: System, j: nat)
    requires EndOutcome(s, Some(j), AllWorks).1.OperatorRestored?
    ensures var (t, resp) := EndOutcome(s, Some(j), AllWorks);
      && j in s.slots && t.rows == s.rows && resp.token in t.minted
      && resp.replanted == s.slots[j].cookie
      && t.minted[resp.token].claims.adminId == Some(s.slots[j].operator)
      && t.minted[resp.token].claims.rti == CapturedRow(s, s.slots[j].cookie)
  {
  }

  lemma CapturedStays(v: System, raw: nat, id: nat, owner: Principal)
    requires WellFormed(v) && Holds(v, RowIs(id, owner, Hash(raw))) && owner.Backoffice?
    ensures CapturedRow(v, Some(raw)) == if id in v.rows then Some(id) else None
    ensures id in v.rows ==> v.rows[id].owner == owner
  {
    if id in v.rows {
      FoundByHash(v.rows, v.next, id, ANY_OPERATOR);
    }
  }

  /**
   Whose row the restored session rides on. Nothing at the end checks the re-planted cookie;
   its row is the one captured at the start or gone. So the restored token names a row of its
   own operator exactly when the cookie captured at the start was that operator's and is still stored.
   */
  lemma RestoredRowIsCapturedRow(s: System, bearer: Option<nat>, raw: nat, u: nat, ttl: int, requests: seq<Request>)
    requires WellFormed(s) && StartOutcome(s, bearer, Some(raw), u, ttl, false, AllWorks).1.Impersonating?
    requires FindByHash(s.rows, ANY_OPERATOR, Hash(raw)).Some?
    requires var v := Run(StartOutcome(s, bearer, Some(raw), u, ttl, false, AllWorks).0, requests);
      EndOutcome(v, Some(s.next), AllWorks).1.OperatorRestored?
    ensures var v := Run(StartOutcome(s, bearer, Some(raw), u, ttl, false, AllWorks).0, requests);
      var (w, resp) := EndOutcome(v, Some(s.next), AllWorks);
      var captured := FindByHash(s.rows, ANY_OPERATOR, Hash(raw)).value;
      && resp.replanted == Some(raw)
      && resp.token in w.minted
      && var rti := w.minted[resp.token].claims.rti;
      && rti == (if captured in w.rows then Some(captured) else None)
      && (rti.Some? ==>
            (w.minted[resp.token].claims.adminId == Some(w.rows[captured].owner.id) <==>
             AdmitBackoffice(s, bearer) == Ok(s.rows[captured].owner.id)))
  {
    var t := StartOutcome(s, bearer, Some(raw), u, ttl, false, AllWorks).0;
    var v := Run(t, requests);
    var captured := FindByHash(s.rows, ANY_OPERATOR, Hash(raw)).value;
    var owner := s.rows[captured].owner;
    StartImpersonatingLed(s, bearer, Some(raw), u, ttl, false, AllWorks);
    StaysWellFormed(s, t);
    StartFiles(s, bearer, Some(raw), u, ttl);
    RunIsLawful(t, requests);
    RunSlots(t, requests);
    EndReadsSlot(v, s.next);
    PromiseKept(s, t, RowIs(captured, owner, Hash(raw)));
    PromiseKept(t, v, RowIs(captured, owner, Hash(raw)));
    CapturedStays(v, raw, captured, owner);
  }

  /** The cookie still names a row a refresh would rotate. */
  ghost predicate CookieIsGood(v: System, raw: nat) {
    var found := FindByHash(v.rows, ANY_OPERATOR, Hash(raw));
    found.Some? && RowIsGood(v, v.rows[found.value])
  }

  predicate RowIsGood(v: System, row: Row) {
    !row.revoked && v.now < row.expiresAt && UserActive(v, row.owner) && !PredatesCutoff(v, row)
  }

  /**
   The handler takes the re-planted cookie to be valid. It is exactly if, when the end is
   handled, its row is stored, unrevoked and unexpired, and the row's owner is active and not
   cut off since: none of which the handler asks.
   */
  lemma ReplantedCookieWorksExactly(v: System, j: nat, raw: nat)
    requires WellFormed(v) && EndOutcome(v, Some(j), AllWorks).1.OperatorRestored? && v.slots[j].cookie == Some(raw)
    ensures var (w, resp) := EndOutcome(v, Some(j), AllWorks);
      && resp.replanted == Some(raw)
      && (BackofficeRefreshOutcome(w, Some(raw), true, AllWorks).1.SignedIn? <==> CookieIsGood(v, raw))
  {
    var w := EndOutcome(v, Some(j), AllWorks).0;
    EndReadsSlot(v, j);
    EndFrame(v, Some(j), AllWorks);
    RefreshWorksExactly(w, raw);
    assert w.operators == v.operators && w.users == v.users && w.now == v.now && w.cutoffs == v.cutoffs;
  }

  lemma RefreshWorksExactly(w: System, raw: nat)
    ensures BackofficeRefreshOutcome(w, Some(raw), true, AllWorks).1.SignedIn? <==> CookieIsGood(w, raw)
  {
  }

  /** The same over any run from the start, in terms of the row the cookie named when the start captured it. */
  lemma CapturedCookieWorksExactly(s: System, bearer: Option<nat>, raw: nat, u: nat, ttl: int, requests: seq<Request>)
    requires WellFormed(s) && StartOutcome(s, bearer, Some(raw), u, ttl, false, AllWorks).1.Impersonating?
    requires FindByHash(s.rows, ANY_OPERATOR, Hash(raw)).Some?
    requires var v := Run(StartOutcome(s, bearer, Some(raw), u, ttl, false, AllWorks).0, requests);
      EndOutcome(v, Some(s.next), AllWorks).1.OperatorRestored?
    ensures var v := Run(StartOutcome(s, bearer, Some(raw), u, ttl, false, AllWorks).0, requests);
      var w := EndOutcome(v, Some(s.next), AllWorks).0;
      var captured := FindByHash(s.rows, ANY_OPERATOR, Hash(raw)).value;
      BackofficeRefreshOutcome(w, Some(raw), true, AllWorks).1.SignedIn? <==>
        captured in v.rows && v.rows[captured].owner == s.rows[captured].owner && RowIsGood(v, v.rows[captured])
  {
    var t := StartOutcome(s, bearer, Some(raw), u, ttl, false, AllWorks).0;
    var v := Run(t, requests);
    var captured := FindByHash(s.rows, ANY_OPERATOR, Hash(raw)).value;
    var owner := s.rows[captured].owner;
    StartImpersonatingLed(s, bearer, Some(raw), u, ttl, false, AllWorks);
    StaysWellFormed(s, t);
    StartFiles(s, bearer, Some(raw), u, ttl);
    RunIsLawful(t, requests);
    RunSlots(t, requests);
    EndReadsSlot(v, s.next);
    PromiseKept(s, t, RowIs(captured, owner, Hash(raw)));
    PromiseKept(t, v, RowIs(captured, owner, Hash(raw)));
    CapturedStays(v, raw, captured, owner);
    ReplantedCookieWorksExactly(v, s.next, raw);
  }

  /** One way for it to be dead: if the operator's session was rotated while impersonating, what the end plants is refused. */
  lemma RotatedCookieIsReplantedDead(s: System, raw: nat, requests: seq<Request>, j: nat, infra: Infra)
    requires Safe(s) && BackofficeRefreshOutcome(s, Some(raw), true, AllWorks).1.SignedIn?
    requires var v := Run(BackofficeRefreshOutcome(s, Some(raw), true, AllWorks).0, requests);
      EndOutcome(v, Some(j), AllWorks).1.OperatorRestored? && v.slots[j].cookie == Some(raw)
    ensures var v := Run(BackofficeRefreshOutcome(s, Some(raw), true, AllWorks).0, requests);
      var (w, resp) := EndOutcome(v, Some(j), AllWorks);
      resp.replanted == Some(raw) && BackofficeRefreshOutcome(w, resp.replanted, true, infra).1.Refused?
  {
    var t := BackofficeRefreshOutcome(s, Some(raw), true, AllWorks).0;
    var v := Run(t, requests);
    var id := FindByHash(s.rows, ANY_OPERATOR, Hash(raw)).value;
    var owner := s.rows[id].owner;
    assert (t, BackofficeRefreshOutcome(s, Some(raw), true, AllWorks).1) == RotationOf(s, id, AllWorks);
    OperatorRefreshLed(s, Some(raw), true, AllWorks);
    StaysWellFormed(s, t);
    RunIsLawful(t, requests);
    PromiseKept(s, t, RowIs(id, owner, Hash(raw)));
    PromiseKept(t, v, RowIs(id, owner, Hash(raw)));
    PromiseKept(t, v, RowStaysRevoked(id));
    EndReadsSlot(v, j);
    DeadOperatorRowIsRefused(EndOutcome(v, Some(j), AllWorks).0, raw, id, infra);
  }

  lemma DeadOperatorRowIsRefused(t: System, raw: nat, id: nat, infra: Infra)
    requires (forall k :: k in t.rows && t.rows[k].hash == Hash(raw) ==> k == id) && (id in t.rows ==> t.rows[id].revoked)
    ensures BackofficeRefreshOutcome(t, Some(raw), true, infra).1.Refused?
  {
  }

  // ---- what each account request comes to ----

  /** While blocked, the account passes no gate, whatever token is presented, and its flag is off. */
  lemma BlockShutsOut(s: System, r: Request, j: nat)
    requires r.Block? && Handle(s, r).1.Accepted?
    ensures var t := Handle(s, r).0;
      !UserActive(t, Tenant(r.target)) && NotAdmittedAs(t, j, Tenant(r.target))
  {
    BlockSetsFlag(s, r.bearer, r.target, r.wellFormed, r.force);
    InactiveIsShutOut(Handle(s, r).0, r.target, j);
  }

  lemma BlockSetsFlag(s: System, bearer: Option<nat>, u: nat, wellFormed: bool, force: bool)
    requires BlockOutcome(s, bearer, u, wellFormed, force).1.Accepted?
    ensures var t := BlockOutcome(s, bearer, u, wellFormed, force).0; u in t.users && !t.users[u].active
  {
    CascadeFrame(s, u);
    CascadeFrame(PutUser(s, u, s.users[u].(active := false)), u);
  }

  lemma InactiveIsShutOut(t: System, u: nat, j: nat)
    requires u in t.users && !t.users[u].active
    ensures NotAdmittedAs(t, j, Tenant(u))
  {
  }

  /** An unblock gives back the flag and nothing else: no row, no token, no cutoff changes. */
  lemma UnblockRestoresTheFlagOnly(s: System, r: Request)
    requires r.Unblock? && Handle(s, r).1.Accepted?
    ensures var t := Handle(s, r).0;
      && r.target in s.users
      && t == s.(users := s.users[r.target := s.users[r.target].(active := true)])
  {
    if s.users[r.target].active {
      assert s.users[r.target := s.users[r.target].(active := true)] == s.users;
    }
  }

  lemma BlockAccepted(s: System, bearer: Option<nat>, u: nat, wellFormed: bool, force: bool)
    requires BlockOutcome(s, bearer, u, wellFormed, force).1.Accepted?
    ensures var t := BlockOutcome(s, bearer, u, wellFormed, force).0;
      && u in s.users && t == s.(rows := t.rows, users := t.users, cutoffs := BlacklistUserTokens(s, Tenant(u)).cutoffs)
  {
    CascadeFrame(s, u);
    if u in s.users {
      CascadeFrame(PutUser(s, u, s.users[u].(active := false)), u);
    }
  }

  /** A blocked account's state after the block, any time, and the unblock. */
  lemma BlockThenUnblock(s: System, block: Request, d: nat, unblock: Request)
    requires block.Block? && unblock.Unblock? && block.target == unblock.target
    requires Handle(s, block).1.Accepted?
    requires Handle(Tick(Handle(s, block).0, d), unblock).1.Accepted?
    ensures var u := block.target; var t := Handle(Tick(Handle(s, block).0, d), unblock).0;
      && u in s.users && u in t.users && t.users[u].active
      && t.now == s.now + d && t.minted == s.minted && t.revoked == s.revoked
      && t.cutoffs == BlacklistUserTokens(s, Tenant(u)).cutoffs
  {
    BlockAccepted(s, block.bearer, block.target, block.wellFormed, block.force);
    UnblockRestoresTheFlagOnly(Tick(Handle(s, block).0, d), unblock);
  }

  /**
   What an unblock brings back, however much later: exactly the tokens that were admitted when
   the block came, were stamped in the second of the block, and have not expired. Tokens of
   earlier seconds stay out even after the cutoff entry has lapsed.
   */
  lemma UnblockRevivesExactly(s: System, block: Request, d: nat, unblock: Request, j: nat)
    requires TokensSound(s) && block.Block? && unblock.Unblock? && block.target == unblock.target
    requires Handle(s, block).1.Accepted?
    requires Handle(Tick(Handle(s, block).0, d), unblock).1.Accepted?
    requires AdmitTenant(s, Some(j)) == Ok(block.target)
    ensures var t := Handle(Tick(Handle(s, block).0, d), unblock).0;
      AdmitTenant(t, Some(j)) == Ok(block.target) <==>
        Unix(s.now) <= s.minted[j].claims.iat && Unix(s.now + d) < s.minted[j].claims.exp
  {
    BlockThenUnblock(s, block, d, unblock);
    assert TokenSound(s, j);
    LifetimeBound(s.minted[j].grant, s.minted[j].at);
    ReviveExactly(s, Handle(Tick(Handle(s, block).0, d), unblock).0, block.target, j);
  }

  lemma ReviveExactly(s: System, t: System, u: nat, j: nat)
    requires AdmitTenant(s, Some(j)) == Ok(u) && s.now <= t.now
    requires s.minted[j].claims.exp <= s.minted[j].claims.iat + Unix(MAX_IMPERSONATION_TTL)
    requires u in t.users && t.users[u].active && t.minted == s.minted && t.revoked == s.revoked
    requires t.cutoffs == BlacklistUserTokens(s, Tenant(u)).cutoffs
    ensures AdmitTenant(t, Some(j)) == Ok(u) <==>
      Unix(s.now) <= s.minted[j].claims.iat && Unix(t.now) < s.minted[j].claims.exp
  {
    assert t.cutoffs[Tenant(u)] == Cutoff(Unix(s.now), s.now + BLACKLIST_RING);
    assert !IsBlacklisted(t, j) by {
      assert !IsBlacklisted(s, j);
    }
    if s.minted[j].claims.iat < Unix(s.now) && s.now + BLACKLIST_RING < t.now {
      assert s.minted[j].claims.exp <= Unix(t.now);
    }
  }

  /** Only the newest link of an account works. */
  lemma OnlyTheNewestLinkWorks(s: System, u: nat, link: nat)
    requires WellFormed(s) && u in s.users && s.users[u].active
    ensures var t := AuthMagicLink.RequestOutcome(s, Some(u)).0;
      link in t.links && t.links[link].user == u ==>
        link == s.next && Claimable(t, link) && t.links[link].expiresAt == s.now + LINK_TTL
  {
  }

  lemma OperatorLogoutLeaves(s: System, raw: nat, bearer: nat)
    requires Safe(s) && FindByHash(s.rows, ANY_OPERATOR, Hash(raw)).Some? && IsBackofficeBearer(s, Some(bearer))
    ensures var t := BackofficeLogoutOutcome(s, Some(raw), Some(bearer)).0; var id := FindByHash(s.rows, ANY_OPERATOR, Hash(raw)).value;
      Holds(t, TokenStaysRevoked(bearer)) && Holds(t, RowStaysRevoked(id)) && Holds(t, RowIs(id, s.rows[id].owner, Hash(raw)))
  {
    var id := FindByHash(s.rows, ANY_OPERATOR, Hash(raw)).value;
    var signedOut := BlacklistBearer(s, Some(bearer));
    BearerRevoked(s, bearer);
    RowTakenBack(signedOut, s.rows[id].owner, id, bearer, raw);
    OperatorLogoutIs(s, raw, Some(bearer));
  }

  /** After an operator's logout neither cookie nor bearer works again, under any schedule. */
  lemma OperatorLoggedOutForGood(s: System, raw: nat, bearer: nat, t: System, infra: Infra)
    requires Safe(s) && FindByHash(s.rows, ANY_OPERATOR, Hash(raw)).Some? && IsBackofficeBearer(s, Some(bearer))
    requires Reaches(BackofficeLogoutOutcome(s, Some(raw), Some(bearer)).0, t)
    ensures BackofficeRefreshOutcome(t, Some(raw), true, infra).1.Refused?
    ensures AdmitTenant(t, Some(bearer)).Err? && AdmitBackoffice(t, Some(bearer)).Err?
    ensures AdmitBackofficeOrImpersonating(t, Some(bearer)).Err?
  {
    var id := FindByHash(s.rows, ANY_OPERATOR, Hash(raw)).value;
    var u := BackofficeLogoutOutcome(s, Some(raw), Some(bearer)).0;
    OperatorLogoutLed(s, Some(raw), Some(bearer));
    StaysWellFormed(s, u);
    OperatorLogoutLeaves(s, raw, bearer);
    PromiseKept(u, t, TokenStaysRevoked(bearer));
    PromiseKept(u, t, RowStaysRevoked(id));
    PromiseKept(u, t, RowIs(id, s.rows[id].owner, Hash(raw)));
    RevokedTokenIsRefused(t, bearer);
    DeadOperatorRowIsRefused(t, raw, id, infra);
  }

  /** The back-office logout cannot be used to revoke a tenant's or an impersonation's token. */
  lemma OperatorLogoutSparesTenantTokens(s: System, cookie: Option<nat>, j: nat)
    requires WellFormed(s) && j in s.minted
    requires s.minted[j].grant.Impersonation? || (s.minted[j].grant.Session? && s.minted[j].grant.owner.Tenant?)
          || (s.minted[j].grant.Challenge? && s.minted[j].grant.owner.Tenant?)
    ensures BackofficeLogoutOutcome(s, cookie, Some(j)).0.revoked == s.revoked
  {
    assert TokenSound(s, j);
  }

  lemma StartGuards(s: System, bearer: Option<nat>, cookie: Option<nat>, u: nat, ttl: int)
    requires StartOutcome(s, bearer, cookie, u, ttl, false, AllWorks).1.Impersonating?
    ensures AdmitBackoffice(s, bearer).Ok? && s.operators[AdmitBackoffice(s, bearer).value].role == PlatformAdmin
    ensures u in s.users && s.users[u].active && !s.users[u].systemAdmin
    ensures StartOutcome(s, bearer, cookie, u, ttl, false, AllWorks).0.minted == Mint(s, Borrowed(s, bearer, u, ttl)).minted
  {
  }

  /**
   What a start hands out: to an active platform admin, a token that opens the tenant plane as
   the one target, an active account that is no system admin, and nothing of the back office;
   half an hour later it is refused everywhere.
   */
  lemma StartOpensTheTargetOnly(s: System, bearer: Option<nat>, cookie: Option<nat>, u: nat, ttl: int, v: System)
    requires WellFormed(s) && StartOutcome(s, bearer, cookie, u, ttl, false, AllWorks).1.Impersonating?
    requires Reaches(StartOutcome(s, bearer, cookie, u, ttl, false, AllWorks).0, v)
    ensures AdmitBackoffice(s, bearer).Ok? && s.operators[AdmitBackoffice(s, bearer).value].role == PlatformAdmin
    ensures u in s.users && s.users[u].active && !s.users[u].systemAdmin
    ensures AdmitTenant(v, Some(s.next)).Ok? ==> AdmitTenant(v, Some(s.next)) == Ok(u)
    ensures AdmitBackoffice(v, Some(s.next)).Err?
    ensures AdmitBackofficeOrImpersonating(v, Some(s.next)).Ok? ==> AdmitBackofficeOrImpersonating(v, Some(s.next)) == Ok(Tenant(u))
    ensures s.now + MAX_IMPERSONATION_TTL <= v.now ==>
      AdmitTenant(v, Some(s.next)).Err? && AdmitBackofficeOrImpersonating(v, Some(s.next)).Err?
  {
    StartGuards(s, bearer, cookie, u, ttl);
    var g := Borrowed(s, bearer, u, ttl);
    var t := StartOutcome(s, bearer, cookie, u, ttl, false, AllWorks).0;
    StartImpersonatingLed(s, bearer, cookie, u, ttl, false, AllWorks);
    StaysWellFormed(s, t);
    PromiseKept(t, v, TokenIsSigned(s.next, Token(ClaimsFor(g, s.now), g, s.now)));
    ImpersonationOpensTarget(v, s.next, g, s.now);
  }

  lemma ImpersonationOpensTarget(v: System, j: nat, g: Grant, at: Instant)
    requires Holds(v, TokenIsSigned(j, Token(ClaimsFor(g, at), g, at))) && g.Impersonation? && g.ttl <= MAX_IMPERSONATION_TTL
    ensures AdmitTenant(v, Some(j)).Ok? ==> AdmitTenant(v, Some(j)) == Ok(g.target)
    ensures AdmitBackoffice(v, Some(j)).Err?
    ensures AdmitBackofficeOrImpersonating(v, Some(j)).Ok? ==> AdmitBackofficeOrImpersonating(v, Some(j)) == Ok(Tenant(g.target))
    ensures at + MAX_IMPERSONATION_TTL <= v.now ==> AdmitTenant(v, Some(j)).Err? && AdmitBackofficeOrImpersonating(v, Some(j)).Err?
  {
  }
}
