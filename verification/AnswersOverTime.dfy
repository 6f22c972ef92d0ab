/** What earlier requests still give, any number of requests later: cookies, challenges, impersonations. */
module AnswersOverTime {
  import opened Basics
  import opened Model
  import opened Tokens
  import opened Registries
  import opened Schedules
  import opened Revocation
  import opened Issue
  import opened Answers
  import opened Auth
  import AuthMfa
  import AuthMagicLink
  import opened BackofficeAuth
  import opened AdminImpersonation
  import opened Runs
  import opened Frames
  import opened SessionSafety
  import opened Endings

  // ---- ending an impersonation ----

  /** The request ends the impersonation with this token: its slot is filed and has not expired. */
  predicate TakesSlot(s: System, r: Request, j: nat) {
    r.EndImpersonating? && r.bearer == Some(j) && j in s.slots && s.now <= s.slots[j].expiresAt
  }

  /** No request of the run ends it. */
  ghost predicate NeverEnded(s: System, requests: seq<Request>, j: nat)
    decreases |requests|
  {
    requests == [] || (!TakesSlot(s, requests[0], j) && NeverEnded(Handle(s, requests[0]).0, requests[1..], j))
  }

  lemma EndKeepsSlotExactly(s: System, bearer: Option<nat>, infra: Infra, j: nat)
    requires WellFormed(s) && j in s.slots
    ensures j in EndOutcome(s, bearer, infra).0.slots <==> !(bearer == Some(j) && s.now <= s.slots[j].expiresAt)
  {
    assert TokenSound(s, j);
    if bearer.Some? {
      ImpersonationTokensAreRecognised(s, bearer.value);
      if Ends(s, bearer) {
        EndTakesSlot(s, bearer.value, infra);
      }
    }
  }

  lemma HandlerKeepsSlotExactly(s: System, r: Request, j: nat)
    requires WellFormed(s) && j in s.slots
    ensures j in Handle(s, r).0.slots <==> !TakesSlot(s, r, j)
  {
    if r.EndImpersonating? {
      EndKeepsSlotExactly(s, r.bearer, r.infra, j);
    } else {
      HandlerFrame(s, r);
    }
  }

  lemma GoneStaysGone(s: System, requests: seq<Request>, j: nat)
    requires WellFormed(s) && j < s.next && j !in s.slots
    ensures j !in Run(s, requests).slots
  {
    RunSlots(s, requests);
  }

  /** A filed slot is there at the end of a run exactly if no request of the run ended it. */
  lemma {:induction false} RunKeepsSlotExactly(s: System, requests: seq<Request>, j: nat)
    requires WellFormed(s) && j in s.slots
    ensures j in Run(s, requests).slots <==> NeverEnded(s, requests, j)
    decreases |requests|
  {
    if requests != [] {
      var t := Handle(s, requests[0]).0;
      assert TokenSound(s, j);
      HandlerKeepsSlotExactly(s, requests[0], j);
      HandlerIsLawful(s, requests[0]);
      NextGrows(s, t);
      if j in t.slots {
        RunKeepsSlotExactly(t, requests[1..], j);
      } else {
        GoneStaysGone(t, requests[1..], j);
      }
    }
  }

  /** An end that comes too late, or finds no slot, changes nothing. */
  lemma EndRefused(v: System, j: nat, infra: Infra)
    requires TokensSound(v) && j in v.minted && v.minted[j].grant.Impersonation?
    requires j in v.slots ==> v.slots[j].expiresAt < v.now
    ensures EndOutcome(v, Some(j), infra) == (v, Refused(NoActiveImpersonation))
  {
    ImpersonationTokensAreRecognised(v, j);
  }

  /** An end in time restores the operator if there still is one. */
  lemma EndAccepted(v: System, j: nat)
    requires TokensSound(v) && j in v.minted && v.minted[j].grant.Impersonation?
    requires j in v.slots && v.now <= v.slots[j].expiresAt && v.minted[j].grant.operator == v.slots[j].operator
    ensures var (w, resp) := EndOutcome(v, Some(j), AllWorks); var operator := v.slots[j].operator;
      && (resp.OperatorRestored? <==> operator in v.operators)
      && (resp.OperatorRestored? ==>
            && resp.replanted == v.slots[j].cookie && resp.token in w.minted
            && w.minted[resp.token].claims.adminId == Some(operator)
            && w.minted[resp.token].claims.exp == Unix(v.now) + 15 * 60)
  {
    ImpersonationTokensAreRecognised(v, j);
    var slot := v.slots[j];
    var ended := DeleteSlot(BlacklistToken(v, j, slot.expiresAt), j);
    var g := Restored(slot.operator, j, CapturedRow(ended, slot.cookie));
    SlotEndedFrame(v, j, slot.expiresAt, g);
    TokenLifetimes(g, v.now);
  }

  /**
   An impersonation can be ended up to and including the moment its time is up, exactly if no
   request has ended it and the operator still exists; from then on the end is refused, and
   nothing is restored.
   */
  lemma EndWorksExactly(s: System, bearer: Option<nat>, cookie: Option<nat>, u: nat, ttl: int, requests: seq<Request>, infra: Infra)
    requires WellFormed(s) && StartOutcome(s, bearer, cookie, u, ttl, false, AllWorks).1.Impersonating?
    ensures var t := StartOutcome(s, bearer, cookie, u, ttl, false, AllWorks).0;
      var v := Run(t, requests); var operator := AdmitBackoffice(s, bearer).value; var end := s.now + ClampImpersonationTtl(ttl);
      && (end < v.now ==> EndOutcome(v, Some(s.next), infra) == (v, Refused(NoActiveImpersonation)))
      && (v.now <= end ==>
            var (w, resp) := EndOutcome(v, Some(s.next), AllWorks);
            && (resp.OperatorRestored? <==> NeverEnded(t, requests, s.next) && operator in v.operators)
            && (resp.OperatorRestored? ==> resp.replanted == cookie && resp.token in w.minted && w.minted[resp.token].claims.adminId == Some(operator)))
  {
    var t := StartOutcome(s, bearer, cookie, u, ttl, false, AllWorks).0;
    var v := Run(t, requests);
    StartExactly(s, bearer, cookie, u, ttl, false);
    StartImpersonatingLed(s, bearer, cookie, u, ttl, false, AllWorks);
    StaysWellFormed(s, t);
    assert TokenSound(t, s.next);
    RunIsLawful(t, requests);
    RunSlots(t, requests);
    RunKeepsSlotExactly(t, requests, s.next);
    PromiseKept(t, v, TokenIsSigned(s.next, t.minted[s.next]));
    if s.next in v.slots && v.now <= v.slots[s.next].expiresAt {
      EndAccepted(v, s.next);
    } else {
      EndRefused(v, s.next, infra);
      EndRefused(v, s.next, AllWorks);
    }
  }

  // ---- answering a challenge ----

  /** What a step 2 with a challenge signed for this user and tenant takes. */
  lemma SignedChallengeAnswers(v: System, c: nat, u: nat, tenant: nat, at: Instant, totp: Option<TotpCode>, backup: Option<nat>)
    requires TokensSound(v) && IsSigned(v, c, Challenge(Tenant(u), tenant), at)
    ensures AuthMfa.LoginMfaOutcome(v, c, totp, backup, false, AllWorks).1.SignedIn? <==>
      && Unix(v.now) < Unix(at) + 5 * 60
      && ActiveUser(v, u) && v.users[u].tenant == tenant
      && HasSecondFactor(v, Tenant(u)) && FactorServes(v, Tenant(u), totp, backup)
  {
    LoginMfaExactly(v, c, totp, backup, false);
    TokenLifetimes(Challenge(Tenant(u), tenant), at);
  }

  /**
   Step 1 and step 2 together, with any run in between: the challenge of a password login is
   answered with a session exactly within five minutes, for the same active user still in the
   tenant of step 1, with a factor that serves.
   */
  lemma LoginThenStepTwo(s: System, u: nat, requests: seq<Request>, totp: Option<TotpCode>, backup: Option<nat>)
    requires WellFormed(s) && LoginOutcome(s, Some(u), true, false, AllWorks).1.MfaRequired?
    ensures var (t, resp) := LoginOutcome(s, Some(u), true, false, AllWorks); var v := Run(t, requests);
      AuthMfa.LoginMfaOutcome(v, resp.challenge, totp, backup, false, AllWorks).1.SignedIn? <==>
        && Unix(v.now) < Unix(s.now) + 5 * 60
        && ActiveUser(v, u) && u in s.users && v.users[u].tenant == s.users[u].tenant
        && HasSecondFactor(v, Tenant(u)) && FactorServes(v, Tenant(u), totp, backup)
  {
    var (t, resp) := LoginOutcome(s, Some(u), true, false, AllWorks);
    LoginExactly(s, Some(u), true, false);
    LoginLed(s, Some(u), true, false, AllWorks);
    StaysWellFormed(s, t);
    RunIsLawful(t, requests);
    PromiseKept(t, Run(t, requests), TokenIsSigned(resp.challenge, t.minted[resp.challenge]));
    SignedChallengeAnswers(Run(t, requests), resp.challenge, u, s.users[u].tenant, s.now, totp, backup);
  }

  /** The same for the challenge of a sign-in link. */
  lemma LinkThenStepTwo(s: System, link: nat, tenant: nat, requests: seq<Request>, totp: Option<TotpCode>, backup: Option<nat>)
    requires WellFormed(s) && AuthMagicLink.VerifyOutcome(s, link, tenant, false, AllWorks).1.MfaRequired?
    ensures var (t, resp) := AuthMagicLink.VerifyOutcome(s, link, tenant, false, AllWorks); var v := Run(t, requests);
      link in s.links && var u := s.links[link].user;
      (AuthMfa.LoginMfaOutcome(v, resp.challenge, totp, backup, false, AllWorks).1.SignedIn? <==>
        && Unix(v.now) < Unix(s.now) + 5 * 60
        && ActiveUser(v, u) && u in s.users && v.users[u].tenant == s.users[u].tenant
        && HasSecondFactor(v, Tenant(u)) && FactorServes(v, Tenant(u), totp, backup))
  {
    var (t, resp) := AuthMagicLink.VerifyOutcome(s, link, tenant, false, AllWorks);
    LinkVerifyExactly(s, link, tenant, false);
    LinkVerifyLed(s, link, tenant, false, AllWorks);
    StaysWellFormed(s, t);
    RunIsLawful(t, requests);
    PromiseKept(t, Run(t, requests), TokenIsSigned(resp.challenge, t.minted[resp.challenge]));
    var u := s.links[link].user;
    SignedChallengeAnswers(Run(t, requests), resp.challenge, u, s.users[u].tenant, s.now, totp, backup);
  }

  /** And for an operator's. */
  lemma OperatorLoginThenStepTwo(s: System, a: nat, requests: seq<Request>, totp: Option<TotpCode>, backup: Option<nat>)
    requires WellFormed(s) && BackofficeLoginOutcome(s, Some(a), true, false, AllWorks).1.MfaRequired?
    ensures var (t, resp) := BackofficeLoginOutcome(s, Some(a), true, false, AllWorks); var v := Run(t, requests);
      BackofficeLoginMfaOutcome(v, resp.challenge, totp, backup, false, AllWorks).1.SignedIn? <==>
        && Unix(v.now) < Unix(s.now) + 5 * 60
        && ActiveOperator(v, a) && HasSecondFactor(v, Backoffice(a)) && FactorServes(v, Backoffice(a), totp, backup)
  {
    var (t, resp) := BackofficeLoginOutcome(s, Some(a), true, false, AllWorks);
    var v := Run(t, requests);
    OperatorLoginExactly(s, Some(a), true, false);
    OperatorLoginLed(s, Some(a), true, false, AllWorks);
    StaysWellFormed(s, t);
    RunIsLawful(t, requests);
    PromiseKept(t, v, TokenIsSigned(resp.challenge, t.minted[resp.challenge]));
    OperatorLoginMfaExactly(v, resp.challenge, totp, backup, false);
    TokenLifetimes(Challenge(Backoffice(a), 0), s.now);
  }

  // ---- refreshing after a password change ----

  /** Log in some time after a password change; the state then, and the cookie. */
  ghost function BackIn(s: System, u: nat, bearer: Option<nat>, d: nat): Outcome {
    LoginOutcome(Tick(ChangePasswordOutcome(s, bearer, true).0, d), Some(u), true, false, AllWorks)
  }

  /** The state the login finds. */
  lemma ChangedState(s: System, u: nat, bearer: Option<nat>, d: nat)
    requires WellFormed(s) && AdmitTenant(s, bearer) == Ok(u)
    ensures var t := Tick(ChangePasswordOutcome(s, bearer, true).0, d);
      && WellFormed(t) && t.now == s.now + d && t.users == s.users && t.mfa == s.mfa && ActiveUser(t, u)
      && t.cutoffs == s.cutoffs[Tenant(u) := Cutoff(Unix(s.now), s.now + BLACKLIST_RING)]
  {
    var changed := AllSessionsEnded(s, u, bearer);
    SessionsEndedFrame(s, u, bearer);
    SessionsEndedCut(s, u, bearer);
    ReachesSelf(s);
    SessionsEndedLed(s, s, u, bearer);
    StaysWellFormed(s, changed);
    TickStaysWellFormed(changed, d);
  }

  lemma TickStaysWellFormed(s: System, d: nat)
    requires WellFormed(s)
    ensures WellFormed(Tick(s, d))
  {
    TickLed(s, d);
    StaysWellFormed(s, Tick(s, d));
  }

  lemma SessionsEndedCut(s: System, u: nat, bearer: Option<nat>)
    ensures AllSessionsEnded(s, u, bearer).cutoffs == s.cutoffs[Tenant(u) := Cutoff(Unix(s.now), s.now + BLACKLIST_RING)]
  {
    BearerFrame(RevokeByOwner(s, Tenant(u)), bearer);
  }

  /** The row a plain login stores. */
  ghost predicate NewRow(t: System, cookie: nat, u: nat, at: Instant) {
    exists id :: id in t.rows && t.rows[id].hash == Hash(cookie) && t.rows[id].owner == Tenant(u) && !t.rows[id].revoked
      && t.rows[id].createdAt == at && t.rows[id].expiresAt == at + REFRESH_TTL
  }

  lemma PlainLoginState(s: System, u: nat)
    requires WellFormed(s) && ActiveUser(s, u) && !HasSecondFactor(s, Tenant(u))
    ensures var (t, resp) := LoginOutcome(s, Some(u), true, false, AllWorks);
      && resp.SignedIn? && WellFormed(t) && t.now == s.now && t.users == s.users && t.cutoffs == s.cutoffs
      && NewRow(t, resp.cookie, u, s.now)
  {
    var (t, resp) := LoginOutcome(s, Some(u), true, false, AllWorks);
    LoginExactly(s, Some(u), true, false);
    LoginLed(s, Some(u), true, false, AllWorks);
    StaysWellFormed(s, t);
    LoginFrame(s, Some(u), true, false, AllWorks);
    assert t.rows[s.next] == FreshRow(s, Tenant(u), NewOpening(s, Tenant(u), Password));
  }

  /**
   A user changes the password, logs in again d later, and refreshes e after that. It works
   exactly if the new session is younger than 30 days and either was opened in a later second
   than the change or the cutoff of the change, half an hour long, has lapsed.
   */
  lemma RefreshAfterPasswordChange(s: System, u: nat, bearer: Option<nat>, d: nat, e: nat)
    requires WellFormed(s) && AdmitTenant(s, bearer) == Ok(u) && !HasSecondFactor(s, Tenant(u))
    ensures var (t, resp) := BackIn(s, u, bearer, d);
      resp.SignedIn? &&
      (RefreshOutcome(Tick(t, e), Value(resp.cookie), None, AllWorks).1.SignedIn? <==>
         && e < 30 * 24 * 60 * 60 * 1_000_000_000
         && (Unix(s.now) < Unix(s.now + d) || 30 * 60 * 1_000_000_000 < d + e))
  {
    ChangedState(s, u, bearer, d);
    LoginAndRefresh(Tick(ChangePasswordOutcome(s, bearer, true).0, d), u, s.now, e);
  }

  lemma LoginAndRefresh(s: System, u: nat, cut: Instant, e: nat)
    requires WellFormed(s) && ActiveUser(s, u) && !HasSecondFactor(s, Tenant(u))
    requires Tenant(u) in s.cutoffs && s.cutoffs[Tenant(u)] == Cutoff(Unix(cut), cut + BLACKLIST_RING)
    ensures var (t, resp) := LoginOutcome(s, Some(u), true, false, AllWorks);
      resp.SignedIn? &&
      (RefreshOutcome(Tick(t, e), Value(resp.cookie), None, AllWorks).1.SignedIn? <==>
         && e < 30 * 24 * 60 * 60 * 1_000_000_000
         && (Unix(cut) < Unix(s.now) || cut + 30 * 60 * 1_000_000_000 < s.now + e))
  {
    PlainLoginState(s, u);
    var (t, resp) := LoginOutcome(s, Some(u), true, false, AllWorks);
    LaterRefresh(t, resp.cookie, u, s.now, cut, e);
  }

  lemma LaterRefresh(t: System, cookie: nat, u: nat, created: Instant, cut: Instant, e: nat)
    requires WellFormed(t) && ActiveUser(t, u) && NewRow(t, cookie, u, created)
    requires Tenant(u) in t.cutoffs && t.cutoffs[Tenant(u)] == Cutoff(Unix(cut), cut + BLACKLIST_RING)
    ensures RefreshOutcome(Tick(t, e), Value(cookie), None, AllWorks).1.SignedIn? <==>
      && t.now + e < created + 30 * 24 * 60 * 60 * 1_000_000_000
      && (Unix(cut) < Unix(created) || cut + 30 * 60 * 1_000_000_000 < t.now + e)
  {
    TickStaysWellFormed(t, e);
    assert NewRow(Tick(t, e), cookie, u, created);
    NewRowServesExactly(Tick(t, e), cookie, u, created, cut);
  }

  lemma NewRowServesExactly(t: System, cookie: nat, u: nat, created: Instant, cut: Instant)
    requires WellFormed(t) && ActiveUser(t, u) && NewRow(t, cookie, u, created)
    requires Tenant(u) in t.cutoffs && t.cutoffs[Tenant(u)] == Cutoff(Unix(cut), cut + BLACKLIST_RING)
    ensures RefreshOutcome(t, Value(cookie), None, AllWorks).1.SignedIn? <==>
      && t.now < created + 30 * 24 * 60 * 60 * 1_000_000_000
      && (Unix(cut) < Unix(created) || cut + 30 * 60 * 1_000_000_000 < t.now)
  {
    RefreshExactly(t, Value(cookie), None);
    var id :| id in t.rows && t.rows[id].hash == Hash(cookie) && t.rows[id].owner == Tenant(u) && !t.rows[id].revoked
      && t.rows[id].createdAt == created && t.rows[id].expiresAt == created + REFRESH_TTL;
    assert forall k :: k in t.rows && t.rows[k].hash == Hash(cookie) ==> k == id;
  }
}
