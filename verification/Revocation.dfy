/**
 Refusals that outlive every schedule: cutoffs, revoked tokens, used factors, claimed
 links; and where every back-office or impersonation token comes from.
 */
module Revocation {
  import opened Basics
  import opened Model
  import opened Tokens
  import opened Registries
  import opened Schedules

  // ---- cutoffs ----

  /** No gate lets the token through as this account. */
  predicate NotAdmittedAs(t: System, j: nat, p: Principal) {
    && (p.Tenant? ==> AdmitTenant(t, Some(j)) != Ok(p.id))
    && (p.Backoffice? ==> AdmitBackoffice(t, Some(j)) != Ok(p.id))
    && AdmitBackofficeOrImpersonating(t, Some(j)) != Ok(p)
  }

  lemma CutoffRefuses(t: System, p: Principal, at: Instant, j: nat)
    requires TokensSound(t) && Holds(t, CutoffAt(p, at))
    requires j in t.minted && t.minted[j].claims.iat < Unix(at)
    ensures NotAdmittedAs(t, j, p)
  {
    assert TokenSound(t, j);
    LifetimeBound(t.minted[j].grant, t.minted[j].at);
    assert t.minted[j].claims.exp <= Unix(t.now) || CutOff(t, p, t.minted[j].claims.iat);
  }

  /**
   Once an account's tokens are cut off, no token stamped in an earlier second gets that
   account through any gate again, whatever blocks, cutoffs or logins follow.
   */
  lemma CutoffOutlivesTokens(s: System, p: Principal, t: System, j: nat)
    requires WellFormed(s) && Reaches(BlacklistUserTokens(s, p), t)
    requires j in t.minted && t.minted[j].claims.iat < Unix(s.now)
    ensures NotAdmittedAs(t, j, p)
  {
    var cut := BlacklistUserTokens(s, p);
    assert cut == Apply(s, CBlacklistUser(p));
    CallKeepsWellFormed(s, CBlacklistUser(p));
    PromiseKept(cut, t, CutoffAt(p, s.now));
    CutoffRefuses(t, p, s.now, j);
  }

  /** The gate of the account's plane lets the token through as the account. */
  predicate AdmittedAs(t: System, j: nat, p: Principal) {
    match p
    case Tenant(u) => AdmitTenant(t, Some(j)) == Ok(u)
    case Backoffice(a) => AdmitBackoffice(t, Some(j)) == Ok(a)
  }

  /** At the moment of the cutoff, on either plane, exactly the tokens of earlier seconds stop being admitted. */
  lemma CutoffRefusesExactly(s: System, p: Principal, j: nat)
    requires AdmittedAs(s, j, p)
    ensures AdmittedAs(BlacklistUserTokens(s, p), j, p) <==> Unix(s.now) <= s.minted[j].claims.iat
  {
    var t := BlacklistUserTokens(s, p);
    assert BlacklistedSince(t, p) == Some(Unix(s.now));
    assert IsBlacklisted(t, j) == IsBlacklisted(s, j);
  }

  /** A cutoff kept for `ring` nanoseconds covers tokens that live `seconds`: those of earlier seconds have expired when it lapses. */
  ghost predicate RingCovers(ring: nat, seconds: nat) {
    forall at: Instant, cut: Instant, now: Instant ::
      Unix(at) < Unix(cut) && cut + ring < now ==> Unix(at + seconds * SECOND) <= Unix(now)
  }

  /** Exactly how long the ring must be: one second and one nanosecond short of the ceiling. */
  lemma RingCoversExactly(ring: nat, seconds: nat)
    ensures RingCovers(ring, seconds) <==> seconds * SECOND <= ring + SECOND + 1
  {
    if seconds * SECOND <= ring + SECOND + 1 {
      forall at: Instant, cut: Instant, now: Instant | Unix(at) < Unix(cut) && cut + ring < now
        ensures Unix(at + seconds * SECOND) <= Unix(now)
      {
        assert Unix(at + seconds * SECOND) == Unix(at) + seconds;
        assert (Unix(at) + 1) * SECOND <= cut;
      }
    } else {
      var at, cut, now := SECOND - 1, SECOND, SECOND + ring + 1;
      assert Unix(at) < Unix(cut) && cut + ring < now;
      assert Unix(at + seconds * SECOND) == seconds;
      assert Unix(now) < seconds;
      assert !(Unix(at + seconds * SECOND) <= Unix(now));
    }
  }

  // ---- revoked tokens ----

  /** blacklistAccessToken: any signed bearer, expired or not, capped at twice the access lifetime. */
  function BlacklistBearer(s: System, bearer: Option<nat>): System {
    if bearer.None? || bearer.value !in s.minted then s
    else
      var end := s.minted[bearer.value].claims.exp * SECOND;
      var cap := s.now + BLACKLIST_RING;
      BlacklistToken(s, bearer.value, if end > cap then cap else end)
  }

  /** The cap never bites: every signed token expires within it. */
  lemma CapIsNeverReached(s: System, j: nat)
    requires TokensSound(s) && j in s.minted
    ensures s.minted[j].claims.exp * SECOND <= s.now + BLACKLIST_RING
    ensures BlacklistBearer(s, Some(j)) == BlacklistToken(s, j, s.minted[j].claims.exp * SECOND)
  {
    assert TokenSound(s, j);
    LifetimeBound(s.minted[j].grant, s.minted[j].at);
  }

  lemma RevokedTokenIsRefused(t: System, j: nat)
    requires Holds(t, TokenStaysRevoked(j))
    ensures AdmitTenant(t, Some(j)).Err? && AdmitBackoffice(t, Some(j)).Err? && AdmitBackofficeOrImpersonating(t, Some(j)).Err?
  {
    var end := t.minted[j].claims.exp;
    if !(end <= Unix(t.now)) {
      assert t.now < end * SECOND;
      assert IsBlacklisted(t, j);
    }
  }

  lemma BlacklistHolds(s: System, j: nat, until: Instant)
    requires Lawful(s, CBlacklistToken(j, until))
    ensures Apply(s, CBlacklistToken(j, until)) == BlacklistToken(s, j, until)
    ensures Holds(BlacklistToken(s, j, until), TokenStaysRevoked(j))
  {
  }

  /** A bearer blacklisted until its expiry, at logout or at the end of an impersonation, is never admitted again. */
  lemma RevocationIsPermanent(s: System, j: nat, until: Instant, t: System)
    requires WellFormed(s) && Lawful(s, CBlacklistToken(j, until)) && Reaches(BlacklistToken(s, j, until), t)
    ensures AdmitTenant(t, Some(j)).Err? && AdmitBackoffice(t, Some(j)).Err? && AdmitBackofficeOrImpersonating(t, Some(j)).Err?
  {
    BlacklistHolds(s, j, until);
    CallKeepsWellFormed(s, CBlacklistToken(j, until));
    PromiseKept(BlacklistToken(s, j, until), t, TokenStaysRevoked(j));
    RevokedTokenIsRefused(t, j);
  }

  /** Logout is permanent, for every kind of token and despite the cap. */
  lemma LogoutIsPermanent(s: System, j: nat, t: System)
    requires WellFormed(s) && j in s.minted && Reaches(BlacklistBearer(s, Some(j)), t)
    ensures AdmitTenant(t, Some(j)).Err? && AdmitBackoffice(t, Some(j)).Err? && AdmitBackofficeOrImpersonating(t, Some(j)).Err?
  {
    CapIsNeverReached(s, j);
    RevocationIsPermanent(s, j, s.minted[j].claims.exp * SECOND, t);
  }

  // ---- used factors and claimed links ----

  /** Section 5.2 of RFC 6238: once a time step has won, neither it nor an earlier one wins again on that enrollment. */
  lemma StepWinsOnce(s: System, p: Principal, step: int, t: System, q: Principal, again: int)
    requires WellFormed(s) && StepWins(s, p, step) && Reaches(MarkStep(s, p, step), t)
    requires q in t.mfa && t.mfa[q].incarnation == s.mfa[p].incarnation && again <= step
    ensures !StepWins(t, q, again)
  {
    assert MarkStep(s, p, step) == Apply(s, CMarkStep(p, step));
    CallKeepsWellFormed(s, CMarkStep(p, step));
    assert MfaSound(s.mfa[p], s.spent, s.next);
    PromiseKept(MarkStep(s, p, step), t, StepStaysUsed(s.mfa[p].incarnation, step));
  }

  /** A backup code is redeemed at most once, whatever lists are regenerated in between. */
  lemma CodeMatchesOnce(s: System, p: Principal, code: nat, t: System, q: Principal)
    requires WellFormed(s) && CodeMatches(s, p, code) && Reaches(ConsumeCode(s, p, code), t)
    requires q in t.mfa && t.mfa[q].incarnation == s.mfa[p].incarnation
    ensures !CodeMatches(t, q, code)
  {
    var f := BackupCode(s.mfa[p].incarnation, code);
    assert ConsumeCode(s, p, code) == Apply(s, CConsumeCode(p, code));
    CallKeepsWellFormed(s, CConsumeCode(p, code));
    PromiseKept(ConsumeCode(s, p, code), t, FactorStaysSpent(f));
    assert MfaSound(t.mfa[q], t.spent, t.next);
    assert multiset(t.mfa[q].codes)[code] == 0;
  }

  function Members(codes: seq<nat>): (r: set<nat>)
    ensures forall c :: c in r <==> c in codes
  {
    if codes == [] then {} else {codes[0]} + Members(codes[1..])
  }

  lemma {:induction false} CountDistinct(codes: seq<nat>)
    requires forall c :: multiset(codes)[c] <= 1
    ensures |Members(codes)| == |codes|
  {
    if codes != [] {
      var rest := codes[1..];
      assert codes == [codes[0]] + rest;
      assert multiset(codes) == multiset{codes[0]} + multiset(rest);
      assert multiset(codes)[codes[0]] == 1 + multiset(rest)[codes[0]];
      assert forall c :: multiset(rest)[c] <= multiset(codes)[c];
      CountDistinct(rest);
      assert codes[0] !in rest;
    }
  }

  /** The numbers first, first + 1, ..., first + k - 1. */
  function Numbers(first: nat, k: nat): (r: set<nat>)
    ensures |r| == k
    ensures forall c :: c in r <==> first <= c < first + k
  {
    if k == 0 then {} else Numbers(first, k - 1) + {first + k - 1}
  }

  function IssuedCodes(r: MfaRow): set<nat> {
    Numbers(r.firstCode, r.issued)
  }

  function RedeemedCodes(r: MfaRow, spent: set<Factor>): set<nat> {
    set c | c in IssuedCodes(r) && BackupCode(r.incarnation, c) in spent
  }

  lemma UnusedAreStored(r: MfaRow, spent: set<Factor>, next: nat)
    requires MfaSound(r, spent, next)
    ensures forall c :: c in Members(r.codes) <==> c in IssuedCodes(r) && c !in RedeemedCodes(r, spent)
  {
    forall c ensures c in Members(r.codes) <==> Unused(r, spent, c) {
      assert c in Members(r.codes) <==> multiset(r.codes)[c] > 0;
    }
  }

  /** The stored list is the issued codes less the redeemed ones, so the counts add up. */
  lemma CodesAddUp(r: MfaRow, spent: set<Factor>, next: nat)
    requires MfaSound(r, spent, next)
    ensures Members(r.codes) == IssuedCodes(r) - RedeemedCodes(r, spent)
    ensures |r.codes| + |RedeemedCodes(r, spent)| == r.issued
  {
    CountDistinct(r.codes);
    UnusedAreStored(r, spent, next);
    assert Members(r.codes) + RedeemedCodes(r, spent) == IssuedCodes(r);
    assert Members(r.codes) !! RedeemedCodes(r, spent);
  }

  /** Under any schedule: codes left plus codes redeemed since the list was issued equals codes issued. */
  lemma CodesAreConserved(s: System, t: System, p: Principal)
    requires WellFormed(s) && Reaches(s, t) && p in t.mfa
    ensures |t.mfa[p].codes| + |RedeemedCodes(t.mfa[p], t.spent)| == t.mfa[p].issued
    ensures Members(t.mfa[p].codes) == IssuedCodes(t.mfa[p]) - RedeemedCodes(t.mfa[p], t.spent)
  {
    StaysWellFormed(s, t);
    CodesAddUp(t.mfa[p], t.spent, t.next);
  }

  /** The same enrollment, on exactly if it was or has been turned on. */
  predicate KeepsEnrollment(s: System, t: System, p: Principal, turnedOn: bool) {
    && p in s.mfa && p in t.mfa
    && t.mfa[p].incarnation == s.mfa[p].incarnation && t.mfa[p].secret == s.mfa[p].secret
    && t.mfa[p].enabled == (s.mfa[p].enabled || turnedOn)
  }

  lemma MarkKeeps(s: System, q: Principal, step: int, p: Principal)
    requires p in s.mfa
    ensures KeepsEnrollment(s, MarkStep(s, q, step), p, false)
  {
    if StepWins(s, q, step) {
      assert MarkStep(s, q, step).mfa == s.mfa[q := s.mfa[q].(lastStep := step)];
    }
  }

  lemma ConsumeKeeps(s: System, q: Principal, code: nat, p: Principal)
    requires p in s.mfa
    ensures KeepsEnrollment(s, ConsumeCode(s, q, code), p, false)
  {
    if CodeMatches(s, q, code) {
      assert ConsumeCode(s, q, code).mfa == s.mfa[q := s.mfa[q].(codes := RemoveFirst(s.mfa[q].codes, code))];
    }
  }

  lemma EnableKeeps(s: System, q: Principal, p: Principal)
    requires p in s.mfa
    ensures KeepsEnrollment(s, EnableMfa(s, q), p, q == p)
  {
  }

  lemma UpdateKeeps(s: System, q: Principal, p: Principal)
    requires p in s.mfa
    ensures KeepsEnrollment(s, UpdateCodes(s, q), p, false)
  {
    if q in s.mfa && q != p {
      assert UpdateCodes(s, q).mfa[p] == s.mfa[p];
    }
  }

  lemma EnrollingKeeps(s: System, q: Principal, p: Principal)
    requires p in s.mfa
    ensures KeepsEnrollment(s, CreateMfa(s, q), p, false) && (q != p ==> KeepsEnrollment(s, DeleteMfa(s, q), p, false))
  {
  }

  lemma WriteKeeps(s: System, c: Call, p: Principal)
    requires p in s.mfa && TouchesMfa(c) && c != CDeleteMfa(p)
    ensures KeepsEnrollment(s, Apply(s, c), p, c == CEnableMfa(p))
  {
    match c
    case CMarkStep(q, step) => MarkKeeps(s, q, step, p);
    case CConsumeCode(q, code) => ConsumeKeeps(s, q, code, p);
    case CEnableMfa(q) => EnableKeeps(s, q, p);
    case CUpdateCodes(q) => UpdateKeeps(s, q, p);
    case CCreateMfa(q) => EnrollingKeeps(s, q, p);
    case CDeleteMfa(q) => EnrollingKeeps(s, q, p);
  }

  /** Only a delete ends an enrollment; any other call keeps its secret, and only enabling turns it on. */
  lemma EnrollmentEndsOnlyByDelete(s: System, c: Call, p: Principal)
    requires p in s.mfa && c != CDeleteMfa(p)
    ensures KeepsEnrollment(s, Apply(s, c), p, c == CEnableMfa(p))
  {
    if TouchesMfa(c) {
      WriteKeeps(s, c, p);
    } else {
      CallLeaves(s, c);
    }
  }

  lemma LinkIsClaimedOnce(s: System, link: nat, t: System)
    requires WellFormed(s) && Claimable(s, link) && Reaches(MarkClaimed(s, link), t)
    ensures !Claimable(t, link)
  {
    assert MarkClaimed(s, link) == Apply(s, CMarkClaimed(link));
    CallKeepsWellFormed(s, CMarkClaimed(link));
    PromiseKept(MarkClaimed(s, link), t, LinkStaysBurnt(link));
  }

  lemma RevokedRowStaysRevoked(s: System, t: System, id: nat)
    requires WellFormed(s) && Reaches(s, t) && id in s.rows && s.rows[id].revoked
    ensures id in t.rows ==> t.rows[id].revoked
  {
    PromiseKept(s, t, RowStaysRevoked(id));
  }

  // ---- where tokens come from ----

  /** The session a token was obtained from, following starts and ends of impersonations back. */
  ghost function Root(s: System, j: nat): Grant
    requires TokensSound(s) && j in s.minted
    decreases j
  {
    assert TokenSound(s, j);
    var g := s.minted[j].grant;
    if g.Impersonation? then Root(s, g.bearer)
    else if g.Restored? then Root(s, g.impersonation)
    else g
  }

  ghost predicate OperatorOfRecord(g: Grant, a: nat) {
    IsOperatorSession(g, a) || (g.Impersonation? && g.operator == a)
  }

  /** Every impersonation token and every operator token traces back to a back-office login of that very operator. */
  lemma {:induction false} RootIsOwnLogin(s: System, j: nat, a: nat)
    requires TokensSound(s) && j in s.minted && OperatorOfRecord(s.minted[j].grant, a)
    ensures Root(s, j).Session? && Root(s, j).owner == Backoffice(a)
    decreases j
  {
    assert TokenSound(s, j);
    var g := s.minted[j].grant;
    if g.Impersonation? {
      RootIsOwnLogin(s, g.bearer, a);
    } else if g.Restored? {
      RootIsOwnLogin(s, g.impersonation, a);
    }
  }

  /**
   In every reachable state, under any schedule: whoever passes the back-office gate is an
   active operator holding a session token of their own plane, rooted in their own login,
   and that token opens nothing else.
   */
  lemma PlanesStaySeparate(s: System, t: System, j: nat, a: nat)
    requires WellFormed(s) && Reaches(s, t) && AdmitBackoffice(t, Some(j)) == Ok(a)
    ensures a in t.operators && t.operators[a].active
    ensures j in t.minted && IsOperatorSession(t.minted[j].grant, a)
    ensures TokensSound(t) && Root(t, j).Session? && Root(t, j).owner == Backoffice(a)
    ensures AdmitTenant(t, Some(j)).Err? && ParseMfaToken(t, j).Err? && ParseBackofficeMfaToken(t, j).Err?
    ensures ParseImpersonationEnd(t, Some(j)).Err?
  {
    StaysWellFormed(s, t);
    assert TokenSound(t, j);
    BackofficeGateReadsSessions(t.minted[j].grant, t.minted[j].at, t.now, a);
    RootIsOwnLogin(t, j, a);
  }

  /** Each challenge token opens its own step 2 and nothing else. */
  lemma ChallengesOpenOnlyStepTwo(s: System, t: System, j: nat)
    requires WellFormed(s) && Reaches(s, t) && j in t.minted && t.minted[j].grant.Challenge?
    ensures AdmitTenant(t, Some(j)).Err? && AdmitBackoffice(t, Some(j)).Err? && AdmitBackofficeOrImpersonating(t, Some(j)).Err?
    ensures ParseMfaToken(t, j).Ok? ==> t.minted[j].grant.owner.Tenant? && ParseBackofficeMfaToken(t, j).Err?
    ensures ParseBackofficeMfaToken(t, j).Ok? ==> t.minted[j].grant.owner.Backoffice? && ParseMfaToken(t, j).Err?
  {
    StaysWellFormed(s, t);
    assert TokenSound(t, j);
  }

  /** A slot read at any time names the operator and the target its token was signed for. */
  lemma SlotNamesItsStarter(s: System, t: System, j: nat)
    requires WellFormed(s) && Reaches(s, t) && j in t.slots
    ensures j in t.minted && t.minted[j].grant.Impersonation?
    ensures t.slots[j].operator == t.minted[j].grant.operator && t.slots[j].target == t.minted[j].grant.target
    ensures t.minted[j].claims.impersonatorId == Some(t.slots[j].operator)
    ensures TokensSound(t) && Root(t, j).Session? && Root(t, j).owner == Backoffice(t.slots[j].operator)
  {
    StaysWellFormed(s, t);
    assert TokenSound(t, j);
    RootIsOwnLogin(t, j, t.slots[j].operator);
  }

  /**
   The gate in front of the impersonation banner agrees with the two plane gates: it lets an
   operator through where the back-office gate does, and a borrowed identity where the tenant
   gate lets that very token through as its target.
   */
  lemma BannerAgreesWithTheGates(s: System, j: nat, p: Principal)
    requires TokensSound(s)
    ensures AdmitBackofficeOrImpersonating(s, Some(j)) == Ok(p) <==>
      match p
      case Backoffice(a) => AdmitBackoffice(s, Some(j)) == Ok(a)
      case Tenant(u) => AdmitTenant(s, Some(j)) == Ok(u) && s.minted[j].grant.Impersonation?
  {
    if j in s.minted {
      assert TokenSound(s, j);
    }
  }

  /** Both self-validating parsers pick out exactly the signed impersonation tokens, expired or not. */
  lemma ImpersonationTokensAreRecognised(s: System, j: nat)
    requires TokensSound(s)
    ensures ParseImpersonationEnd(s, Some(j)).Ok? <==> j in s.minted && s.minted[j].grant.Impersonation?
    ensures ParseImpersonationEnd(s, Some(j)).Ok? ==> ParseImpersonationEnd(s, Some(j)).value == (j, s.minted[j].grant.operator)
    ensures BearerIsImpersonation(s, Some(j)) <==> j in s.minted && s.minted[j].grant.Impersonation?
  {
    if j in s.minted {
      assert TokenSound(s, j);
    }
  }
}
