/**
 What holds of the refresh rows in every reachable state: one live credential per login,
 a second factor behind every session that owes one, and no way back from a replay.
 */
module SessionSafety {
  import opened Basics
  import opened Model
  import opened Tokens
  import opened Registries
  import opened Schedules
  import opened Revocation
  import opened Issue
  import opened Auth
  import AuthMfa
  import AuthMagicLink
  import opened BackofficeAuth
  import opened Runs
  import opened Frames
  import opened Sessions

  /** What a login rested on, as far as it may not be used twice. */
  predicate SameProof(m: Means, n: Means) {
    (m.SecondStep? && n.SecondStep? && m.factor == n.factor) || (m.MagicLink? && n.MagicLink? && m.link == n.link)
  }

  /** What a login numbered in the past rests on: a used factor and a challenge answered in time, or a burnt link. */
  ghost predicate ProvenLogin(s: System, owner: Principal, o: Opening) {
    && o.id < s.next && o.at <= s.now
    && (o.factorDue ==> o.means.SecondStep?)
    && match o.means
       case Password => true
       case MagicLink(link) => Holds(s, LinkStaysBurnt(link))
       case SecondStep(challenge, f) =>
         && f in s.spent && challenge in s.minted && challenge < o.id
         && s.minted[challenge].grant.Challenge? && s.minted[challenge].grant.owner == owner
         && s.minted[challenge].at <= o.at && Unix(o.at) < s.minted[challenge].claims.exp
  }

  ghost predicate Proven(s: System, id: nat)
    requires id in s.rows
  {
    ProvenLogin(s, s.rows[id].owner, s.rows[id].opening)
  }

  ghost predicate AllProven(s: System) {
    forall id :: id in s.rows ==> Proven(s, id)
  }

  /** The rows of one login are one account's, and at most one of them is live. */
  ghost predicate OneLive(rows: map<nat, Row>) {
    forall id, id' :: id in rows && id' in rows && rows[id].opening.id == rows[id'].opening.id ==>
      && rows[id].opening == rows[id'].opening
      && rows[id].owner == rows[id'].owner
      && (!rows[id].revoked && !rows[id'].revoked ==> id == id')
  }

  /** No factor and no link stands behind two logins. */
  ghost predicate ProofsDistinct(rows: map<nat, Row>) {
    forall id, id' :: id in rows && id' in rows && SameProof(rows[id].opening.means, rows[id'].opening.means) ==>
      rows[id].opening.id == rows[id'].opening.id
  }

  ghost predicate Safe(s: System) {
    WellFormed(s) && AllProven(s) && OneLive(s.rows) && ProofsDistinct(s.rows)
  }

  /** Rows of this account that are still live descend from logins numbered n or later, opened at that time or later. */
  ghost predicate DescendsFrom(s: System, owner: Principal, n: nat, at: Instant) {
    forall id :: id in s.rows && s.rows[id].owner == owner && !s.rows[id].revoked ==>
      n <= s.rows[id].opening.id && at <= s.rows[id].opening.at
  }

  // ---- one request ----

  /** A proven login stays proven. */
  lemma ProofsLast(s: System, t: System, owner: Principal, o: Opening)
    requires WellFormed(s) && Reaches(s, t) && s.next <= t.next && ProvenLogin(s, owner, o)
    ensures ProvenLogin(t, owner, o)
  {
    PromiseKept(s, t, ClockPast(s.now));
    match o.means
    case Password =>
    case MagicLink(link) => PromiseKept(s, t, LinkStaysBurnt(link));
    case SecondStep(challenge, f) =>
      PromiseKept(s, t, FactorStaysSpent(f));
      PromiseKept(s, t, TokenIsSigned(challenge, s.minted[challenge]));
  }

  /** A login a request opens is proven when the request is done. */
  lemma EarnedIsProven(s: System, t: System, row: Row)
    requires WellFormed(s) && WellFormed(t) && Reaches(s, t) && Earned(s, t, row) && s.next <= row.opening.id < t.next
    ensures ProvenLogin(t, row.owner, row.opening)
  {
    PromiseKept(s, t, ClockPast(s.now));
    if row.opening.means.SecondStep? {
      var challenge := row.opening.means.challenge;
      assert TokenSound(s, challenge);
      PromiseKept(s, t, TokenIsSigned(challenge, s.minted[challenge]));
    }
  }

  lemma {:induction false} CounterGrows(states: seq<System>, calls: seq<Call>, i: nat)
    requires IsSchedule(states, calls) && i <= |calls|
    ensures states[0].next <= states[i].next
  {
    if i > 0 {
      CounterGrows(states, calls, i - 1);
      assert states[i] == Apply(states[i - 1], calls[i - 1]);
      CallLeaves(states[i - 1], calls[i - 1]);
    }
  }

  lemma NextGrows(s: System, t: System)
    requires Reaches(s, t)
    ensures s.next <= t.next
  {
    var states, calls :| IsSchedule(states, calls) && states[0] == s && states[|calls|] == t;
    CounterGrows(states, calls, |calls|);
  }

  /** Where a row of the later state comes from. */
  lemma RowOrigin(s: System, t: System, c: RowChange, id: nat)
    requires Changes(s, t, c) && id in t.rows
    ensures c.Shrunk? || id != c.id ==>
      && id in s.rows
      && t.rows[id].opening == s.rows[id].opening && t.rows[id].owner == s.rows[id].owner
      && (s.rows[id].revoked ==> t.rows[id].revoked)
  {
    if !c.Shrunk? && id != c.id {
      assert id in t.rows - {c.id} && (t.rows - {c.id})[id] == t.rows[id];
    }
  }

  lemma StepKeepsProofs(s: System, t: System, c: RowChange)
    requires Safe(s) && Reaches(s, t) && WellFormed(t) && Changes(s, t, c)
    ensures AllProven(t)
  {
    NextGrows(s, t);
    forall id | id in t.rows ensures Proven(t, id) {
      RowOrigin(s, t, c, id);
      if c.Rotated? { assert Proven(s, c.consumed); }
      if id in s.rows { assert Proven(s, id); }
      if c.Shrunk? || id != c.id {
        ProofsLast(s, t, s.rows[id].owner, s.rows[id].opening);
      } else if c.Rotated? {
        ProofsLast(s, t, s.rows[c.consumed].owner, s.rows[c.consumed].opening);
      } else {
        EarnedIsProven(s, t, t.rows[id]);
      }
    }
  }

  lemma StepKeepsOneLive(s: System, t: System, c: RowChange)
    requires Safe(s) && Changes(s, t, c)
    ensures OneLive(t.rows)
  {
    forall id, id' | id in t.rows && id' in t.rows && t.rows[id].opening.id == t.rows[id'].opening.id
      ensures t.rows[id].opening == t.rows[id'].opening && t.rows[id].owner == t.rows[id'].owner
      ensures !t.rows[id].revoked && !t.rows[id'].revoked ==> id == id'
    {
      RowOrigin(s, t, c, id);
      RowOrigin(s, t, c, id');
      if id in s.rows { assert Proven(s, id); }
      if id' in s.rows { assert Proven(s, id'); }
      if c.Rotated? && c.consumed in t.rows { RowOrigin(s, t, c, c.consumed); }
    }
  }

  lemma StepKeepsProofsDistinct(s: System, t: System, c: RowChange)
    requires Safe(s) && Changes(s, t, c)
    ensures ProofsDistinct(t.rows)
  {
    forall id, id' | id in t.rows && id' in t.rows && SameProof(t.rows[id].opening.means, t.rows[id'].opening.means)
      ensures t.rows[id].opening.id == t.rows[id'].opening.id
    {
      RowOrigin(s, t, c, id);
      RowOrigin(s, t, c, id');
      if id in s.rows { assert Proven(s, id); }
      if id' in s.rows { assert Proven(s, id'); }
      if c.Rotated? { assert Proven(s, c.consumed); }
    }
  }

  lemma StepKeepsDescent(s: System, t: System, c: RowChange, owner: Principal, n: nat, at: Instant)
    requires Changes(s, t, c) && DescendsFrom(s, owner, n, at) && n <= s.next && at <= s.now
    ensures DescendsFrom(t, owner, n, at)
  {
    forall id | id in t.rows && t.rows[id].owner == owner && !t.rows[id].revoked
      ensures n <= t.rows[id].opening.id && at <= t.rows[id].opening.at
    {
      RowOrigin(s, t, c, id);
    }
  }

  lemma HandlerKeepsSafe(s: System, r: Request)
    requires Safe(s)
    ensures Safe(Handle(s, r).0)
  {
    var t := Handle(s, r).0;
    HandlerIsLawful(s, r);
    HandlerMovesRows(s, r);
    var c :| Changes(s, t, c);
    StepKeepsProofs(s, t, c);
    StepKeepsOneLive(s, t, c);
    StepKeepsProofsDistinct(s, t, c);
  }

  // ---- every run ----

  ghost predicate Initial(s: System) {
    && s.rows == map[] && s.mfa == map[] && s.spent == {} && s.links == map[] && s.revoked == map[]
    && s.cutoffs == map[] && s.minted == map[] && s.slots == map[]
  }

  lemma InitialIsSafe(s: System)
    requires Initial(s)
    ensures Safe(s)
  {
  }

  lemma {:induction false} RunIsSafe(s: System, requests: seq<Request>)
    requires Safe(s)
    ensures Safe(Run(s, requests))
    decreases |requests|
  {
    if requests != [] {
      HandlerKeepsSafe(s, requests[0]);
      RunIsSafe(Handle(s, requests[0]).0, requests[1..]);
    }
  }

  /** In every reachable state, of either plane, the rows of one login hold at most one live row. */
  lemma OneLiveCredentialPerLogin(s: System, requests: seq<Request>, id: nat, id': nat)
    requires Initial(s) && id in Run(s, requests).rows && id' in Run(s, requests).rows
    requires Run(s, requests).rows[id].opening.id == Run(s, requests).rows[id'].opening.id
    requires !Run(s, requests).rows[id].revoked && !Run(s, requests).rows[id'].revoked
    ensures id == id'
  {
    InitialIsSafe(s);
    RunIsSafe(s, requests);
  }

  /**
   In every reachable state: a session that owed a second factor when it was opened rests on a
   factor that has been used up and on a step-1 challenge for the same account; a magic-link
   session rests on a burnt link; and no factor or link stands behind two logins.
   */
  lemma SecondFactorBeforeSession(s: System, requests: seq<Request>, id: nat)
    requires Initial(s) && id in Run(s, requests).rows
    ensures var t := Run(s, requests); var row := t.rows[id];
      && (row.opening.factorDue ==> row.opening.means.SecondStep?)
      && (row.opening.means.SecondStep? ==>
            && row.opening.means.factor in t.spent
            && row.opening.means.challenge in t.minted
            && t.minted[row.opening.means.challenge].grant.Challenge?
            && t.minted[row.opening.means.challenge].grant.owner == row.owner)
      && (row.opening.means.MagicLink? ==> !Claimable(t, row.opening.means.link))
      && (forall id' :: id' in t.rows && SameProof(row.opening.means, t.rows[id'].opening.means) ==>
            t.rows[id'].opening == row.opening && t.rows[id'].owner == row.owner)
  {
    InitialIsSafe(s);
    RunIsSafe(s, requests);
    assert Proven(Run(s, requests), id);
  }

  /**
   The step behind that invariant. A row a request adds continues a live row, or is a login of
   its own; if the account owes a second factor at that moment, the login has just used up one
   that had never been used.
   */
  lemma NewSessionIsEarned(s: System, r: Request, id: nat)
    requires Safe(s)
    ensures var t := Handle(s, r).0;
      id in t.rows && id !in s.rows ==> var row := t.rows[id];
        || (exists was :: was in s.rows && !s.rows[was].revoked && s.rows[was].owner == row.owner && s.rows[was].opening == row.opening)
        || (s.next <= row.opening.id && Earned(s, t, row))
  {
    HandlerMovesRows(s, r);
    var t := Handle(s, r).0;
    var c :| Changes(s, t, c);
    if id in t.rows {
      RowOrigin(s, t, c, id);
    }
  }

  /** An enforced operator, and an enrolled user, get no session from a first factor, whatever the credentials. */
  lemma FirstFactorIsNotEnough(s: System, r: Request, p: Principal)
    requires FactorDue(s, p)
    requires (r.Login? && p.Tenant?) || (r.OperatorLogin? && p.Backoffice?)
    requires r.user == Some(p.id)
    ensures !Handle(s, r).1.SignedIn? && Handle(s, r).0.rows == s.rows
  {
  }

  lemma {:induction false} RunKeepsDescent(s: System, requests: seq<Request>, owner: Principal, n: nat, at: Instant)
    requires Safe(s) && DescendsFrom(s, owner, n, at) && n <= s.next && at <= s.now
    ensures DescendsFrom(Run(s, requests), owner, n, at)
    decreases |requests|
  {
    if requests != [] {
      var t := Handle(s, requests[0]).0;
      HandlerIsLawful(s, requests[0]);
      NextGrows(s, t);
      PromiseKept(s, t, ClockPast(s.now));
      HandlerMovesRows(s, requests[0]);
      var c :| Changes(s, t, c);
      StepKeepsDescent(s, t, c, owner, n, at);
      HandlerKeepsSafe(s, requests[0]);
      RunKeepsDescent(t, requests[1..], owner, n, at);
    }
  }

  // ---- replay ----

  /** The cookie's row is stored and revoked. */
  ghost predicate Replayed(s: System, raw: nat, id: nat) {
    HashedTo(s.rows, id, ANY_TENANT, Hash(raw)) && s.rows[id].revoked
  }

  /**
   A login opened after state s: its step 1 is handled after s too, unless it is a step 2 with
   a challenge that was already signed in s and is answered before it expires.
   */
  ghost predicate OpenedSince(s: System, t: System, o: Opening) {
    && s.next <= o.id && s.now <= o.at
    && (o.means.SecondStep? ==>
          var c := o.means.challenge;
          && c in t.minted && t.minted[c].grant.Challenge?
          && if s.next <= c then s.now <= t.minted[c].at
             else c in s.minted && t.minted[c] == s.minted[c] && Unix(o.at) < s.minted[c].claims.exp)
  }

  lemma ProvenSince(s: System, t: System, owner: Principal, o: Opening)
    requires WellFormed(s) && Reaches(s, t) && ProvenLogin(t, owner, o) && s.next <= o.id && s.now <= o.at
    ensures OpenedSince(s, t, o)
  {
    if o.means.SecondStep? {
      var c := o.means.challenge;
      if s.next <= c {
        assert forall j :: j in s.minted ==> TokenSound(s, j);
        PromiseKept(s, t, SignedSince(s.next, s.now));
      } else if c in s.minted {
        PromiseKept(s, t, TokenIsSigned(c, s.minted[c]));
      } else {
        PromiseKept(s, t, NeverSignedAs(c));
      }
    }
  }

  /**
   A replayed cookie is refused, every row of its account is revoked at once, and whatever
   requests follow, every row of the account that is ever live again belongs to a login
   opened after the replay: by a password or link handled after it, by a step 2 whose
   challenge was signed after it, or by a step 2 whose challenge was signed before it and
   had not expired when it was answered.
   */
  lemma ReplayIsContained(s: System, raw: nat, id: nat, bearer: Option<nat>, infra: Infra, requests: seq<Request>)
    requires Safe(s) && Replayed(s, raw, id) && !BearerIsImpersonation(s, bearer)
    ensures var (t, resp) := Handle(s, Refresh(Value(raw), bearer, infra));
      && resp == Refused(RefreshExpiredOrRevoked)
      && (forall k :: k in t.rows && t.rows[k].owner == s.rows[id].owner ==> t.rows[k].revoked)
      && var v := Run(t, requests);
         forall k :: k in v.rows && v.rows[k].owner == s.rows[id].owner && !v.rows[k].revoked ==>
           OpenedSince(s, v, v.rows[k].opening)
  {
    var r := Refresh(Value(raw), bearer, infra);
    FoundByHash(s.rows, s.next, id, ANY_TENANT);
    var t := Handle(s, r).0;
    var v := Run(t, requests);
    var owner := s.rows[id].owner;
    assert t == RevokeByOwner(s, owner);
    HandlerKeepsSafe(s, r);
    HandlerIsLawful(s, r);
    RunKeepsDescent(t, requests, owner, s.next, s.now);
    RunIsSafe(t, requests);
    RunIsLawful(t, requests);
    ReachesIsTransitive(s, t, v);
    AllOpenedSince(s, v, owner);
  }

  lemma AllOpenedSince(s: System, v: System, owner: Principal)
    requires WellFormed(s) && Reaches(s, v) && AllProven(v) && DescendsFrom(v, owner, s.next, s.now)
    ensures forall k :: k in v.rows && v.rows[k].owner == owner && !v.rows[k].revoked ==> OpenedSince(s, v, v.rows[k].opening)
  {
    forall k | k in v.rows && v.rows[k].owner == owner && !v.rows[k].revoked ensures OpenedSince(s, v, v.rows[k].opening) {
      assert Proven(v, k);
      ProvenSince(s, v, owner, v.rows[k].opening);
    }
  }

  /** A refresh that answers with a session has consumed the cookie's row. */
  lemma RefreshConsumes(s: System, raw: nat, bearer: Option<nat>)
    requires Safe(s) && Handle(s, Refresh(Value(raw), bearer, AllWorks)).1.SignedIn?
    ensures var found := FindByHash(s.rows, ANY_TENANT, Hash(raw)); var t := Handle(s, Refresh(Value(raw), bearer, AllWorks)).0;
      && found.Some?
      && s.rows[found.value].owner.Tenant?
      && Holds(t, RowStaysRevoked(found.value))
      && Holds(s, RowIs(found.value, s.rows[found.value].owner, Hash(raw)))
  {
    var id := FindByHash(s.rows, ANY_TENANT, Hash(raw)).value;
    assert Handle(s, Refresh(Value(raw), bearer, AllWorks)) == RotationOf(s, id, AllWorks);
  }

  /** How a refresh answers a cookie whose row is revoked or gone. */
  lemma DeadCookieIsRefused(t: System, raw: nat, id: nat, owner: Principal, bearer: Option<nat>, infra: Infra)
    requires Safe(t) && !BearerIsImpersonation(t, bearer) && owner.Tenant?
    requires Holds(t, RowStaysRevoked(id)) && Holds(t, RowIs(id, owner, Hash(raw)))
    ensures var (u, resp) := Handle(t, Refresh(Value(raw), bearer, infra));
      if id in t.rows then Replayed(t, raw, id) && resp == Refused(RefreshExpiredOrRevoked)
      else u == t && resp == Refused(InvalidRefreshToken)
  {
    if id in t.rows {
      FoundByHash(t.rows, t.next, id, ANY_TENANT);
    } else {
      assert FindByHash(t.rows, ANY_TENANT, Hash(raw)) == None;
    }
  }

  /**
   From the first use of a cookie to its replay: after a refresh has consumed it and any
   requests have followed, presenting it again is refused; it is a replay in the above sense
   exactly when its row has not been purged, and otherwise changes nothing.
   */
  lemma ConsumedCookieIsRefused(s: System, raw: nat, bearer: Option<nat>, requests: seq<Request>, bearer': Option<nat>, infra: Infra)
    requires Safe(s) && Handle(s, Refresh(Value(raw), bearer, AllWorks)).1.SignedIn?
    requires var t := Run(Handle(s, Refresh(Value(raw), bearer, AllWorks)).0, requests); !BearerIsImpersonation(t, bearer')
    ensures var t := Run(Handle(s, Refresh(Value(raw), bearer, AllWorks)).0, requests);
      var (u, resp) := Handle(t, Refresh(Value(raw), bearer', infra));
      var id := FindByHash(s.rows, ANY_TENANT, Hash(raw)).value;
      if id in t.rows then Replayed(t, raw, id) && resp == Refused(RefreshExpiredOrRevoked)
      else u == t && resp == Refused(InvalidRefreshToken)
  {
    var r := Refresh(Value(raw), bearer, AllWorks);
    RefreshConsumes(s, raw, bearer);
    var id := FindByHash(s.rows, ANY_TENANT, Hash(raw)).value;
    var owner := s.rows[id].owner;
    var s' := Handle(s, r).0;
    HandlerIsLawful(s, r);
    HandlerKeepsSafe(s, r);
    RunIsLawful(s', requests);
    RunIsSafe(s', requests);
    PromiseKept(s, s', RowIs(id, owner, Hash(raw)));
    PromiseKept(s', Run(s', requests), RowIs(id, owner, Hash(raw)));
    PromiseKept(s', Run(s', requests), RowStaysRevoked(id));
    DeadCookieIsRefused(Run(s', requests), raw, id, owner, bearer', infra);
  }

  lemma RevokedRowsLeaveStepTwo(s: System, owner: Principal, p: Principal, challenge: nat, totp: Option<TotpCode>, backup: Option<nat>, infra: Infra)
    requires challenge in s.minted
    ensures AuthMfa.StepTwo(RevokeByOwner(s, owner), p, challenge, totp, backup, infra).1
         == AuthMfa.StepTwo(s, p, challenge, totp, backup, infra).1
  {
    var t := RevokeByOwner(s, owner);
    if MfaEnabled(s, p) {
      var f := FactorOf(s, p, totp, backup);
      assert FactorOf(t, p, totp, backup) == f;
      FactorFrame(s, p, f);
      FactorFrame(t, p, f);
    }
  }

  /** The third case is open: a step-2 challenge signed before the replay is answered exactly as without it. */
  lemma ReplayLeavesStepTwoOpen(s: System, owner: Principal, challenge: nat, totp: Option<TotpCode>, backup: Option<nat>, locked: bool, infra: Infra)
    ensures Handle(RevokeByOwner(s, owner), LoginMfa(challenge, totp, backup, locked, infra)).1
         == Handle(s, LoginMfa(challenge, totp, backup, locked, infra)).1
  {
    assert ParseMfaToken(RevokeByOwner(s, owner), challenge) == ParseMfaToken(s, challenge);
    if ParseMfaToken(s, challenge).Ok? {
      RevokedRowsLeaveStepTwo(s, owner, Tenant(ParseMfaToken(s, challenge).value.0), challenge, totp, backup, infra);
    }
  }
}
