/**
 The registry, store and blacklist calls the handlers are made of. Every call is one
 atomic step, so a sequence of calls is any interleaving of any number of handlers;
 what is proved here about sequences needs no handler to be atomic.
 */
module Registries {
  import opened Basics
  import opened Model
  import opened Tokens

  const REFRESH_TTL: nat := 30 * 86_400 * SECOND
  const LINK_TTL: nat := 15 * MINUTE
  const BACKUP_CODE_COUNT: nat := 10

  // ---- refresh rows ----

  predicate SamePlane(p: Principal, q: Principal) {
    p.Tenant? == q.Tenant?
  }

  predicate HashedTo(rows: map<nat, Row>, id: nat, plane: Principal, h: Hash) {
    id in rows && rows[id].hash == h && SamePlane(rows[id].owner, plane)
  }

  /** The row of a plane's registry with this hash, if there is one. */
  ghost function FindByHash(rows: map<nat, Row>, plane: Principal, h: Hash): (r: Option<nat>)
    ensures r.Some? ==> HashedTo(rows, r.value, plane, h)
    ensures r.None? ==> forall id :: !HashedTo(rows, id, plane, h)
  {
    if exists id :: HashedTo(rows, id, plane, h) then
      var id :| HashedTo(rows, id, plane, h);
      Some(id)
    else None
  }

  lemma FoundByHash(rows: map<nat, Row>, next: nat, id: nat, plane: Principal)
    requires RowsFresh(rows, next) && id in rows && SamePlane(rows[id].owner, plane)
    ensures FindByHash(rows, plane, rows[id].hash) == Some(id)
  {
    assert HashedTo(rows, id, plane, rows[id].hash);
  }

  function WithoutRow(rows: map<nat, Row>, owner: Principal, id: nat): map<nat, Row> {
    if id in rows && rows[id].owner == owner then rows[id := rows[id].(revoked := true)] else rows
  }

  function WithoutRowsOf(rows: map<nat, Row>, owner: Principal): map<nat, Row> {
    map id | id in rows :: if rows[id].owner == owner then rows[id].(revoked := true) else rows[id]
  }

  function LiveUntil(rows: map<nat, Row>, now: Instant): map<nat, Row> {
    map id | id in rows && now <= rows[id].expiresAt :: rows[id]
  }

  function FreshRow(s: System, owner: Principal, opening: Opening): Row {
    Row(owner, Hash(s.next + 1), s.now, s.now + REFRESH_TTL, false, opening)
  }

  /** Create: the row is number s.next and its cookie value is s.next + 1. */
  function CreateRow(s: System, owner: Principal, opening: Opening): System {
    s.(rows := s.rows[s.next := FreshRow(s, owner, opening)], next := s.next + 2)
  }

  function RevokeById(s: System, owner: Principal, id: nat): System {
    s.(rows := WithoutRow(s.rows, owner, id))
  }

  function RevokeByOwner(s: System, owner: Principal): System {
    s.(rows := WithoutRowsOf(s.rows, owner))
  }

  function DeleteExpiredRows(s: System): System {
    s.(rows := LiveUntil(s.rows, s.now))
  }

  // ---- tokens and the blacklist ----

  /** Sign: the token's jti is s.next. */
  function Mint(s: System, g: Grant): System {
    s.(minted := s.minted[s.next := Token(ClaimsFor(g, s.now), g, s.now)], next := s.next + 1)
  }

  function BlacklistToken(s: System, jti: nat, until: Instant): System {
    if until <= s.now then s else s.(revoked := s.revoked[jti := until])
  }

  function BlacklistUserTokens(s: System, p: Principal): System {
    s.(cutoffs := s.cutoffs[p := Cutoff(Unix(s.now), s.now + BLACKLIST_RING)])
  }

  // ---- second factors ----

  predicate MfaEnabled(s: System, p: Principal) {
    p in s.mfa && s.mfa[p].enabled
  }

  /** k backup codes no list has held before: the numbers n, n + 1, ... */
  function CodesFrom(n: nat, k: nat): seq<nat> {
    seq(k, i requires 0 <= i < k => n + i)
  }

  lemma {:induction false} CodesFromCounts(n: nat, k: nat)
    ensures forall c :: multiset(CodesFrom(n, k))[c] == if n <= c < n + k then 1 else 0
    decreases k
  {
    if k > 0 {
      CodesFromCounts(n, k - 1);
      assert CodesFrom(n, k) == CodesFrom(n, k - 1) + [n + k - 1];
    }
  }

  function FreshCodes(n: nat): seq<nat> {
    CodesFrom(n, BACKUP_CODE_COUNT)
  }

  /** Create of a pending enrollment; a second row for the same account is refused. */
  function CreateMfa(s: System, p: Principal): System {
    if p in s.mfa then s
    else s.(mfa := s.mfa[p := MfaRow(s.next, s.next + 1, false, [], 0, 0, 0)], next := s.next + 2)
  }

  function DeleteMfa(s: System, p: Principal): System {
    s.(mfa := s.mfa - {p})
  }

  /** The pending-to-enabled write, read and written in one step. */
  function EnableMfa(s: System, p: Principal): System {
    if p !in s.mfa || s.mfa[p].enabled then s
    else s.(mfa := s.mfa[p := s.mfa[p].(enabled := true, codes := FreshCodes(s.next), firstCode := s.next, issued := BACKUP_CODE_COUNT)],
            next := s.next + BACKUP_CODE_COUNT)
  }

  predicate StepWins(s: System, p: Principal, step: int) {
    p in s.mfa && s.mfa[p].lastStep < step
  }

  /** MarkTOTPStepUsedAtomic. */
  function MarkStep(s: System, p: Principal, step: int): System {
    if !StepWins(s, p, step) then s
    else s.(mfa := s.mfa[p := s.mfa[p].(lastStep := step)],
            spent := s.spent + {TotpStep(s.mfa[p].incarnation, step)})
  }

  /** The list without the first element that matches. */
  function RemoveFirst(codes: seq<nat>, code: nat): seq<nat> {
    if codes == [] then []
    else if codes[0] == code then codes[1..]
    else [codes[0]] + RemoveFirst(codes[1..], code)
  }

  lemma {:induction false} RemoveFirstTakesOne(codes: seq<nat>, code: nat)
    ensures multiset(RemoveFirst(codes, code)) == multiset(codes) - multiset{code}
    ensures |RemoveFirst(codes, code)| == if code in codes then |codes| - 1 else |codes|
  {
    if codes != [] {
      var rest := codes[1..];
      assert codes == [codes[0]] + rest;
      assert multiset(codes) == multiset{codes[0]} + multiset(rest);
      if codes[0] != code {
        RemoveFirstTakesOne(rest, code);
        assert multiset([codes[0]] + RemoveFirst(rest, code)) == multiset{codes[0]} + multiset(RemoveFirst(rest, code));
      }
    }
  }

  lemma {:induction false} RemoveFirstExtends(codes: seq<nat>, last: nat, code: nat)
    ensures RemoveFirst(codes + [last], code) ==
            if code in codes then RemoveFirst(codes, code) + [last]
            else if last == code then codes
            else codes + [last]
  {
    var all := codes + [last];
    if codes == [] {
      assert all[1..] == [];
    } else {
      var rest := codes[1..];
      assert all[0] == codes[0] && all[1..] == rest + [last];
      if codes[0] != code {
        RemoveFirstExtends(rest, last, code);
        assert code in codes <==> code in rest;
        assert RemoveFirst(all, code) == [codes[0]] + RemoveFirst(rest + [last], code);
        if code in rest {
          assert [codes[0]] + (RemoveFirst(rest, code) + [last]) == ([codes[0]] + RemoveFirst(rest, code)) + [last];
        } else {
          assert [codes[0]] + rest == codes;
          assert [codes[0]] + (rest + [last]) == codes + [last];
        }
      }
    }
  }

  predicate CodeMatches(s: System, p: Principal, code: nat) {
    p in s.mfa && code in s.mfa[p].codes
  }

  /** ConsumeBackupCodeAtomic. */
  function ConsumeCode(s: System, p: Principal, code: nat): System {
    if !CodeMatches(s, p, code) then s
    else s.(mfa := s.mfa[p := s.mfa[p].(codes := RemoveFirst(s.mfa[p].codes, code))],
            spent := s.spent + {BackupCode(s.mfa[p].incarnation, code)})
  }

  /** UpdateBackupCodes: the targeted write of a regenerated list; the step ledger is left alone. */
  function UpdateCodes(s: System, p: Principal): System {
    if p !in s.mfa then s
    else s.(mfa := s.mfa[p := s.mfa[p].(codes := FreshCodes(s.next), firstCode := s.next, issued := BACKUP_CODE_COUNT)],
            next := s.next + BACKUP_CODE_COUNT)
  }

  // ---- sign-in links ----

  function CreateLink(s: System, user: nat, tenant: nat): System {
    s.(links := s.links[s.next := Link(user, tenant, s.now + LINK_TTL, false)], next := s.next + 1)
  }

  predicate Claimable(s: System, link: nat) {
    link in s.links && !s.links[link].claimed && s.now <= s.links[link].expiresAt
  }

  function MarkClaimed(s: System, link: nat): System {
    if !Claimable(s, link) then s else s.(links := s.links[link := s.links[link].(claimed := true)])
  }

  function DeleteLinksOf(s: System, user: nat): System {
    s.(links := map l | l in s.links && s.links[l].user != user :: s.links[l])
  }

  // ---- impersonation slots ----

  function PutSlot(s: System, jti: nat, slot: Slot): System {
    s.(slots := s.slots[jti := slot])
  }

  predicate SlotLive(s: System, jti: nat) {
    jti in s.slots && s.now <= s.slots[jti].expiresAt
  }

  function DeleteSlot(s: System, jti: nat): System {
    s.(slots := s.slots - {jti})
  }

  // ---- one call ----

  datatype Call =
    | CTick(d: nat)
    | CPutUser(user: nat, tenantUser: TenantUser)
    | CPutOperator(operator: nat, backofficeUser: BackofficeUser)
    | CCreateRow(owner: Principal, opening: Opening)
    | CRevokeById(owner: Principal, id: nat)
    | CRevokeByOwner(owner: Principal)
    | CDeleteExpired
    | CMint(grant: Grant)
    | CBlacklistToken(jti: nat, until: Instant)
    | CBlacklistUser(owner: Principal)
    | CCreateMfa(owner: Principal)
    | CDeleteMfa(owner: Principal)
    | CEnableMfa(owner: Principal)
    | CMarkStep(owner: Principal, step: int)
    | CConsumeCode(owner: Principal, code: nat)
    | CUpdateCodes(owner: Principal)
    | CCreateLink(user: nat, tenant: nat)
    | CMarkClaimed(link: nat)
    | CDeleteLinks(user: nat)
    | CPutSlot(jti: nat, slot: Slot)
    | CDeleteSlot(jti: nat)

  function Tick(s: System, d: nat): System {
    s.(now := s.now + d)
  }

  function PutUser(s: System, u: nat, user: TenantUser): System {
    s.(users := s.users[u := user])
  }

  function PutOperator(s: System, a: nat, operator: BackofficeUser): System {
    s.(operators := s.operators[a := operator])
  }

  function Apply(s: System, c: Call): System {
    match c
    case CTick(d) => Tick(s, d)
    case CPutUser(u, user) => PutUser(s, u, user)
    case CPutOperator(a, operator) => PutOperator(s, a, operator)
    case CCreateRow(owner, opening) => CreateRow(s, owner, opening)
    case CRevokeById(owner, id) => RevokeById(s, owner, id)
    case CRevokeByOwner(owner) => RevokeByOwner(s, owner)
    case CDeleteExpired => DeleteExpiredRows(s)
    case CMint(g) => Mint(s, g)
    case CBlacklistToken(jti, until) => BlacklistToken(s, jti, until)
    case CBlacklistUser(p) => BlacklistUserTokens(s, p)
    case CCreateMfa(p) => CreateMfa(s, p)
    case CDeleteMfa(p) => DeleteMfa(s, p)
    case CEnableMfa(p) => EnableMfa(s, p)
    case CMarkStep(p, step) => MarkStep(s, p, step)
    case CConsumeCode(p, code) => ConsumeCode(s, p, code)
    case CUpdateCodes(p) => UpdateCodes(s, p)
    case CCreateLink(u, t) => CreateLink(s, u, t)
    case CMarkClaimed(link) => MarkClaimed(s, link)
    case CDeleteLinks(u) => DeleteLinksOf(s, u)
    case CPutSlot(jti, slot) => PutSlot(s, jti, slot)
    case CDeleteSlot(jti) => DeleteSlot(s, jti)
  }

  predicate IsOperatorSession(g: Grant, operator: nat) {
    (g.Session? && g.owner == Backoffice(operator)) || (g.Restored? && g.operator == operator)
  }

  /**
   What the handlers keep to, whatever the schedule: every condition is about a token
   already signed, so it still holds if other calls come between the check and this call.
   */
  predicate Lawful(s: System, c: Call) {
    match c
    case CMint(Impersonation(_, _, operator, bearer, ttl)) =>
      ttl <= MAX_IMPERSONATION_TTL && bearer in s.minted && IsOperatorSession(s.minted[bearer].grant, operator)
    case CMint(Restored(operator, jti, _)) =>
      jti in s.minted && s.minted[jti].grant.Impersonation? && s.minted[jti].grant.operator == operator
    case CBlacklistToken(jti, until) =>
      jti in s.minted && s.minted[jti].claims.exp * SECOND <= until
    case CPutSlot(jti, slot) =>
      && jti in s.minted
      && s.minted[jti].grant.Impersonation?
      && s.minted[jti].grant.operator == slot.operator
      && s.minted[jti].grant.target == slot.target
      && s.minted[jti].claims.exp * SECOND <= slot.expiresAt
    case _ => true
  }

  /** The states a sequence of lawful calls goes through. */
  ghost predicate IsSchedule(states: seq<System>, calls: seq<Call>) {
    |states| == |calls| + 1 &&
    forall i {:trigger calls[i]} :: 0 <= i < |calls| ==>
      Lawful(states[i], calls[i]) && states[i + 1] == Apply(states[i], calls[i])
  }

  /** Some schedule of lawful calls leads from s to t. */
  ghost predicate Reaches(s: System, t: System) {
    exists states, calls :: IsSchedule(states, calls) && states[0] == s && states[|calls|] == t
  }

  lemma ReachesSelf(s: System)
    ensures Reaches(s, s)
  {
    assert IsSchedule([s], []);
  }

  lemma ReachesNext(s: System, t: System, c: Call)
    requires Reaches(s, t) && Lawful(t, c)
    ensures Reaches(s, Apply(t, c))
  {
    var states, calls :| IsSchedule(states, calls) && states[0] == s && states[|calls|] == t;
    var states', calls' := states + [Apply(t, c)], calls + [c];
    forall i | 0 <= i < |calls'| ensures Lawful(states'[i], calls'[i]) && states'[i + 1] == Apply(states'[i], calls'[i]) {
      if i < |calls| {
        assert calls'[i] == calls[i];
      }
    }
    assert IsSchedule(states', calls');
  }

  // ---- the invariant every lawful call keeps ----

  ghost predicate RowsFresh(rows: map<nat, Row>, next: nat) {
    && (forall id :: id in rows ==> id < next && rows[id].hash.raw < next)
    && (forall id, id' :: id in rows && id' in rows && rows[id].hash == rows[id'].hash ==> id == id')
  }

  ghost predicate TokenSound(s: System, j: nat)
    requires j in s.minted
  {
    var t := s.minted[j];
    && j < s.next && t.at <= s.now
    && t.claims == ClaimsFor(t.grant, t.at)
    && (t.grant.Impersonation? ==>
          && t.grant.ttl <= MAX_IMPERSONATION_TTL
          && t.grant.bearer < j && t.grant.bearer in s.minted
          && IsOperatorSession(s.minted[t.grant.bearer].grant, t.grant.operator))
    && (t.grant.Restored? ==>
          && t.grant.impersonation < j && t.grant.impersonation in s.minted
          && s.minted[t.grant.impersonation].grant.Impersonation?
          && s.minted[t.grant.impersonation].grant.operator == t.grant.operator)
  }

  ghost predicate TokensSound(s: System) {
    forall j :: j in s.minted ==> TokenSound(s, j)
  }

  /** c is one of the codes of the current list and has not been redeemed. */
  ghost predicate Unused(r: MfaRow, spent: set<Factor>, c: nat) {
    r.firstCode <= c < r.firstCode + r.issued && BackupCode(r.incarnation, c) !in spent
  }

  /** The stored list is exactly the unused codes, each once; the stored step is past every used one. */
  ghost predicate MfaSound(r: MfaRow, spent: set<Factor>, next: nat) {
    && r.incarnation < next && r.firstCode + r.issued <= next
    && (forall c :: multiset(r.codes)[c] == if Unused(r, spent, c) then 1 else 0)
    && (forall step :: TotpStep(r.incarnation, step) in spent ==> step <= r.lastStep)
  }

  ghost predicate FactorFresh(f: Factor, next: nat) {
    f.incarnation < next && (f.BackupCode? ==> f.code < next)
  }

  /** At most one row per incarnation, every row in step with the ledger of used factors. */
  ghost predicate LedgerSound(mfa: map<Principal, MfaRow>, spent: set<Factor>, next: nat) {
    && (forall p :: p in mfa ==> MfaSound(mfa[p], spent, next))
    && (forall p, q :: p in mfa && q in mfa && mfa[p].incarnation == mfa[q].incarnation ==> p == q)
    && (forall f :: f in spent ==> FactorFresh(f, next))
  }

  ghost predicate SlotsSound(s: System) {
    forall j :: j in s.slots ==>
      && j in s.minted
      && s.minted[j].grant.Impersonation?
      && s.minted[j].grant.operator == s.slots[j].operator
      && s.minted[j].grant.target == s.slots[j].target
      && s.minted[j].claims.exp * SECOND <= s.slots[j].expiresAt
  }

  ghost predicate LinksFresh(s: System) {
    forall l :: l in s.links ==> l < s.next
  }

  /** Only signed tokens are blacklisted, and no cutoff lies ahead of the clock. */
  ghost predicate RevocationsSound(s: System) {
    (forall j :: j in s.revoked ==> j in s.minted) && (forall p :: p in s.cutoffs ==> s.cutoffs[p].since <= Unix(s.now))
  }

  ghost predicate WellFormed(s: System) {
    && RowsFresh(s.rows, s.next) && TokensSound(s) && LedgerSound(s.mfa, s.spent, s.next)
    && SlotsSound(s) && LinksFresh(s) && RevocationsSound(s)
  }

  predicate TouchesRows(c: Call) {
    c.CCreateRow? || c.CRevokeById? || c.CRevokeByOwner? || c.CDeleteExpired?
  }

  predicate TouchesMfa(c: Call) {
    c.CMarkStep? || c.CConsumeCode? || c.CEnableMfa? || c.CUpdateCodes? || c.CCreateMfa? || c.CDeleteMfa?
  }

  predicate TouchesLinks(c: Call) {
    c.CCreateLink? || c.CMarkClaimed? || c.CDeleteLinks?
  }

  lemma EnableLeaves(s: System, p: Principal)
    ensures var t := EnableMfa(s, p); t == s.(mfa := t.mfa, next := t.next) && s.next <= t.next
  {
  }

  lemma UpdateLeaves(s: System, p: Principal)
    ensures var t := UpdateCodes(s, p); t == s.(mfa := t.mfa, next := t.next) && s.next <= t.next
  {
  }

  /** What each kind of call leaves alone. */
  ghost predicate Leaves(s: System, c: Call, t: System) {
    && s.now <= t.now && s.next <= t.next
    && (!TouchesRows(c) ==> t.rows == s.rows)
    && (!TouchesMfa(c) ==> t.mfa == s.mfa && t.spent == s.spent)
    && (!TouchesLinks(c) ==> t.links == s.links)
    && (!c.CMint? ==> t.minted == s.minted)
    && (!c.CBlacklistToken? ==> t.revoked == s.revoked)
    && (!c.CBlacklistUser? ==> t.cutoffs == s.cutoffs)
    && (!c.CPutSlot? && !c.CDeleteSlot? ==> t.slots == s.slots)
  }

  lemma RowCallLeaves(s: System, c: Call)
    requires TouchesRows(c)
    ensures Leaves(s, c, Apply(s, c))
  {
  }

  lemma MarkLeaves(s: System, p: Principal, step: int)
    ensures var t := MarkStep(s, p, step); t == s.(mfa := t.mfa, spent := t.spent)
  {
  }

  lemma ConsumeLeaves(s: System, p: Principal, code: nat)
    ensures var t := ConsumeCode(s, p, code); t == s.(mfa := t.mfa, spent := t.spent)
  {
  }

  lemma TakingLeaves(s: System, c: Call)
    requires c.CMarkStep? || c.CConsumeCode?
    ensures Leaves(s, c, Apply(s, c))
  {
    if c.CMarkStep? {
      MarkLeaves(s, c.owner, c.step);
    } else {
      ConsumeLeaves(s, c.owner, c.code);
    }
  }

  lemma CreateLeaves(s: System, p: Principal)
    ensures var t := CreateMfa(s, p); t == s.(mfa := t.mfa, next := t.next) && s.next <= t.next
  {
  }

  lemma EnrollingLeaves(s: System, c: Call)
    requires c.CCreateMfa? || c.CDeleteMfa?
    ensures Leaves(s, c, Apply(s, c))
  {
    if c.CCreateMfa? {
      CreateLeaves(s, c.owner);
    }
  }

  lemma IssuingLeaves(s: System, c: Call)
    requires c.CEnableMfa? || c.CUpdateCodes?
    ensures Leaves(s, c, Apply(s, c))
  {
    if c.CEnableMfa? {
      EnableLeaves(s, c.owner);
    } else {
      UpdateLeaves(s, c.owner);
    }
  }

  lemma SigningLeaves(s: System, c: Call)
    requires c.CMint?
    ensures Leaves(s, c, Apply(s, c))
  {
  }

  lemma RevocationLeaves(s: System, jti: nat, until: Instant)
    ensures var t := BlacklistToken(s, jti, until); t == s.(revoked := t.revoked)
  {
  }

  lemma BlacklistLeaves(s: System, c: Call)
    requires c.CBlacklistToken? || c.CBlacklistUser?
    ensures Leaves(s, c, Apply(s, c))
  {
    if c.CBlacklistToken? {
      RevocationLeaves(s, c.jti, c.until);
    }
  }

  lemma ClaimLeaves(s: System, link: nat)
    ensures var t := MarkClaimed(s, link); t == s.(links := t.links)
  {
  }

  lemma LinkCallLeaves(s: System, c: Call)
    requires TouchesLinks(c)
    ensures Leaves(s, c, Apply(s, c))
  {
    if c.CMarkClaimed? {
      ClaimLeaves(s, c.link);
    }
  }

  lemma SlotCallLeaves(s: System, c: Call)
    requires c.CPutSlot? || c.CDeleteSlot?
    ensures Leaves(s, c, Apply(s, c))
  {
  }

  lemma WorldCallLeaves(s: System, c: Call)
    requires c.CTick? || c.CPutUser? || c.CPutOperator?
    ensures Leaves(s, c, Apply(s, c))
  {
  }

  lemma CallLeaves(s: System, c: Call)
    ensures Leaves(s, c, Apply(s, c))
  {
    match c
    case CTick(_) => WorldCallLeaves(s, c);
    case CPutUser(_, _) => WorldCallLeaves(s, c);
    case CPutOperator(_, _) => WorldCallLeaves(s, c);
    case CCreateRow(_, _) => RowCallLeaves(s, c);
    case CRevokeById(_, _) => RowCallLeaves(s, c);
    case CRevokeByOwner(_) => RowCallLeaves(s, c);
    case CDeleteExpired => RowCallLeaves(s, c);
    case CMint(_) => SigningLeaves(s, c);
    case CBlacklistToken(_, _) => BlacklistLeaves(s, c);
    case CBlacklistUser(_) => BlacklistLeaves(s, c);
    case CCreateMfa(_) => EnrollingLeaves(s, c);
    case CDeleteMfa(_) => EnrollingLeaves(s, c);
    case CEnableMfa(_) => IssuingLeaves(s, c);
    case CUpdateCodes(_) => IssuingLeaves(s, c);
    case CMarkStep(_, _) => TakingLeaves(s, c);
    case CConsumeCode(_, _) => TakingLeaves(s, c);
    case CCreateLink(_, _) => LinkCallLeaves(s, c);
    case CMarkClaimed(_) => LinkCallLeaves(s, c);
    case CDeleteLinks(_) => LinkCallLeaves(s, c);
    case CPutSlot(_, _) => SlotCallLeaves(s, c);
    case CDeleteSlot(_) => SlotCallLeaves(s, c);
  }

  lemma RowsStayFresh(s: System, c: Call)
    requires RowsFresh(s.rows, s.next)
    ensures RowsFresh(Apply(s, c).rows, Apply(s, c).next)
  {
    if !TouchesRows(c) {
      CallLeaves(s, c);
    } else if c.CCreateRow? {
      assert Apply(s, c) == CreateRow(s, c.owner, c.opening);
    }
  }

  lemma TokensOutlast(s: System, t: System)
    requires TokensSound(s) && t.minted == s.minted && s.now <= t.now && s.next <= t.next
    ensures TokensSound(t)
  {
    forall j | j in t.minted ensures TokenSound(t, j) {
      assert TokenSound(s, j);
    }
  }

  lemma TokensStaySound(s: System, c: Call)
    requires TokensSound(s) && Lawful(s, c)
    ensures TokensSound(Apply(s, c))
  {
    if c.CMint? {
      assert Apply(s, c) == Mint(s, c.grant);
    } else {
      CallLeaves(s, c);
      TokensOutlast(s, Apply(s, c));
    }
  }

  lemma SlotsOutlast(s: System, t: System)
    requires SlotsSound(s) && t.slots == s.slots && t.minted == s.minted
    ensures SlotsSound(t)
  {
  }

  lemma SlotsStaySound(s: System, c: Call)
    requires SlotsSound(s) && TokensSound(s) && Lawful(s, c)
    ensures SlotsSound(Apply(s, c))
  {
    if c.CPutSlot? {
      assert Apply(s, c) == PutSlot(s, c.jti, c.slot);
    } else if c.CDeleteSlot? {
      assert Apply(s, c) == DeleteSlot(s, c.jti);
    } else if c.CMint? {
      assert Apply(s, c) == Mint(s, c.grant);
      assert forall j :: j in s.minted ==> TokenSound(s, j);
    } else {
      CallLeaves(s, c);
      SlotsOutlast(s, Apply(s, c));
    }
  }

  lemma RevocationsStaySound(s: System, c: Call)
    requires RevocationsSound(s) && Lawful(s, c)
    ensures RevocationsSound(Apply(s, c))
  {
    CallLeaves(s, c);
    if c.CMint? {
      assert Apply(s, c) == Mint(s, c.grant);
    } else if c.CBlacklistToken? {
      assert Apply(s, c) == BlacklistToken(s, c.jti, c.until);
    }
  }

  lemma LedgerGrows(mfa: map<Principal, MfaRow>, spent: set<Factor>, next: nat, later: nat)
    requires LedgerSound(mfa, spent, next) && next <= later
    ensures LedgerSound(mfa, spent, later)
  {
    forall p | p in mfa ensures MfaSound(mfa[p], spent, later) {
      assert MfaSound(mfa[p], spent, next);
    }
    forall f | f in spent ensures FactorFresh(f, later) {
      assert FactorFresh(f, next);
    }
  }

  /** One row is replaced, and at most one factor of that row's incarnation is added to the ledger. */
  lemma LedgerReplaces(mfa: map<Principal, MfaRow>, spent: set<Factor>, next: nat, p: Principal, r: MfaRow, more: set<Factor>)
    requires LedgerSound(mfa, spent, next)
    requires forall f :: f in more ==> f.incarnation == r.incarnation && FactorFresh(f, next)
    requires forall q :: q in mfa && mfa[q].incarnation == r.incarnation ==> q == p
    requires MfaSound(r, spent + more, next)
    ensures LedgerSound(mfa[p := r], spent + more, next)
  {
    forall q | q in mfa && q != p ensures MfaSound(mfa[q], spent + more, next) {
      assert MfaSound(mfa[q], spent, next);
    }
    forall f | f in spent + more ensures FactorFresh(f, next) {
    }
  }

  lemma MarkStepKeepsLedger(s: System, p: Principal, step: int)
    requires LedgerSound(s.mfa, s.spent, s.next)
    ensures var t := MarkStep(s, p, step); LedgerSound(t.mfa, t.spent, t.next)
  {
    if StepWins(s, p, step) {
      assert MfaSound(s.mfa[p], s.spent, s.next);
      LedgerReplaces(s.mfa, s.spent, s.next, p, s.mfa[p].(lastStep := step), {TotpStep(s.mfa[p].incarnation, step)});
    }
  }

  lemma BagWithout(bag: multiset<nat>, code: nat)
    requires bag[code] == 1
    ensures forall c :: (bag - multiset{code})[c] == if c == code then 0 else bag[c]
  {
  }

  lemma RedeemKeepsRow(r: MfaRow, rest: MfaRow, spent: set<Factor>, next: nat, code: nat)
    requires MfaSound(r, spent, next) && multiset(r.codes)[code] > 0
    requires multiset(rest.codes) == multiset(r.codes) - multiset{code}
    requires rest == r.(codes := rest.codes)
    ensures MfaSound(rest, spent + {BackupCode(r.incarnation, code)}, next)
  {
    BagWithout(multiset(r.codes), code);
  }

  lemma ConsumeCodeKeepsLedger(s: System, p: Principal, code: nat)
    requires LedgerSound(s.mfa, s.spent, s.next)
    ensures var t := ConsumeCode(s, p, code); LedgerSound(t.mfa, t.spent, t.next)
  {
    if CodeMatches(s, p, code) {
      var r := s.mfa[p];
      assert MfaSound(r, s.spent, s.next);
      assert multiset(r.codes)[code] > 0;
      RemoveFirstTakesOne(r.codes, code);
      RedeemKeepsRow(r, ConsumeCode(s, p, code).mfa[p], s.spent, s.next, code);
      LedgerReplaces(s.mfa, s.spent, s.next, p, ConsumeCode(s, p, code).mfa[p], {BackupCode(r.incarnation, code)});
    }
  }

  lemma FreshCodesKeepLedger(s: System, p: Principal, r: MfaRow)
    requires LedgerSound(s.mfa, s.spent, s.next) && p in s.mfa
    requires r.incarnation == s.mfa[p].incarnation && r.lastStep == s.mfa[p].lastStep
    requires r.codes == FreshCodes(s.next) && r.firstCode == s.next && r.issued == BACKUP_CODE_COUNT
    ensures LedgerSound(s.mfa[p := r], s.spent, s.next + BACKUP_CODE_COUNT)
  {
    var later := s.next + BACKUP_CODE_COUNT;
    CodesFromCounts(s.next, BACKUP_CODE_COUNT);
    assert MfaSound(s.mfa[p], s.spent, s.next);
    forall c | s.next <= c ensures BackupCode(r.incarnation, c) !in s.spent {
      assert !FactorFresh(BackupCode(r.incarnation, c), s.next);
    }
    LedgerGrows(s.mfa, s.spent, s.next, later);
    LedgerReplaces(s.mfa, s.spent, later, p, r, {});
    assert s.spent + {} == s.spent;
  }

  lemma CreateMfaKeepsLedger(s: System, p: Principal)
    requires LedgerSound(s.mfa, s.spent, s.next)
    ensures var t := CreateMfa(s, p); LedgerSound(t.mfa, t.spent, t.next)
  {
    if p !in s.mfa {
      var r := MfaRow(s.next, s.next + 1, false, [], 0, 0, 0);
      forall step ensures TotpStep(r.incarnation, step) !in s.spent {
        assert !FactorFresh(TotpStep(r.incarnation, step), s.next);
      }
      forall q | q in s.mfa ensures s.mfa[q].incarnation != r.incarnation {
        assert MfaSound(s.mfa[q], s.spent, s.next);
      }
      LedgerGrows(s.mfa, s.spent, s.next, s.next + 2);
      LedgerReplaces(s.mfa, s.spent, s.next + 2, p, r, {});
      assert s.spent + {} == s.spent;
    }
  }

  lemma LedgerShrinks(mfa: map<Principal, MfaRow>, spent: set<Factor>, next: nat, p: Principal)
    requires LedgerSound(mfa, spent, next)
    ensures LedgerSound(mfa - {p}, spent, next)
  {
    forall q | q in mfa - {p} ensures MfaSound((mfa - {p})[q], spent, next) {
      assert MfaSound(mfa[q], spent, next);
    }
  }

  lemma EnableMfaKeepsLedger(s: System, p: Principal)
    requires LedgerSound(s.mfa, s.spent, s.next)
    ensures var t := EnableMfa(s, p); LedgerSound(t.mfa, t.spent, t.next)
  {
    if p in s.mfa && !s.mfa[p].enabled {
      FreshCodesKeepLedger(s, p, EnableMfa(s, p).mfa[p]);
    }
  }

  lemma UpdateCodesKeepsLedger(s: System, p: Principal)
    requires LedgerSound(s.mfa, s.spent, s.next)
    ensures var t := UpdateCodes(s, p); LedgerSound(t.mfa, t.spent, t.next)
  {
    if p in s.mfa {
      FreshCodesKeepLedger(s, p, UpdateCodes(s, p).mfa[p]);
    }
  }

  lemma TakingKeepsLedger(s: System, c: Call)
    requires LedgerSound(s.mfa, s.spent, s.next) && (c.CMarkStep? || c.CConsumeCode?)
    ensures var t := Apply(s, c); LedgerSound(t.mfa, t.spent, t.next)
  {
    if c.CMarkStep? {
      MarkStepKeepsLedger(s, c.owner, c.step);
    } else {
      ConsumeCodeKeepsLedger(s, c.owner, c.code);
    }
  }

  lemma IssuingKeepsLedger(s: System, c: Call)
    requires LedgerSound(s.mfa, s.spent, s.next) && (c.CEnableMfa? || c.CUpdateCodes?)
    ensures var t := Apply(s, c); LedgerSound(t.mfa, t.spent, t.next)
  {
    if c.CEnableMfa? {
      EnableMfaKeepsLedger(s, c.owner);
    } else {
      UpdateCodesKeepsLedger(s, c.owner);
    }
  }

  lemma EnrollingKeepsLedger(s: System, c: Call)
    requires LedgerSound(s.mfa, s.spent, s.next) && (c.CCreateMfa? || c.CDeleteMfa?)
    ensures var t := Apply(s, c); LedgerSound(t.mfa, t.spent, t.next)
  {
    if c.CCreateMfa? {
      CreateMfaKeepsLedger(s, c.owner);
    } else {
      LedgerShrinks(s.mfa, s.spent, s.next, c.owner);
    }
  }

  lemma MfaCallKeepsLedger(s: System, c: Call)
    requires LedgerSound(s.mfa, s.spent, s.next) && TouchesMfa(c)
    ensures var t := Apply(s, c); LedgerSound(t.mfa, t.spent, t.next)
  {
    if c.CMarkStep? || c.CConsumeCode? {
      TakingKeepsLedger(s, c);
    } else if c.CEnableMfa? || c.CUpdateCodes? {
      IssuingKeepsLedger(s, c);
    } else {
      EnrollingKeepsLedger(s, c);
    }
  }

  lemma LedgerStaysSound(s: System, c: Call)
    requires LedgerSound(s.mfa, s.spent, s.next)
    ensures var t := Apply(s, c); LedgerSound(t.mfa, t.spent, t.next)
  {
    if TouchesMfa(c) {
      MfaCallKeepsLedger(s, c);
    } else {
      CallLeaves(s, c);
      LedgerGrows(s.mfa, s.spent, s.next, Apply(s, c).next);
    }
  }

  lemma CallKeepsWellFormed(s: System, c: Call)
    requires WellFormed(s) && Lawful(s, c)
    ensures WellFormed(Apply(s, c))
  {
    RowsStayFresh(s, c);
    TokensStaySound(s, c);
    SlotsStaySound(s, c);
    RevocationsStaySound(s, c);
    LedgerStaysSound(s, c);
  }
}
