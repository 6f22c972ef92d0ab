/**
 Exactly when each request succeeds, in terms of the stored state alone: what the gates, the
 credentials, the one-time codes, the cookies and the links must satisfy, and for how long.
 The words below are the statements' own; the handlers do not use them.
 */
module Answers {
  import opened Basics
  import opened Model
  import opened Tokens
  import opened Registries
  import opened Schedules
  import opened Revocation
  import opened Issue
  import opened Auth
  import AuthMfa
  import AuthMagicLink
  import opened BackofficeAuth
  import opened AdminUsers
  import opened AdminImpersonation

  // ---- plain words ----

  predicate ActiveUser(s: System, u: nat) {
    u in s.users && s.users[u].active
  }

  predicate ActiveOperator(s: System, a: nat) {
    a in s.operators && s.operators[a].active
  }

  predicate HasSecondFactor(s: System, p: Principal) {
    p in s.mfa && s.mfa[p].enabled
  }

  /** Signed, not expired, not on the blacklist. */
  predicate TokenLives(s: System, j: nat) {
    j in s.minted && Unix(s.now) < s.minted[j].claims.exp && !(j in s.revoked && s.now <= s.revoked[j])
  }

  /** A cutoff in force at this account refuses what was stamped before this second. */
  predicate CutAfter(s: System, p: Principal, second: nat) {
    p in s.cutoffs && s.now <= s.cutoffs[p].until && second < s.cutoffs[p].since
  }

  /** A cutoff in force refuses rows created in its second as well. */
  predicate RowCut(s: System, row: Row) {
    row.owner in s.cutoffs && s.now <= s.cutoffs[row.owner].until && row.createdAt / 1_000_000_000 <= s.cutoffs[row.owner].since
  }

  predicate AccountActive(s: System, p: Principal) {
    if p.Tenant? then ActiveUser(s, p.id) else ActiveOperator(s, p.id)
  }

  /** The row this cookie value hashes to can be rotated. */
  predicate RowServes(s: System, row: Row) {
    !row.revoked && s.now < row.expiresAt && AccountActive(s, row.owner) && !RowCut(s, row)
  }

  /** The token with this number was signed for this grant at this time. */
  predicate IsSigned(s: System, j: nat, g: Grant, at: Instant) {
    j in s.minted && s.minted[j] == Token(ClaimsFor(g, at), g, at)
  }

  // ---- how long things last ----

  /** Access tokens last 15 minutes, challenges 5, impersonations as long as asked; all stamped in whole seconds. */
  lemma TokenLifetimes(g: Grant, at: Instant)
    ensures var c := ClaimsFor(g, at);
      && c.iat == at / 1_000_000_000
      && (g.Session? || g.Restored? ==> c.exp == c.iat + 15 * 60)
      && (g.Challenge? ==> c.exp == c.iat + 5 * 60)
      && (g.Impersonation? ==> c.exp == (at + g.ttl) / 1_000_000_000)
  {
  }

  /** Rows last 30 days, links 15 minutes, cutoffs 30 minutes; a list has ten codes. */
  lemma StoredLifetimes(s: System, owner: Principal, opening: Opening, user: nat, tenant: nat)
    ensures FreshRow(s, owner, opening).expiresAt == s.now + 30 * 24 * 60 * 60 * 1_000_000_000
    ensures CreateLink(s, user, tenant).links[s.next].expiresAt == s.now + 15 * 60 * 1_000_000_000
    ensures var cut := BlacklistUserTokens(s, owner).cutoffs[owner];
      cut.until == s.now + 30 * 60 * 1_000_000_000 && cut.since == s.now / 1_000_000_000
    ensures |FreshCodes(s.next)| == 10
  {
  }

  /** An impersonation lasts as configured, at most half an hour, and half an hour if not configured. */
  lemma ImpersonationLifetime(ttl: int)
    ensures var half := 30 * 60 * 1_000_000_000;
      ClampImpersonationTtl(ttl) == if 0 < ttl <= half then ttl else half
  {
  }

  // ---- the gates ----

  lemma TenantGateExactly(s: System, j: nat, u: nat)
    requires TokensSound(s)
    ensures AdmitTenant(s, Some(j)) == Ok(u) <==>
      && TokenLives(s, j)
      && (s.minted[j].grant.Session? || s.minted[j].grant.Impersonation?)
      && (s.minted[j].grant.Session? ==> s.minted[j].grant.owner == Tenant(u))
      && (s.minted[j].grant.Impersonation? ==> s.minted[j].grant.target == u)
      && !CutAfter(s, Tenant(u), s.minted[j].claims.iat)
      && ActiveUser(s, u)
  {
    if j in s.minted {
      assert TokenSound(s, j);
    }
  }

  lemma OperatorGateExactly(s: System, j: nat, a: nat)
    requires TokensSound(s)
    ensures AdmitBackoffice(s, Some(j)) == Ok(a) <==>
      && TokenLives(s, j)
      && (s.minted[j].grant.Session? || s.minted[j].grant.Restored?)
      && (s.minted[j].grant.Session? ==> s.minted[j].grant.owner == Backoffice(a))
      && (s.minted[j].grant.Restored? ==> s.minted[j].grant.operator == a)
      && !CutAfter(s, Backoffice(a), s.minted[j].claims.iat)
      && ActiveOperator(s, a)
  {
    if j in s.minted {
      assert TokenSound(s, j);
    }
  }

  // ---- step 1 ----

  /** The right password of an active user who is not locked out. */
  predicate PasswordServes(s: System, user: Option<nat>, passwordOk: bool, locked: bool) {
    passwordOk && !locked && user.Some? && ActiveUser(s, user.value)
  }

  /** A session without a second factor, a challenge for the user's own tenant with one, otherwise neither. */
  lemma LoginExactly(s: System, user: Option<nat>, passwordOk: bool, locked: bool)
    ensures var (t, resp) := LoginOutcome(s, user, passwordOk, locked, AllWorks);
      && (resp.SignedIn? <==> PasswordServes(s, user, passwordOk, locked) && !HasSecondFactor(s, Tenant(user.value)))
      && (resp.MfaRequired? <==> PasswordServes(s, user, passwordOk, locked) && HasSecondFactor(s, Tenant(user.value)))
      && (resp.SignedIn? ==> s.next in t.rows && t.rows[s.next].owner == Tenant(user.value) && t.rows[s.next].hash == Hash(resp.cookie))
      && (resp.MfaRequired? ==> IsSigned(t, resp.challenge, Challenge(Tenant(user.value), s.users[user.value].tenant), s.now))
      && (!resp.SignedIn? && !resp.MfaRequired? ==> t == s)
  {
  }

  predicate OperatorPasswordServes(s: System, user: Option<nat>, passwordOk: bool, locked: bool) {
    passwordOk && !locked && user.Some? && ActiveOperator(s, user.value)
  }

  /** Under enforcement a challenge if enrolled and nothing if not; without enforcement a session. */
  lemma OperatorLoginExactly(s: System, user: Option<nat>, passwordOk: bool, locked: bool)
    ensures var (t, resp) := BackofficeLoginOutcome(s, user, passwordOk, locked, AllWorks);
      && (resp.SignedIn? <==> OperatorPasswordServes(s, user, passwordOk, locked) && !s.operators[user.value].mfaEnforced)
      && (resp.MfaRequired? <==>
            OperatorPasswordServes(s, user, passwordOk, locked) && s.operators[user.value].mfaEnforced && HasSecondFactor(s, Backoffice(user.value)))
      && (resp.SignedIn? ==> s.next in t.rows && t.rows[s.next].owner == Backoffice(user.value) && t.rows[s.next].hash == Hash(resp.cookie))
      && (resp.MfaRequired? ==> IsSigned(t, resp.challenge, Challenge(Backoffice(user.value), 0), s.now))
      && (!resp.SignedIn? && !resp.MfaRequired? ==> t == s)
  {
  }

  /** The link is stored, unclaimed, unexpired, presented in its own tenant, and its account is active and not locked out. */
  predicate LinkServes(s: System, link: nat, tenant: nat, locked: bool) {
    && link in s.links && !s.links[link].claimed && s.now <= s.links[link].expiresAt
    && s.links[link].tenant == tenant && ActiveUser(s, s.links[link].user) && !locked
  }

  /** A link opens a session of its own user, or that user's challenge. */
  lemma LinkVerifyExactly(s: System, link: nat, tenant: nat, locked: bool)
    ensures var (t, resp) := AuthMagicLink.VerifyOutcome(s, link, tenant, locked, AllWorks);
      && (resp.SignedIn? <==> LinkServes(s, link, tenant, locked) && !HasSecondFactor(s, Tenant(s.links[link].user)))
      && (resp.MfaRequired? <==> LinkServes(s, link, tenant, locked) && HasSecondFactor(s, Tenant(s.links[link].user)))
      && (resp.SignedIn? ==> s.next in t.rows && t.rows[s.next].owner == Tenant(s.links[link].user) && t.rows[s.next].hash == Hash(resp.cookie))
      && (resp.MfaRequired? ==> IsSigned(t, resp.challenge, Challenge(Tenant(s.links[link].user), s.users[s.links[link].user].tenant), s.now))
      && (resp.SignedIn? || resp.MfaRequired? ==> forall l :: l in t.links ==> t.links[l].user != s.links[link].user)
  {
    if Claimable(s, link) {
      var claimed, u := MarkClaimed(s, link), s.links[link].user;
      assert claimed == s.(links := claimed.links);
    }
  }

  /** Asking for a link stores one exactly for an active user, in the user's tenant, and changes nothing otherwise; the answer tells nothing. */
  lemma LinkRequestExactly(s: System, user: Option<nat>)
    ensures var (t, resp) := AuthMagicLink.RequestOutcome(s, user);
      && resp.Accepted?
      && (user.Some? && ActiveUser(s, user.value) ==>
            s.next in t.links && t.links[s.next].user == user.value && t.links[s.next].tenant == s.users[user.value].tenant && !t.links[s.next].claimed)
      && (!(user.Some? && ActiveUser(s, user.value)) ==> t == s)
  {
  }

  // ---- one-time codes ----

  /** The code belongs to the stored secret and to the current half minute or the one before or after. */
  predicate CodeIsGood(s: System, p: Principal, code: TotpCode) {
    && p in s.mfa && code.secret == s.mfa[p].secret
    && (code.step - 1) * 30 <= Unix(s.now) < (code.step + 2) * 30
  }

  /** And its half minute is later than any used on this enrollment. */
  predicate CodeWins(s: System, p: Principal, code: TotpCode) {
    CodeIsGood(s, p, code) && s.mfa[p].lastStep < code.step
  }

  lemma MatchedExactly(secret: nat, code: TotpCode, now: Instant)
    ensures MatchedStep(secret, code, now) ==
      if code.secret == secret && (code.step - 1) * 30 <= Unix(now) < (code.step + 2) * 30 then Some(code.step) else None
  {
    var n, base := Unix(now), Unix(now) / 30;
    assert base * 30 <= n < (base + 1) * 30;
    if code.step < base - 1 {
      assert (code.step + 2) * 30 <= base * 30;
    } else if base + 1 < code.step {
      assert (base + 1) * 30 <= (code.step - 1) * 30;
    } else {
      assert (code.step - 1) * 30 <= base * 30 && (base + 1) * 30 <= (code.step + 2) * 30;
    }
  }

  lemma TotpWinsExactly(s: System, p: Principal, code: TotpCode)
    requires p in s.mfa
    ensures TotpWins(s, p, Some(code)) <==> CodeWins(s, p, code)
  {
    MatchedExactly(s.mfa[p].secret, code, s.now);
  }

  /** A winning time code, or a backup code that is on the list. */
  predicate FactorServes(s: System, p: Principal, totp: Option<TotpCode>, backup: Option<nat>) {
    p in s.mfa && ((totp.Some? && CodeWins(s, p, totp.value)) || (backup.Some? && backup.value in s.mfa[p].codes))
  }

  lemma FactorExactly(s: System, p: Principal, totp: Option<TotpCode>, backup: Option<nat>)
    requires p in s.mfa
    ensures FactorOf(s, p, totp, backup).Some? <==> FactorServes(s, p, totp, backup)
    ensures totp.Some? && CodeWins(s, p, totp.value) ==> FactorOf(s, p, totp, backup) == Some(TotpStep(s.mfa[p].incarnation, totp.value.step))
  {
    if totp.Some? {
      TotpWinsExactly(s, p, totp.value);
    }
  }

  // ---- step 2 ----

  /** The token is an unexpired challenge signed for this account. */
  predicate ChallengeOf(s: System, challenge: nat, p: Principal) {
    && challenge in s.minted && s.minted[challenge].grant.Challenge? && s.minted[challenge].grant.owner == p
    && Unix(s.now) < s.minted[challenge].claims.exp
  }

  lemma StepTwoExactly(s: System, p: Principal, challenge: nat, totp: Option<TotpCode>, backup: Option<nat>)
    requires challenge in s.minted
    ensures AuthMfa.StepTwo(s, p, challenge, totp, backup, AllWorks).1.SignedIn? <==> HasSecondFactor(s, p) && FactorServes(s, p, totp, backup)
  {
    if MfaEnabled(s, p) {
      FactorExactly(s, p, totp, backup);
    }
  }

  /** The challenge of a step 2 that signs in is revoked for the rest of its life. */
  lemma StepTwoRevokesChallenge(s: System, p: Principal, challenge: nat, totp: Option<TotpCode>, backup: Option<nat>)
    requires challenge in s.minted && Unix(s.now) < s.minted[challenge].claims.exp
    requires AuthMfa.StepTwo(s, p, challenge, totp, backup, AllWorks).1.SignedIn?
    ensures var t := AuthMfa.StepTwo(s, p, challenge, totp, backup, AllWorks).0;
      challenge in t.revoked && t.revoked[challenge] == s.minted[challenge].claims.exp * 1_000_000_000
  {
    var f := FactorOf(s, p, totp, backup);
    AuthMfa.FactorStillDue(s, p, f);
    var without := WithoutFactor(s, p, f);
    var used := BlacklistToken(without, challenge, s.minted[challenge].claims.exp * SECOND);
    assert used == without.(revoked := used.revoked);
    assert challenge in used.revoked;
  }

  /** Step 2 signs in exactly with an own challenge, in the tenant it was signed for, and a factor that serves. */
  lemma LoginMfaExactly(s: System, challenge: nat, totp: Option<TotpCode>, backup: Option<nat>, locked: bool)
    requires TokensSound(s)
    ensures AuthMfa.LoginMfaOutcome(s, challenge, totp, backup, locked, AllWorks).1.SignedIn? <==>
      exists u :: ChallengeOf(s, challenge, Tenant(u)) && ActiveUser(s, u) && s.users[u].tenant == s.minted[challenge].grant.tenant
        && !locked && HasSecondFactor(s, Tenant(u)) && FactorServes(s, Tenant(u), totp, backup)
  {
    if challenge in s.minted {
      assert TokenSound(s, challenge);
      if ParseMfaToken(s, challenge).Ok? {
        StepTwoExactly(s, Tenant(ParseMfaToken(s, challenge).value.0), challenge, totp, backup);
      }
    }
  }

  lemma OperatorLoginMfaExactly(s: System, challenge: nat, totp: Option<TotpCode>, backup: Option<nat>, locked: bool)
    requires TokensSound(s)
    ensures BackofficeLoginMfaOutcome(s, challenge, totp, backup, locked, AllWorks).1.SignedIn? <==>
      exists a :: ChallengeOf(s, challenge, Backoffice(a)) && ActiveOperator(s, a)
        && !locked && HasSecondFactor(s, Backoffice(a)) && FactorServes(s, Backoffice(a), totp, backup)
  {
    if challenge in s.minted {
      assert TokenSound(s, challenge);
      if ParseBackofficeMfaToken(s, challenge).Ok? {
        StepTwoExactly(s, Backoffice(ParseBackofficeMfaToken(s, challenge).value), challenge, totp, backup);
      }
    }
  }

  // ---- enrollment ----

  /** Setup is for users without an enabled factor, and leaves a pending one with a new secret and no codes. */
  lemma SetupExactly(s: System, bearer: Option<nat>)
    ensures var (t, resp) := AuthMfa.SetupOutcome(s, bearer); var v := AdmitTenant(s, bearer);
      && (resp.Accepted? <==> v.Ok? && !HasSecondFactor(s, Tenant(v.value)))
      && (resp.Accepted? ==> var p := Tenant(v.value);
            p in t.mfa && !t.mfa[p].enabled && t.mfa[p].codes == [] && s.next <= t.mfa[p].secret && s.next <= t.mfa[p].incarnation)
      && (!resp.Accepted? ==> t == s)
  {
    var v := AdmitTenant(s, bearer);
    if v.Ok? && !MfaEnabled(s, Tenant(v.value)) {
      var deleted := DeleteMfa(s, Tenant(v.value));
      assert CreateMfa(deleted, Tenant(v.value)).mfa ==
        deleted.mfa[Tenant(v.value) := MfaRow(s.next, s.next + 1, false, [], 0, 0, 0)];
    }
  }

  /** Verify turns on exactly a pending factor with a good code of its own secret. */
  lemma VerifyExactly(s: System, bearer: Option<nat>, code: TotpCode)
    ensures var (t, resp) := AuthMfa.VerifyOutcome(s, bearer, code); var v := AdmitTenant(s, bearer);
      && (resp.Accepted? <==> v.Ok? && Tenant(v.value) in s.mfa && !s.mfa[Tenant(v.value)].enabled && CodeIsGood(s, Tenant(v.value), code))
      && (resp.Accepted? ==> var p := Tenant(v.value);
            HasSecondFactor(t, p) && |t.mfa[p].codes| == 10 && t.mfa[p].secret == s.mfa[p].secret && t.mfa[p].incarnation == s.mfa[p].incarnation)
      && (!resp.Accepted? ==> t == s)
  {
    var v := AdmitTenant(s, bearer);
    if v.Ok? && Tenant(v.value) in s.mfa {
      MatchedExactly(s.mfa[Tenant(v.value)].secret, code, s.now);
    }
  }

  /** Disabling an enabled factor takes the password and a factor that serves, and removes the enrollment. */
  lemma DisableExactly(s: System, bearer: Option<nat>, passwordOk: bool, totp: Option<TotpCode>, backup: Option<nat>)
    ensures var (t, resp) := AuthMfa.DisableOutcome(s, bearer, passwordOk, totp, backup); var v := AdmitTenant(s, bearer);
      && (resp.Accepted? <==>
            v.Ok? && passwordOk && (HasSecondFactor(s, Tenant(v.value)) ==> FactorServes(s, Tenant(v.value), totp, backup)))
      && (resp.Accepted? && HasSecondFactor(s, Tenant(v.value)) ==> Tenant(v.value) !in t.mfa)
      && (!resp.Accepted? || !HasSecondFactor(s, Tenant(v.value)) ==> t == s)
  {
    var v := AdmitTenant(s, bearer);
    if v.Ok? && MfaEnabled(s, Tenant(v.value)) {
      FactorExactly(s, Tenant(v.value), totp, backup);
    }
  }

  /** Regenerating takes a winning time code; a backup code does not do. */
  lemma RegenerateExactly(s: System, bearer: Option<nat>, code: TotpCode)
    ensures var (t, resp) := AuthMfa.RegenerateOutcome(s, bearer, code); var v := AdmitTenant(s, bearer);
      && (resp.Accepted? <==> v.Ok? && HasSecondFactor(s, Tenant(v.value)) && CodeWins(s, Tenant(v.value), code))
      && (!resp.Accepted? ==> t == s)
  {
    var v := AdmitTenant(s, bearer);
    if v.Ok? && MfaEnabled(s, Tenant(v.value)) {
      TotpWinsExactly(s, Tenant(v.value), code);
    }
  }

  lemma ChangePasswordExactly(s: System, bearer: Option<nat>, accepted: bool)
    ensures ChangePasswordOutcome(s, bearer, accepted).1.Accepted? <==> AdmitTenant(s, bearer).Ok? && accepted
    ensures !ChangePasswordOutcome(s, bearer, accepted).1.Accepted? ==> ChangePasswordOutcome(s, bearer, accepted).0 == s
  {
  }

  // ---- refresh ----

  /** Some stored row of the tenant plane has this cookie's hash and can be rotated. */
  ghost predicate TenantCookieServes(s: System, raw: nat) {
    exists id :: id in s.rows && s.rows[id].hash == Hash(raw) && s.rows[id].owner.Tenant? && RowServes(s, s.rows[id])
  }

  ghost predicate OperatorCookieServes(s: System, raw: nat) {
    exists id :: id in s.rows && s.rows[id].hash == Hash(raw) && s.rows[id].owner.Backoffice? && RowServes(s, s.rows[id])
  }

  /** A signed impersonation token, expired or not. */
  predicate Borrows(s: System, bearer: Option<nat>) {
    bearer.Some? && bearer.value in s.minted && s.minted[bearer.value].grant.Impersonation?
  }

  lemma RefreshExactly(s: System, cookie: Cookie, bearer: Option<nat>)
    requires WellFormed(s)
    ensures RefreshOutcome(s, cookie, bearer, AllWorks).1.SignedIn? <==>
      !Borrows(s, bearer) && cookie.Value? && TenantCookieServes(s, cookie.raw)
    ensures var (t, resp) := RefreshOutcome(s, cookie, bearer, AllWorks);
      !resp.SignedIn? && t != s ==>
        cookie.Value? && exists id :: id in s.rows && s.rows[id].hash == Hash(cookie.raw) && s.rows[id].owner.Tenant? && s.rows[id].revoked
  {
    if bearer.Some? {
      ImpersonationTokensAreRecognised(s, bearer.value);
    }
    if cookie.Value? {
      var found := FindByHash(s.rows, ANY_TENANT, Hash(cookie.raw));
      forall id | id in s.rows && s.rows[id].hash == Hash(cookie.raw) && s.rows[id].owner.Tenant? ensures found == Some(id) {
        FoundByHash(s.rows, s.next, id, ANY_TENANT);
      }
    }
  }

  lemma OperatorRefreshExactly(s: System, cookie: Option<nat>, originOk: bool)
    requires WellFormed(s)
    ensures BackofficeRefreshOutcome(s, cookie, originOk, AllWorks).1.SignedIn? <==>
      originOk && cookie.Some? && OperatorCookieServes(s, cookie.value)
    ensures var (t, resp) := BackofficeRefreshOutcome(s, cookie, originOk, AllWorks); !resp.SignedIn? ==> t == s
  {
    if cookie.Some? {
      var found := FindByHash(s.rows, ANY_OPERATOR, Hash(cookie.value));
      forall id | id in s.rows && s.rows[id].hash == Hash(cookie.value) && s.rows[id].owner.Backoffice? ensures found == Some(id) {
        FoundByHash(s.rows, s.next, id, ANY_OPERATOR);
      }
    }
  }

  /** A browser is known by an admitted bearer, else by a cookie a refresh would rotate; never while borrowing. */
  lemma BrowserExactly(s: System, cookie: Cookie, bearer: Option<nat>, u: nat)
    requires WellFormed(s)
    ensures BrowserUser(s, cookie, bearer) == Some(u) <==>
      && !Borrows(s, bearer) && !cookie.ImpersonationMarker?
      && if AdmitTenant(s, bearer).Ok? then AdmitTenant(s, bearer) == Ok(u)
         else cookie.Value? && exists id ::
           id in s.rows && s.rows[id].hash == Hash(cookie.raw) && s.rows[id].owner == Tenant(u) && RowServes(s, s.rows[id])
  {
    if bearer.Some? {
      ImpersonationTokensAreRecognised(s, bearer.value);
    }
    if cookie.Value? {
      var found := FindByHash(s.rows, ANY_TENANT, Hash(cookie.raw));
      forall id | id in s.rows && s.rows[id].hash == Hash(cookie.raw) && s.rows[id].owner.Tenant? ensures found == Some(id) {
        FoundByHash(s.rows, s.next, id, ANY_TENANT);
      }
    }
  }

  /**
   What a cutoff made at time `at` does to a row that is otherwise good, on either plane:
   rows created in a later second are rotated, older ones are refused until the cutoff lapses.
   */
  lemma CutoffOnRefresh(s: System, id: nat, raw: nat, bearer: Option<nat>, at: Instant)
    requires WellFormed(s) && id in s.rows && s.rows[id].hash == Hash(raw)
    requires !s.rows[id].revoked && s.now < s.rows[id].expiresAt && AccountActive(s, s.rows[id].owner)
    requires s.rows[id].owner in s.cutoffs && s.cutoffs[s.rows[id].owner] == Cutoff(Unix(at), at + BLACKLIST_RING)
    ensures s.rows[id].owner.Tenant? && !Borrows(s, bearer) ==>
      (RefreshOutcome(s, Value(raw), bearer, AllWorks).1.SignedIn? <==>
         at + 30 * 60 * 1_000_000_000 < s.now || Unix(at) < Unix(s.rows[id].createdAt))
    ensures s.rows[id].owner.Backoffice? ==>
      (BackofficeRefreshOutcome(s, Some(raw), true, AllWorks).1.SignedIn? <==>
         at + 30 * 60 * 1_000_000_000 < s.now || Unix(at) < Unix(s.rows[id].createdAt))
  {
    RefreshExactly(s, Value(raw), bearer);
    OperatorRefreshExactly(s, Some(raw), true);
    assert forall k :: k in s.rows && s.rows[k].hash == Hash(raw) ==> k == id;
  }

  // ---- logout ----

  /** The rows with exactly those of this plane and cookie revoked. */
  predicate OnlyCookieRevoked(s: System, t: System, raw: Option<nat>, tenant: bool) {
    && t.rows.Keys == s.rows.Keys
    && forall id :: id in s.rows ==> t.rows[id] == RevokedIf(s.rows[id], raw.Some? && s.rows[id].hash == Hash(raw.value) && s.rows[id].owner.Tenant? == tenant)
  }

  function RevokedIf(row: Row, taken: bool): Row {
    if taken then row.(revoked := true) else row
  }

  /** The bearer, if signed, lives no more, and no other entry of the blacklist changes. */
  ghost predicate OnlyBearerRevoked(s: System, t: System, bearer: Option<nat>) {
    && (bearer.Some? ==> !TokenLives(t, bearer.value))
    && (forall j :: bearer != Some(j) ==> (j in t.revoked <==> j in s.revoked))
    && (forall j :: bearer != Some(j) && j in s.revoked ==> t.revoked[j] == s.revoked[j])
  }

  lemma BlacklistedTillExpiry(s: System, j: nat)
    requires j in s.minted
    ensures OnlyBearerRevoked(s, BlacklistToken(s, j, s.minted[j].claims.exp * SECOND), Some(j))
  {
    var end := s.minted[j].claims.exp;
    if Unix(s.now) < end {
      assert s.now < end * SECOND;
    }
  }

  lemma BearerExactly(s: System, bearer: Option<nat>)
    requires TokensSound(s)
    ensures OnlyBearerRevoked(s, BlacklistBearer(s, bearer), bearer) && BlacklistBearer(s, bearer).rows == s.rows
  {
    BearerLeavesRest(s, bearer);
    if bearer.Some? && bearer.value in s.minted {
      CapIsNeverReached(s, bearer.value);
      BlacklistedTillExpiry(s, bearer.value);
    }
  }

  lemma BearerLeavesRest(s: System, bearer: Option<nat>)
    ensures var t := BlacklistBearer(s, bearer); t == s.(revoked := t.revoked)
  {
  }

  lemma RowRevokedExactly(s: System, id: nat, raw: nat, tenant: bool)
    requires id in s.rows && s.rows[id].hash == Hash(raw) && s.rows[id].owner.Tenant? == tenant
    requires forall k :: k in s.rows && s.rows[k].hash == Hash(raw) ==> k == id
    ensures var t := RevokeById(s, s.rows[id].owner, id); OnlyCookieRevoked(s, t, Some(raw), tenant) && t == s.(rows := t.rows)
  {
  }

  lemma CookieExactly(s: System, plane: Principal, raw: nat)
    requires RowsFresh(s.rows, s.next)
    ensures var t := WithoutCookie(s, plane, raw); OnlyCookieRevoked(s, t, Some(raw), plane.Tenant?) && t == s.(rows := t.rows)
  {
    var found := FindByHash(s.rows, plane, Hash(raw));
    if found.Some? {
      RowRevokedExactly(s, found.value, raw, plane.Tenant?);
    } else {
      assert forall id :: id in s.rows ==> !HashedTo(s.rows, id, plane, Hash(raw));
    }
  }

  /** A logout revokes the bearer it is sent with and the row of its cookie, each without the other, and nothing else. */
  lemma LogoutExactly(s: System, cookie: Cookie, bearer: Option<nat>)
    requires WellFormed(s)
    ensures var (t, resp) := LogoutOutcome(s, cookie, bearer);
      && resp.Accepted? && OnlyBearerRevoked(s, t, bearer)
      && OnlyCookieRevoked(s, t, if cookie.Value? then Some(cookie.raw) else None, true)
  {
    var signedOut := BlacklistBearer(s, bearer);
    BearerExactly(s, bearer);
    BearerLeavesRest(s, bearer);
    if cookie.Value? {
      CookieExactly(signedOut, ANY_TENANT, cookie.raw);
    }
  }

  /** An operator's, for bearers of the back-office plane only. */
  lemma OperatorLogoutExactly(s: System, cookie: Option<nat>, bearer: Option<nat>)
    requires WellFormed(s)
    ensures var (t, resp) := BackofficeLogoutOutcome(s, cookie, bearer);
      && resp.Accepted? && OnlyCookieRevoked(s, t, cookie, false)
      && OnlyBearerRevoked(s, t, if IsBackofficeBearer(s, bearer) then bearer else None)
  {
    var mine := if IsBackofficeBearer(s, bearer) then bearer else None;
    var signedOut := BlacklistBearer(s, mine);
    BearerExactly(s, mine);
    BearerLeavesRest(s, mine);
    if cookie.Some? {
      CookieExactly(signedOut, ANY_OPERATOR, cookie.value);
    }
  }

  /** A bearer of the back-office plane: an operator's session, restored session or challenge, expired or not. */
  lemma OperatorBearersExactly(s: System, j: nat)
    requires TokensSound(s)
    ensures IsBackofficeBearer(s, Some(j)) <==>
      && j in s.minted
      && var g := s.minted[j].grant; g.Restored? || ((g.Session? || g.Challenge?) && g.owner.Backoffice?)
  {
    if j in s.minted {
      assert TokenSound(s, j);
    }
  }

  // ---- blocking ----

  /** A block needs an admitted operator, a known target other than the operator's own id, and force for an active system admin. */
  lemma BlockExactly(s: System, bearer: Option<nat>, u: nat, wellFormed: bool, force: bool)
    ensures var (t, resp) := BlockOutcome(s, bearer, u, wellFormed, force); var v := AdmitBackoffice(s, bearer);
      && (resp.Accepted? <==>
            v.Ok? && wellFormed && u in s.users && u != v.value && (s.users[u].active && s.users[u].systemAdmin ==> force))
      && (!resp.Accepted? ==> t == s)
  {
  }

  lemma UnblockExactly(s: System, bearer: Option<nat>, u: nat, wellFormed: bool)
    ensures var (t, resp) := UnblockOutcome(s, bearer, u, wellFormed);
      && (resp.Accepted? <==> AdmitBackoffice(s, bearer).Ok? && wellFormed && u in s.users)
      && (!resp.Accepted? ==> t == s)
      && (resp.Accepted? ==> t.users == s.users[u := s.users[u].(active := true)])
  {
    if u in s.users && s.users[u].active {
      assert s.users[u := s.users[u].(active := true)] == s.users;
    }
  }

  // ---- starting an impersonation ----

  /** A start needs an admitted platform admin within the rate limit and an active target that is no system admin. */
  lemma StartExactly(s: System, bearer: Option<nat>, cookie: Option<nat>, u: nat, ttl: int, limited: bool)
    ensures var (t, resp) := StartOutcome(s, bearer, cookie, u, ttl, limited, AllWorks); var v := AdmitBackoffice(s, bearer);
      && (resp.Impersonating? <==>
            v.Ok? && s.operators[v.value].role.PlatformAdmin? && !limited && ActiveUser(s, u) && !s.users[u].systemAdmin)
      && (!resp.Impersonating? ==> t == s)
      && (resp.Impersonating? ==>
            && resp.token == s.next
            && t.slots == s.slots[s.next := Slot(v.value, cookie, u, s.now + ClampImpersonationTtl(ttl))]
            && IsSigned(t, s.next, Impersonation(u, s.users[u].tenant, v.value, bearer.value, ClampImpersonationTtl(ttl)), s.now))
  {
  }
}
