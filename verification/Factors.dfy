/** Second factors over whole requests: one per accepted attempt, none per refused one, each at most once. */
module Factors {
  import opened Basics
  import opened Model
  import opened Tokens
  import opened Registries
  import opened Schedules
  import opened Revocation
  import opened Issue
  import opened Answers
  import opened Auth
  import AuthMfa
  import AuthMagicLink
  import opened BackofficeAuth
  import opened AdminUsers
  import opened AdminImpersonation
  import opened Runs
  import opened Frames
  import opened Sessions

  /** Exactly one factor, never used before, has been added to the ledger. */
  ghost predicate UsesOne(s: System, t: System) {
    exists f :: f !in s.spent && t.spent == s.spent + {f}
  }

  /**
   The attempts whose code was taken, told from the answer: a login that signed in or broke
   down after the code was taken, an accepted regeneration, an accepted disable of an
   enrollment that was enabled. Disabling what is not enabled is accepted without a code.
   */
  ghost predicate CodeTaken(s: System, r: Request) {
    var resp := Handle(s, r).1;
    match r
    case LoginMfa(_, _, _, _, _) => resp.SignedIn? || resp == Refused(InternalError)
    case OperatorLoginMfa(_, _, _, _, _) => resp.SignedIn? || resp == Refused(InternalError)
    case MfaRegenerate(_, _) => resp.Accepted?
    case MfaDisable(bearer, _, _, _) =>
      resp.Accepted? && AdmitTenant(s, bearer).Ok? && MfaEnabled(s, Tenant(AdmitTenant(s, bearer).value))
    case _ => false
  }

  ghost predicate Conserved(s: System, taken: bool, t: System) {
    if taken then UsesOne(s, t) else t.spent == s.spent
  }

  lemma StepTwoConserves(s: System, p: Principal, challenge: nat, totp: Option<TotpCode>, backup: Option<nat>, infra: Infra)
    requires WellFormed(s) && challenge in s.minted
    ensures var (t, resp) := AuthMfa.StepTwo(s, p, challenge, totp, backup, infra);
      Conserved(s, resp.SignedIn? || resp == Refused(InternalError), t)
  {
    if MfaEnabled(s, p) && FactorOf(s, p, totp, backup).Some? {
      var f := FactorOf(s, p, totp, backup);
      FactorIsNew(s, p, totp, backup);
      AuthMfa.FactorStillDue(s, p, f);
      var t := AuthMfa.StepTwo(s, p, challenge, totp, backup, infra).0;
      assert t.spent == s.spent + {f.value};
    }
  }

  lemma LoginMfaConserves(s: System, challenge: nat, totp: Option<TotpCode>, backup: Option<nat>, locked: bool, infra: Infra)
    requires WellFormed(s)
    ensures var (t, resp) := AuthMfa.LoginMfaOutcome(s, challenge, totp, backup, locked, infra);
      Conserved(s, resp.SignedIn? || resp == Refused(InternalError), t)
    ensures var (t, resp) := BackofficeLoginMfaOutcome(s, challenge, totp, backup, locked, infra);
      Conserved(s, resp.SignedIn? || resp == Refused(InternalError), t)
  {
    if challenge in s.minted {
      if ParseMfaToken(s, challenge).Ok? {
        StepTwoConserves(s, Tenant(ParseMfaToken(s, challenge).value.0), challenge, totp, backup, infra);
      }
      if ParseBackofficeMfaToken(s, challenge).Ok? {
        StepTwoConserves(s, Backoffice(ParseBackofficeMfaToken(s, challenge).value), challenge, totp, backup, infra);
      }
    }
  }

  lemma DisableConserves(s: System, r: Request)
    requires WellFormed(s) && r.MfaDisable?
    ensures Conserved(s, CodeTaken(s, r), Handle(s, r).0)
  {
    var v := AdmitTenant(s, r.bearer);
    if v.Ok? && r.passwordOk && MfaEnabled(s, Tenant(v.value)) {
      var p := Tenant(v.value);
      var f := FactorOf(s, p, r.totp, r.backup);
      if f.Some? {
        FactorIsNew(s, p, r.totp, r.backup);
        var t := AllSessionsEnded(DeleteMfa(WithoutFactor(s, p, f), p), v.value, r.bearer);
        assert t.spent == s.spent + {f.value};
      }
    }
  }

  lemma RegenerateConserves(s: System, r: Request)
    requires WellFormed(s) && r.MfaRegenerate?
    ensures Conserved(s, CodeTaken(s, r), Handle(s, r).0)
  {
    var v := AdmitTenant(s, r.bearer);
    if v.Ok? && MfaEnabled(s, Tenant(v.value)) && TotpWins(s, Tenant(v.value), Some(r.code)) {
      var p := Tenant(v.value);
      FactorIsNew(s, p, Some(r.code), None);
      var f := TotpStep(s.mfa[p].incarnation, r.code.step);
      assert FactorOf(s, p, Some(r.code), None) == Some(f);
      assert UpdateCodes(MarkStep(s, p, r.code.step), p).spent == s.spent + {f};
    }
  }

  /** Every attempt uses up exactly one fresh factor if its code was taken, and none otherwise. */
  lemma AttemptConserves(s: System, r: Request)
    requires WellFormed(s) && IsAttempt(r)
    ensures if CodeTaken(s, r) then UsesOne(s, Handle(s, r).0) else Handle(s, r).0.spent == s.spent
  {
    match r
    case LoginMfa(challenge, totp, backup, locked, infra) => LoginMfaConserves(s, challenge, totp, backup, locked, infra);
    case OperatorLoginMfa(challenge, totp, backup, locked, infra) => LoginMfaConserves(s, challenge, totp, backup, locked, infra);
    case MfaDisable(_, _, _, _) => DisableConserves(s, r);
    case MfaRegenerate(_, _) => RegenerateConserves(s, r);
  }

  /** Nothing but an attempt uses up a factor. */
  lemma OthersUseNone(s: System, r: Request)
    requires !IsAttempt(r)
    ensures Handle(s, r).0.spent == s.spent
  {
    HandlerFrame(s, r);
  }

  /** A factor in the ledger is not accepted from anyone, on any plane. */
  lemma SpentIsNotAccepted(s: System, t: System, f: Factor, p: Principal, totp: Option<TotpCode>, backup: Option<nat>)
    requires WellFormed(s) && f in s.spent && Reaches(s, t) && p in t.mfa
    ensures FactorOf(t, p, totp, backup) != Some(f)
  {
    PromiseKept(s, t, FactorStaysSpent(f));
    FactorIsNew(t, p, totp, backup);
  }

  /**
   Section 5.2 of RFC 6238, for the code itself: once a code has been taken on an enrollment,
   the same code is never taken again there, whatever happens in between.
   */
  lemma TotpCodeWorksOnce(s: System, p: Principal, code: TotpCode, t: System, q: Principal)
    requires WellFormed(s) && p in s.mfa && TotpWins(s, p, Some(code)) && Reaches(MarkStep(s, p, code.step), t)
    requires q in t.mfa && t.mfa[q].incarnation == s.mfa[p].incarnation
    ensures !TotpWins(t, q, Some(code))
  {
    StepWinsOnce(s, p, code.step, t, q, code.step);
  }

  // ---- turning the second factor on and off ----

  /** The same accounts have an enabled second factor. */
  ghost predicate SameEnabled(s: System, t: System) {
    forall p :: MfaEnabled(t, p) == MfaEnabled(s, p)
  }

  lemma MarkKeepsEnabled(s: System, p: Principal, step: int)
    ensures SameEnabled(s, MarkStep(s, p, step))
  {
  }

  lemma ConsumeKeepsEnabled(s: System, p: Principal, code: nat)
    ensures SameEnabled(s, ConsumeCode(s, p, code))
  {
  }

  lemma UpdateKeepsEnabled(s: System, p: Principal)
    ensures SameEnabled(s, UpdateCodes(s, p))
  {
  }

  lemma FactorKeepsEnabled(s: System, p: Principal, f: Option<Factor>)
    ensures SameEnabled(s, WithoutFactor(s, p, f))
  {
    match f
    case None =>
    case Some(TotpStep(_, step)) => MarkKeepsEnabled(s, p, step);
    case Some(BackupCode(_, code)) => ConsumeKeepsEnabled(s, p, code);
  }

  lemma StepTwoKeepsEnabled(s: System, p: Principal, challenge: nat, totp: Option<TotpCode>, backup: Option<nat>, infra: Infra)
    requires challenge in s.minted
    ensures SameEnabled(s, AuthMfa.StepTwo(s, p, challenge, totp, backup, infra).0)
  {
    if MfaEnabled(s, p) {
      var f := FactorOf(s, p, totp, backup);
      FactorKeepsEnabled(s, p, f);
      AuthMfa.FactorStillDue(s, p, f);
      assert f.Some? ==> AuthMfa.StepTwo(s, p, challenge, totp, backup, infra).0.mfa == WithoutFactor(s, p, f).mfa;
    }
  }

  lemma LoginMfaKeepsEnabled(s: System, challenge: nat, totp: Option<TotpCode>, backup: Option<nat>, locked: bool, infra: Infra)
    ensures SameEnabled(s, AuthMfa.LoginMfaOutcome(s, challenge, totp, backup, locked, infra).0)
  {
    if challenge in s.minted && ParseMfaToken(s, challenge).Ok? {
      StepTwoKeepsEnabled(s, Tenant(ParseMfaToken(s, challenge).value.0), challenge, totp, backup, infra);
    }
  }

  lemma OperatorLoginMfaKeepsEnabled(s: System, challenge: nat, totp: Option<TotpCode>, backup: Option<nat>, locked: bool, infra: Infra)
    ensures SameEnabled(s, BackofficeLoginMfaOutcome(s, challenge, totp, backup, locked, infra).0)
  {
    if challenge in s.minted && ParseBackofficeMfaToken(s, challenge).Ok? {
      StepTwoKeepsEnabled(s, Backoffice(ParseBackofficeMfaToken(s, challenge).value), challenge, totp, backup, infra);
    }
  }

  /** What is left once a factor is used and the enrollment deleted. */
  lemma DeletedEnabled(s: System, p: Principal, f: Option<Factor>, u: nat, bearer: Option<nat>, q: Principal)
    ensures MfaEnabled(AllSessionsEnded(DeleteMfa(WithoutFactor(s, p, f), p), u, bearer), q) == (MfaEnabled(s, q) && q != p)
  {
    FactorKeepsEnabled(s, p, f);
    SessionsEndedFrame(DeleteMfa(WithoutFactor(s, p, f), p), u, bearer);
  }

  lemma DisableTurnsOff(s: System, bearer: Option<nat>, passwordOk: bool, totp: Option<TotpCode>, backup: Option<nat>, u: nat)
    ensures var t := AuthMfa.DisableOutcome(s, bearer, passwordOk, totp, backup).0;
      MfaEnabled(t, Tenant(u)) != MfaEnabled(s, Tenant(u)) <==>
        AdmitTenant(s, bearer) == Ok(u) && passwordOk && HasSecondFactor(s, Tenant(u)) && FactorServes(s, Tenant(u), totp, backup)
  {
    var v := AdmitTenant(s, bearer);
    if v.Ok? && MfaEnabled(s, Tenant(v.value)) {
      FactorExactly(s, Tenant(v.value), totp, backup);
      DeletedEnabled(s, Tenant(v.value), FactorOf(s, Tenant(v.value), totp, backup), v.value, bearer, Tenant(u));
    }
  }

  lemma VerifyTurnsOn(s: System, bearer: Option<nat>, code: TotpCode, u: nat)
    ensures MfaEnabled(AuthMfa.VerifyOutcome(s, bearer, code).0, Tenant(u)) != MfaEnabled(s, Tenant(u)) <==>
      AdmitTenant(s, bearer) == Ok(u) && Tenant(u) in s.mfa && !s.mfa[Tenant(u)].enabled && CodeIsGood(s, Tenant(u), code)
  {
    VerifyExactly(s, bearer, code);
  }

  lemma SetupKeepsEnabled(s: System, bearer: Option<nat>, u: nat)
    ensures MfaEnabled(AuthMfa.SetupOutcome(s, bearer).0, Tenant(u)) == MfaEnabled(s, Tenant(u))
  {
    if AdmitTenant(s, bearer).Ok? && !MfaEnabled(s, Tenant(AdmitTenant(s, bearer).value)) {
      PendingKeepsEnabled(s, Tenant(AdmitTenant(s, bearer).value), Tenant(u));
    }
  }

  lemma PendingKeepsEnabled(s: System, p: Principal, q: Principal)
    requires !MfaEnabled(s, p)
    ensures MfaEnabled(CreateMfa(DeleteMfa(s, p), p), q) == MfaEnabled(s, q)
  {
    var deleted := DeleteMfa(s, p);
    assert CreateMfa(deleted, p).mfa == deleted.mfa[p := MfaRow(s.next, s.next + 1, false, [], 0, 0, 0)];
  }

  lemma RegenerateKeepsEnabled(s: System, bearer: Option<nat>, code: TotpCode)
    ensures SameEnabled(s, AuthMfa.RegenerateOutcome(s, bearer, code).0)
  {
    if AdmitTenant(s, bearer).Ok? {
      var p := Tenant(AdmitTenant(s, bearer).value);
      MarkKeepsEnabled(s, p, code.step);
      UpdateKeepsEnabled(MarkStep(s, p, code.step), p);
    }
  }

  lemma OthersKeepEnabled(s: System, r: Request, u: nat)
    requires !r.MfaDisable? && !r.MfaVerify?
    ensures MfaEnabled(Handle(s, r).0, Tenant(u)) == MfaEnabled(s, Tenant(u))
  {
    if !ChangesEnrollment(r) {
      HandlerFrame(s, r);
    } else if r.LoginMfa? {
      LoginMfaKeepsEnabled(s, r.challenge, r.totp, r.backup, r.locked, r.infra);
    } else if r.OperatorLoginMfa? {
      OperatorLoginMfaKeepsEnabled(s, r.challenge, r.totp, r.backup, r.locked, r.infra);
    } else if r.MfaSetup? {
      SetupKeepsEnabled(s, r.bearer, u);
    } else if r.MfaRegenerate? {
      RegenerateKeepsEnabled(s, r.bearer, r.code);
    }
  }

  /**
   A tenant's second factor is turned off exactly by a disable of the signed-in user with the
   password and a factor that serves, which is used up; and turned on exactly by a verify of
   that user with a good code of the pending secret.
   */
  lemma SecondFactorSwitches(s: System, r: Request, u: nat)
    requires WellFormed(s)
    ensures HasSecondFactor(s, Tenant(u)) ==>
      (!HasSecondFactor(Handle(s, r).0, Tenant(u)) <==>
         r.MfaDisable? && AdmitTenant(s, r.bearer) == Ok(u) && r.passwordOk && FactorServes(s, Tenant(u), r.totp, r.backup))
    ensures HasSecondFactor(s, Tenant(u)) && !HasSecondFactor(Handle(s, r).0, Tenant(u)) ==> UsesOne(s, Handle(s, r).0)
    ensures !HasSecondFactor(s, Tenant(u)) ==>
      (HasSecondFactor(Handle(s, r).0, Tenant(u)) <==>
         r.MfaVerify? && AdmitTenant(s, r.bearer) == Ok(u)
         && Tenant(u) in s.mfa && !s.mfa[Tenant(u)].enabled && CodeIsGood(s, Tenant(u), r.code))
  {
    if r.MfaDisable? {
      AttemptConserves(s, r);
      DisableTurnsOff(s, r.bearer, r.passwordOk, r.totp, r.backup, u);
    } else if r.MfaVerify? {
      VerifyTurnsOn(s, r.bearer, r.code, u);
    } else {
      OthersKeepEnabled(s, r, u);
    }
  }

  /** Regenerating replaces the list: ten new codes, none of the old ones works, and the step ledger has moved on. */
  lemma RegenerateReplacesCodes(s: System, bearer: Option<nat>, code: TotpCode, earlier: nat)
    requires WellFormed(s) && AuthMfa.RegenerateOutcome(s, bearer, code).1.Accepted?
    requires AdmitTenant(s, bearer).Ok? && CodeMatches(s, Tenant(AdmitTenant(s, bearer).value), earlier)
    ensures var p := Tenant(AdmitTenant(s, bearer).value); var t := AuthMfa.RegenerateOutcome(s, bearer, code).0;
      && !CodeMatches(t, p, earlier)
      && p in t.mfa && |t.mfa[p].codes| == BACKUP_CODE_COUNT
      && t.mfa[p].incarnation == s.mfa[p].incarnation
      && s.mfa[p].lastStep < t.mfa[p].lastStep == code.step
      && !StepWins(t, p, code.step)
  {
    var p := Tenant(AdmitTenant(s, bearer).value);
    var t := AuthMfa.RegenerateOutcome(s, bearer, code).0;
    assert MfaSound(s.mfa[p], s.spent, s.next);
    assert multiset(s.mfa[p].codes)[earlier] > 0;
    assert earlier < s.next;
    assert t == UpdateCodes(MarkStep(s, p, code.step), p);
    assert t.mfa[p].codes == FreshCodes(s.next);
  }
}
