/** Concrete runs from an initial state, for the results that say something can go wrong. */
module Witnesses {
  import opened Basics
  import opened Model
  import opened Tokens
  import opened Registries
  import opened Issue
  import opened Auth
  import AuthMfa
  import opened BackofficeAuth
  import opened AdminImpersonation
  import opened Runs
  import opened SessionSafety
  import opened Endings

  /** One active tenant user, one active platform admin, nothing else. */
  function Morning(): System {
    System(0, 0, map[0 := TenantUser(0, true, false)], map[0 := BackofficeUser(true, PlatformAdmin, false)],
           map[], map[], {}, map[], map[], map[], map[], map[])
  }

  // ---- a re-planted cookie ----

  const FIRST_LOGIN := Opening(0, 0, false, Password)

  function SignedNow(g: Grant): Token {
    Token(ClaimsFor(g, 0), g, 0)
  }

  /** The operator has logged in: row 0, cookie 1, token 2. */
  function OperatorIn(): System {
    Morning().(rows := map[0 := Row(Backoffice(0), Hash(1), 0, REFRESH_TTL, false, FIRST_LOGIN)],
               minted := map[2 := SignedNow(Session(Backoffice(0), 0, FIRST_LOGIN))],
               next := 3)
  }

  const BORROWED := Impersonation(0, 0, 0, 2, MINUTE)

  /** And has started an impersonation with that cookie: token 3 and its slot. */
  function Borrowing(): System {
    OperatorIn().(minted := OperatorIn().minted[3 := SignedNow(BORROWED)],
                  slots := map[3 := Slot(0, Some(1), 0, MINUTE)],
                  next := 4)
  }

  /** And has refreshed meanwhile: the row is revoked, row 4, cookie 5 and token 6 replace it. */
  function Rotated(): System {
    Borrowing().(rows := map[0 := Row(Backoffice(0), Hash(1), 0, REFRESH_TTL, true, FIRST_LOGIN),
                             4 := Row(Backoffice(0), Hash(5), 0, REFRESH_TTL, false, FIRST_LOGIN)],
                 minted := Borrowing().minted[6 := SignedNow(Session(Backoffice(0), 4, FIRST_LOGIN))],
                 next := 7)
  }

  lemma OperatorLogsIn()
    ensures Handle(Morning(), OperatorLogin(Some(0), true, false, AllWorks)).0 == OperatorIn()
  {
    var s := Morning();
    assert NewOpening(s, Backoffice(0), Password) == FIRST_LOGIN;
    assert CreateRow(s, Backoffice(0), FIRST_LOGIN).rows == OperatorIn().rows;
  }

  lemma OperatorBorrows()
    ensures Handle(OperatorIn(), StartImpersonating(Some(2), Some(1), 0, MINUTE, false, AllWorks)).0 == Borrowing()
  {
    var s := OperatorIn();
    assert AdmitBackoffice(s, Some(2)) == Ok(0);
    assert ClampImpersonationTtl(MINUTE) == MINUTE;
  }

  lemma OperatorRotates()
    ensures Handle(Borrowing(), OperatorRefresh(Some(1), true, AllWorks)).0 == Rotated()
  {
    var s := Borrowing();
    FoundByHash(s.rows, s.next, 0, ANY_OPERATOR);
    assert BackofficeRefreshOutcome(s, Some(1), true, AllWorks) == RotationOf(s, 0, AllWorks);
    assert RotationOf(s, 0, AllWorks).0.rows == Rotated().rows;
  }

  lemma SlotEnds(s: System)
    requires s == Borrowing() || s == Rotated()
    ensures EndOutcome(s, Some(3), AllWorks).1.OperatorRestored? && s.slots[3].cookie == Some(1)
  {
    assert ParseImpersonationEnd(s, Some(3)) == Ok((3, 0));
    assert SlotLive(s, 3);
  }

  /** The end restores the operator and plants the captured cookie, which a refresh accepts or refuses. */
  ghost predicate Replants(s: System, works: bool) {
    var (t, resp) := EndOutcome(s, Some(3), AllWorks);
    && resp.OperatorRestored? && resp.replanted == Some(1)
    && BackofficeRefreshOutcome(t, Some(1), true, AllWorks).1.SignedIn? == works
  }

  lemma GoodEnd()
    requires WellFormed(Borrowing())
    ensures Replants(Borrowing(), true)
  {
    var s := Borrowing();
    SlotEnds(s);
    ReplantedCookieWorksExactly(s, 3, 1);
    FoundByHash(s.rows, s.next, 0, ANY_OPERATOR);
  }

  lemma DeadEnd()
    requires WellFormed(Rotated())
    ensures Replants(Rotated(), false)
  {
    var s := Rotated();
    SlotEnds(s);
    ReplantedCookieWorksExactly(s, 3, 1);
    FoundByHash(s.rows, s.next, 0, ANY_OPERATOR);
  }

  lemma RunOfTwo(s: System, a: Request, b: Request)
    ensures Run(s, [a, b]) == Handle(Handle(s, a).0, b).0
  {
    assert [a, b][1..] == [b];
    var t := Handle(s, a).0;
    assert Run(t, [b]) == Run(Handle(t, b).0, []);
  }

  lemma RunOfThree(s: System, a: Request, b: Request, c: Request)
    ensures Run(s, [a, b, c]) == Handle(Handle(Handle(s, a).0, b).0, c).0
  {
    assert [a, b, c][1..] == [b, c];
    RunOfTwo(Handle(s, a).0, b, c);
  }

  /**
   From the initial state: log in, start an impersonation, end it, and the re-planted cookie
   works; log in, start, refresh, end, and the end answers just the same but plants a dead cookie.
   */
  lemma ReplantedCookieGoodAndDead()
    ensures Initial(Morning())
    ensures var login, start := OperatorLogin(Some(0), true, false, AllWorks), StartImpersonating(Some(2), Some(1), 0, MINUTE, false, AllWorks);
      && Replants(Run(Morning(), [login, start]), true)
      && Replants(Run(Morning(), [login, start, OperatorRefresh(Some(1), true, AllWorks)]), false)
  {
    var login, start := OperatorLogin(Some(0), true, false, AllWorks), StartImpersonating(Some(2), Some(1), 0, MINUTE, false, AllWorks);
    var refresh := OperatorRefresh(Some(1), true, AllWorks);
    OperatorLogsIn();
    OperatorBorrows();
    OperatorRotates();
    RunOfTwo(Morning(), login, start);
    RunOfThree(Morning(), login, start, refresh);
    InitialIsSafe(Morning());
    RunIsLawful(Morning(), [login, start]);
    RunIsLawful(Morning(), [login, start, refresh]);
    GoodEnd();
    DeadEnd();
  }

  // ---- a step 2 begun before a replay ----

  const ENROLLED := MfaRow(3, 4, true, FreshCodes(5), 0, 5, 10)

  /** The user has logged in: row 0, cookie 1, token 2. */
  function UserIn(): System {
    Morning().(rows := map[0 := Row(Tenant(0), Hash(1), 0, REFRESH_TTL, false, FIRST_LOGIN)],
               minted := map[2 := SignedNow(Session(Tenant(0), 0, FIRST_LOGIN))],
               next := 3)
  }

  /** Has enrolled a second factor: incarnation 3, secret 4, codes 5 to 14. */
  function UserEnrolled(): System {
    UserIn().(mfa := map[Tenant(0) := ENROLLED], next := 15)
  }

  /** Has begun a second login: challenge 15. */
  function Challenged(): System {
    UserEnrolled().(minted := UserEnrolled().minted[15 := SignedNow(Challenge(Tenant(0), 0))], next := 16)
  }

  /** And has refreshed the first: its cookie 1 is consumed. */
  function Consumed(): System {
    Challenged().(rows := map[0 := Row(Tenant(0), Hash(1), 0, REFRESH_TTL, true, FIRST_LOGIN),
                              16 := Row(Tenant(0), Hash(17), 0, REFRESH_TTL, false, FIRST_LOGIN)],
                  minted := Challenged().minted[18 := SignedNow(Session(Tenant(0), 16, FIRST_LOGIN))],
                  next := 19)
  }

  lemma UserLogsIn()
    ensures Handle(Morning(), Login(Some(0), true, false, AllWorks)).0 == UserIn()
  {
    var s := Morning();
    assert NewOpening(s, Tenant(0), Password) == FIRST_LOGIN;
    assert CreateRow(s, Tenant(0), FIRST_LOGIN).rows == UserIn().rows;
  }

  lemma UserEnrolls()
    ensures Handle(Handle(UserIn(), MfaSetup(Some(2))).0, MfaVerify(Some(2), TotpCode(4, 0))).0 == UserEnrolled()
  {
    var s := UserIn();
    assert AdmitTenant(s, Some(2)) == Ok(0);
    var pending := Handle(s, MfaSetup(Some(2))).0;
    assert pending.mfa == map[Tenant(0) := MfaRow(3, 4, false, [], 0, 0, 0)] && pending.next == 5;
    assert AdmitTenant(pending, Some(2)) == Ok(0);
    assert MatchedStep(4, TotpCode(4, 0), 0) == Some(0);
  }

  lemma UserIsChallenged()
    ensures Handle(UserEnrolled(), Login(Some(0), true, false, AllWorks)).0 == Challenged()
  {
  }

  lemma UserRotates()
    ensures Handle(Challenged(), Refresh(Value(1), None, AllWorks)).0 == Consumed()
  {
    var s := Challenged();
    FoundByHash(s.rows, s.next, 0, ANY_TENANT);
    assert RefreshOutcome(s, Value(1), None, AllWorks) == RotationOf(s, 0, AllWorks);
    assert RotationOf(s, 0, AllWorks).0.rows == Consumed().rows;
  }

  /** The step 2 with challenge 15, answered after the replay. */
  const LATE_STEP_TWO := Request.LoginMfa(15, Some(TotpCode(4, 1)), None, false, AllWorks)

  lemma StepTwoAfterReplay(t: System)
    requires t == RevokeByOwner(Consumed(), Tenant(0))
    ensures var v := Handle(t, LATE_STEP_TWO).0;
      19 in v.rows && !v.rows[19].revoked && v.rows[19].owner == Tenant(0)
      && v.rows[19].opening.means == SecondStep(15, TotpStep(3, 1))
  {
    assert ParseMfaToken(t, 15) == Ok((0, 0));
    assert MatchedStep(4, TotpCode(4, 1), 0) == Some(1);
    assert FactorOf(t, Tenant(0), Some(TotpCode(4, 1)), None) == Some(TotpStep(3, 1));
    var used := BlacklistToken(MarkStep(t, Tenant(0), 1), 15, t.minted[15].claims.exp * SECOND);
    assert used.next == 19 && used.rows == t.rows;
  }

  /**
   The third case of a replay's aftermath happens. From the initial state: log in, enroll, begin
   a second login, refresh; replay the consumed cookie, which revokes everything; answer the
   challenge signed before, and a row is live again.
   */
  lemma StepTwoOutlivesReplay()
    ensures Initial(Morning())
    ensures var login := Request.Login(Some(0), true, false, AllWorks);
      var s := Run(Morning(), [login, MfaSetup(Some(2)), MfaVerify(Some(2), TotpCode(4, 0)), login, Refresh(Value(1), None, AllWorks)]);
      var v := Run(Handle(s, Refresh(Value(1), None, AllWorks)).0, [LATE_STEP_TWO]);
      && Replayed(s, 1, 0)
      && 19 in v.rows && !v.rows[19].revoked && v.rows[19].owner == s.rows[0].owner
      && v.rows[19].opening.means == SecondStep(15, TotpStep(3, 1)) && 15 in s.minted
  {
    var login, refresh := Request.Login(Some(0), true, false, AllWorks), Refresh(Value(1), None, AllWorks);
    var setup, verify := MfaSetup(Some(2)), MfaVerify(Some(2), TotpCode(4, 0));
    UserLogsIn();
    UserEnrolls();
    UserIsChallenged();
    UserRotates();
    RunOfFive(Morning(), login, setup, verify, login, refresh);
    ReplayRevokes();
    StepTwoAfterReplay(RevokeByOwner(Consumed(), Tenant(0)));
    RunOfOne(RevokeByOwner(Consumed(), Tenant(0)), LATE_STEP_TWO);
  }

  lemma ReplayRevokes()
    ensures Replayed(Consumed(), 1, 0)
    ensures Handle(Consumed(), Refresh(Value(1), None, AllWorks)).0 == RevokeByOwner(Consumed(), Tenant(0))
  {
    var s := Consumed();
    FoundByHash(s.rows, s.next, 0, ANY_TENANT);
  }

  lemma RunOfOne(s: System, a: Request)
    ensures Run(s, [a]) == Handle(s, a).0
  {
    assert Run(s, [a]) == Run(Handle(s, a).0, []);
  }

  lemma RunOfFive(s: System, a: Request, b: Request, c: Request, d: Request, e: Request)
    ensures Run(s, [a, b, c, d, e]) == Handle(Handle(Handle(Handle(Handle(s, a).0, b).0, c).0, d).0, e).0
  {
    assert [a, b, c, d, e][1..] == [b, c, d, e];
    assert [b, c, d, e][1..] == [c, d, e];
    var t := Handle(Handle(s, a).0, b).0;
    assert Run(s, [a, b, c, d, e]) == Run(Handle(s, a).0, [b, c, d, e]);
    RunOfThree(t, c, d, e);
  }
}
