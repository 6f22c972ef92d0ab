/**
 Any number of second-factor requests at once. Each login, disable and regenerate request
 loads the MFA row, matches the code against what it loaded, asks the store to take the
 step or the backup code, and only then acts; other requests, and anything else the system
 does, may come between any two of these.
 */
module MfaInterleaving {
  import opened Basics
  import opened Model
  import opened Tokens
  import opened Registries
  import opened Schedules
  import opened Revocation
  import opened Issue
  import opened Runs

  datatype Purpose = ForLogin | ForDisable | ForRegenerate

  datatype Stage =
    | Arrived
    | Loaded(row: MfaRow)
    | Matched(on: MfaRow, step: Option<int>)
    | OnBackup
    | Taken(factor: Factor)
    | Done(used: Factor)
    | Rejected

  datatype Thread = Thread(purpose: Purpose, owner: Principal, totp: Option<TotpCode>, backup: Option<nat>, stage: Stage)

  /** The shared stores and every request that has ever arrived. */
  datatype World = World(s: System, threads: map<nat, Thread>)

  predicate HasFactor(t: Thread) {
    t.stage.Taken? || t.stage.Done?
  }

  function FactorHeld(t: Thread): Factor
    requires HasFactor(t)
  {
    if t.stage.Taken? then t.stage.factor else t.stage.used
  }

  predicate SameFactor(t: Thread, u: Thread) {
    HasFactor(t) && HasFactor(u) && FactorHeld(t) == FactorHeld(u)
  }

  /** Calls the rest of the system may make; taking factors is left to the threads. */
  predicate FromElsewhere(c: Call) {
    !c.CMarkStep? && !c.CConsumeCode?
  }

  function Put(w: World, s: System, k: nat, t: Thread, stage: Stage): World {
    World(s, w.threads[k := t.(stage := stage)])
  }

  /** Regenerating takes a time code only; the others fall back to a backup code. */
  function AfterTotp(t: Thread): Stage {
    if t.purpose.ForRegenerate? || t.backup.None? then Rejected else OnBackup
  }

  /** One atomic step of request k. */
  function ThreadStep(w: World, k: nat): World
    requires k in w.threads
  {
    var t := w.threads[k];
    var s := w.s;
    match t.stage
    case Arrived =>
      Put(w, s, k, t, if MfaEnabled(s, t.owner) then Loaded(s.mfa[t.owner]) else Rejected)
    case Loaded(row) =>
      Put(w, s, k, t, if t.totp.None? then AfterTotp(t) else Matched(row, MatchedStep(row.secret, t.totp.value, s.now)))
    case Matched(_, step) =>
      if step.None? || !StepWins(s, t.owner, step.value) then Put(w, s, k, t, AfterTotp(t))
      else Put(w, MarkStep(s, t.owner, step.value), k, t, Taken(TotpStep(s.mfa[t.owner].incarnation, step.value)))
    case OnBackup =>
      if t.backup.None? || !CodeMatches(s, t.owner, t.backup.value) then Put(w, s, k, t, Rejected)
      else Put(w, ConsumeCode(s, t.owner, t.backup.value), k, t, Taken(BackupCode(s.mfa[t.owner].incarnation, t.backup.value)))
    case Taken(f) =>
      Put(w, match t.purpose
             case ForLogin => s
             case ForDisable => DeleteMfa(s, t.owner)
             case ForRegenerate => UpdateCodes(s, t.owner), k, t, Done(f))
    case _ => w
  }

  datatype Move = Arrive(k: nat, thread: Thread) | Advance(k: nat) | Elsewhere(call: Call)

  predicate Possible(w: World, m: Move) {
    match m
    case Arrive(k, thread) => k !in w.threads && thread.stage.Arrived?
    case Advance(k) => k in w.threads
    case Elsewhere(c) => FromElsewhere(c) && Lawful(w.s, c)
  }

  function Moved(w: World, m: Move): World
    requires Possible(w, m)
  {
    match m
    case Arrive(k, thread) => w.(threads := w.threads[k := thread])
    case Advance(k) => ThreadStep(w, k)
    case Elsewhere(c) => w.(s := Apply(w.s, c))
  }

  /** w' is reached from w by these moves, each possible when it is made. */
  ghost predicate Leads(w: World, moves: seq<Move>, w': World)
    decreases |moves|
  {
    if moves == [] then w == w'
    else Possible(w, moves[0]) && Leads(Moved(w, moves[0]), moves[1..], w')
  }

  // ---- what every interleaving keeps ----

  ghost predicate Quiet(w: World) {
    WellFormed(w.s) && w.threads == map[]
  }

  /** Threads hold distinct factors, and the ledger is what was there at the start plus exactly those. */
  ghost predicate Accounted(start: set<Factor>, w: World) {
    && WellFormed(w.s)
    && (forall k :: k in w.threads && HasFactor(w.threads[k]) ==>
          FactorHeld(w.threads[k]) in w.s.spent && FactorHeld(w.threads[k]) !in start)
    && (forall k, k' :: k in w.threads && k' in w.threads && SameFactor(w.threads[k], w.threads[k']) ==> k == k')
    && start <= w.s.spent
    && (forall f :: f in w.s.spent && f !in start ==>
          exists k :: k in w.threads && HasFactor(w.threads[k]) && FactorHeld(w.threads[k]) == f)
  }

  /** The store call a thread's next step makes, if it makes one. */
  function CallOf(w: World, k: nat): Option<Call>
    requires k in w.threads
  {
    var t := w.threads[k];
    match t.stage
    case Matched(_, step) => if step.None? then None else Some(CMarkStep(t.owner, step.value))
    case OnBackup => if t.backup.None? then None else Some(CConsumeCode(t.owner, t.backup.value))
    case Taken(f) =>
      (match t.purpose
       case ForLogin => None
       case ForDisable => Some(CDeleteMfa(t.owner))
       case ForRegenerate => Some(CUpdateCodes(t.owner)))
    case _ => None
  }

  lemma ThreadStepIsCall(w: World, k: nat)
    requires k in w.threads
    ensures ThreadStep(w, k).s == (if CallOf(w, k).None? then w.s else Apply(w.s, CallOf(w, k).value))
    ensures CallOf(w, k).Some? ==> Lawful(w.s, CallOf(w, k).value)
  {
  }

  lemma MoveStaysWellFormed(w: World, m: Move)
    requires WellFormed(w.s) && Possible(w, m)
    ensures WellFormed(Moved(w, m).s) && Reaches(w.s, Moved(w, m).s)
  {
    ReachesSelf(w.s);
    match m {
      case Arrive(_, _) =>
      case Advance(k) =>
        ThreadStepIsCall(w, k);
        if CallOf(w, k).Some? {
          ReachesNext(w.s, w.s, CallOf(w, k).value);
        }
      case Elsewhere(c) => ReachesNext(w.s, w.s, c);
    }
    StaysWellFormed(w.s, Moved(w, m).s);
  }

  lemma ElsewhereSpendsNothing(s: System, c: Call)
    requires FromElsewhere(c)
    ensures Apply(s, c).spent == s.spent
  {
  }

  /** A step either leaves the ledger and what its thread holds alone, or adds one new factor and hands it over. */
  ghost predicate Spends(w: World, w': World, k: nat)
    requires k in w.threads && k in w'.threads
  {
    if HasFactor(w'.threads[k]) && !HasFactor(w.threads[k])
    then FactorHeld(w'.threads[k]) !in w.s.spent && w'.s.spent == w.s.spent + {FactorHeld(w'.threads[k])}
    else w'.s.spent == w.s.spent && HasFactor(w'.threads[k]) == HasFactor(w.threads[k])
         && (HasFactor(w.threads[k]) ==> FactorHeld(w'.threads[k]) == FactorHeld(w.threads[k]))
  }

  lemma ThreadStepLeavesOthers(w: World, k: nat)
    requires k in w.threads
    ensures var w' := ThreadStep(w, k);
      w'.threads.Keys == w.threads.Keys
      && forall k' :: k' in w'.threads && k' != k ==> w'.threads[k'] == w.threads[k']
  {
  }

  lemma TakingSpends(w: World, k: nat)
    requires WellFormed(w.s) && k in w.threads && (w.threads[k].stage.Matched? || w.threads[k].stage.OnBackup?)
    ensures Spends(w, ThreadStep(w, k), k)
  {
    var t := w.threads[k];
    if t.owner in w.s.mfa {
      assert MfaSound(w.s.mfa[t.owner], w.s.spent, w.s.next);
      if t.stage.OnBackup? && t.backup.Some? && CodeMatches(w.s, t.owner, t.backup.value) {
        assert multiset(w.s.mfa[t.owner].codes)[t.backup.value] > 0;
      }
    }
  }

  lemma ThreadStepSpends(w: World, k: nat)
    requires WellFormed(w.s) && k in w.threads
    ensures Spends(w, ThreadStep(w, k), k)
  {
    if w.threads[k].stage.Matched? || w.threads[k].stage.OnBackup? {
      TakingSpends(w, k);
    } else {
      assert ThreadStep(w, k).s.spent == w.s.spent;
    }
  }

  lemma SpendingKeepsAccounts(start: set<Factor>, w: World, w': World, k: nat)
    requires Accounted(start, w) && WellFormed(w'.s) && k in w.threads && w'.threads.Keys == w.threads.Keys && Spends(w, w', k)
    requires forall k' :: k' in w'.threads && k' != k ==> w'.threads[k'] == w.threads[k']
    ensures Accounted(start, w')
  {
    forall f | f in w'.s.spent && f !in start
      ensures exists k' :: k' in w'.threads && HasFactor(w'.threads[k']) && FactorHeld(w'.threads[k']) == f
    {
      if f in w.s.spent {
        var k' :| k' in w.threads && HasFactor(w.threads[k']) && FactorHeld(w.threads[k']) == f;
        assert k' in w'.threads && HasFactor(w'.threads[k']) && FactorHeld(w'.threads[k']) == f;
      } else {
        assert k in w'.threads && HasFactor(w'.threads[k]) && FactorHeld(w'.threads[k]) == f;
      }
    }
  }

  lemma AdvanceKeepsAccounts(start: set<Factor>, w: World, k: nat)
    requires Accounted(start, w) && k in w.threads && WellFormed(ThreadStep(w, k).s)
    ensures Accounted(start, ThreadStep(w, k))
  {
    ThreadStepLeavesOthers(w, k);
    ThreadStepSpends(w, k);
    SpendingKeepsAccounts(start, w, ThreadStep(w, k), k);
  }

  lemma ArriveKeepsAccounts(start: set<Factor>, w: World, k: nat, thread: Thread)
    requires Accounted(start, w) && k !in w.threads && thread.stage.Arrived?
    ensures Accounted(start, w.(threads := w.threads[k := thread]))
  {
    var w' := w.(threads := w.threads[k := thread]);
    forall f | f in w'.s.spent && f !in start
      ensures exists k' :: k' in w'.threads && HasFactor(w'.threads[k']) && FactorHeld(w'.threads[k']) == f
    {
      var k' :| k' in w.threads && HasFactor(w.threads[k']) && FactorHeld(w.threads[k']) == f;
      assert k' in w'.threads && HasFactor(w'.threads[k']) && FactorHeld(w'.threads[k']) == f;
    }
  }

  lemma {:induction false} EveryInterleavingIsAccounted(start: set<Factor>, w: World, moves: seq<Move>, w': World)
    requires Accounted(start, w) && Leads(w, moves, w')
    ensures Accounted(start, w') && Reaches(w.s, w'.s)
    decreases |moves|
  {
    if moves == [] {
      ReachesSelf(w.s);
    } else {
      var m := moves[0];
      MoveStaysWellFormed(w, m);
      match m {
        case Arrive(k, thread) => ArriveKeepsAccounts(start, w, k, thread);
        case Advance(k) => AdvanceKeepsAccounts(start, w, k);
        case Elsewhere(c) => ElsewhereSpendsNothing(w.s, c);
      }
      EveryInterleavingIsAccounted(start, Moved(w, m), moves[1..], w');
      ReachesIsTransitive(w.s, Moved(w, m).s, w'.s);
    }
  }

  // ---- the results ----

  /**
   However many requests run at once, no two of them succeed on the same factor: in
   particular the same time step of the same enrollment, or the same backup code, succeeds
   at most once.
   */
  lemma AtMostOneSuccessPerFactor(w: World, moves: seq<Move>, w': World, k: nat, k': nat)
    requires Quiet(w) && Leads(w, moves, w') && k in w'.threads && k' in w'.threads
    requires HasFactor(w'.threads[k]) && HasFactor(w'.threads[k'])
    requires FactorHeld(w'.threads[k]) == FactorHeld(w'.threads[k'])
    ensures k == k'
  {
    EveryInterleavingIsAccounted(w.s.spent, w, moves, w');
  }

  /**
   Two requests of one account succeed with time codes of the same step exactly on different
   enrollments: the second only after the enrollment of the first has been replaced.
   */
  lemma SameStepMeansOtherEnrollment(w: World, moves: seq<Move>, w': World, k: nat, k': nat)
    requires Quiet(w) && Leads(w, moves, w') && k in w'.threads && k' in w'.threads && k != k'
    requires HasFactor(w'.threads[k]) && HasFactor(w'.threads[k'])
    requires FactorHeld(w'.threads[k]).TotpStep? && FactorHeld(w'.threads[k']).TotpStep?
    requires FactorHeld(w'.threads[k]).step == FactorHeld(w'.threads[k']).step
    ensures FactorHeld(w'.threads[k]).incarnation != FactorHeld(w'.threads[k']).incarnation
  {
    if FactorHeld(w'.threads[k]).incarnation == FactorHeld(w'.threads[k']).incarnation {
      AtMostOneSuccessPerFactor(w, moves, w', k, k');
    }
  }

  /**
   When a request that has matched its code wins: exactly if the step is later than the one
   stored in whatever enrollment the account has by then. The secret is not asked again, so
   the factor is the matched enrollment's exactly if that has not been replaced.
   */
  lemma MatchWinsExactly(w: World, k: nat)
    requires k in w.threads && w.threads[k].stage.Matched? && w.threads[k].stage.step.Some?
    ensures var t := w.threads[k]; var step := t.stage.step.value; var stage := ThreadStep(w, k).threads[k].stage;
      && (stage.Taken? <==> StepWins(w.s, t.owner, step))
      && (stage.Taken? ==> t.owner in w.s.mfa && stage == Taken(TotpStep(w.s.mfa[t.owner].incarnation, step)))
      && (stage == Taken(TotpStep(t.stage.on.incarnation, step)) <==>
            StepWins(w.s, t.owner, step) && w.s.mfa[t.owner].incarnation == t.stage.on.incarnation)
  {
  }

  /** The account turns its second factor off and enrolls anew. */
  function Replace(p: Principal): seq<Move> {
    [Elsewhere(CDeleteMfa(p)), Elsewhere(CCreateMfa(p)), Elsewhere(CEnableMfa(p))]
  }

  lemma LeadsOn(w: World, m: Move, rest: seq<Move>, w': World)
    requires Possible(w, m) && Leads(Moved(w, m), rest, w')
    ensures Leads(w, [m] + rest, w')
  {
    assert ([m] + rest)[1..] == rest;
  }

  lemma ReplaceLeads(w: World, p: Principal, rest: seq<Move>, w': World)
    requires p.Tenant? && p in w.s.mfa
    requires Leads(w.(s := EnableMfa(CreateMfa(DeleteMfa(w.s, p), p), p)), rest, w')
    ensures Leads(w, Replace(p) + rest, w')
  {
    var deleted := Moved(w, Elsewhere(CDeleteMfa(p)));
    var pending := Moved(deleted, Elsewhere(CCreateMfa(p)));
    LeadsOn(pending, Elsewhere(CEnableMfa(p)), rest, w');
    LeadsOn(deleted, Elsewhere(CCreateMfa(p)), [Elsewhere(CEnableMfa(p))] + rest, w');
    LeadsOn(w, Elsewhere(CDeleteMfa(p)), [Elsewhere(CCreateMfa(p))] + ([Elsewhere(CEnableMfa(p))] + rest), w');
    assert Replace(p) + rest == [Elsewhere(CDeleteMfa(p))] + ([Elsewhere(CCreateMfa(p))] + ([Elsewhere(CEnableMfa(p))] + rest));
  }

  /** A fresh enrollment has used no step yet. */
  lemma ReplacedRow(s: System, p: Principal)
    requires p in s.mfa
    ensures var t := EnableMfa(CreateMfa(DeleteMfa(s, p), p), p);
      p in t.mfa && t.mfa[p].incarnation == s.next && t.mfa[p].secret == s.next + 1 && t.mfa[p].lastStep == 0
  {
    var deleted := DeleteMfa(s, p);
    var pending := CreateMfa(deleted, p);
    assert pending.mfa[p] == MfaRow(s.next, s.next + 1, false, [], 0, 0, 0);
  }

  /**
   The case happens: a request that has matched its code on an enrollment which is then
   replaced still wins on the successor, exactly if its step is positive, as every real one
   is; its code is not one of the successor's secret.
   */
  lemma StaleMatchWinsOnSuccessor(w: World, k: nat)
    requires WellFormed(w.s) && k in w.threads && w.threads[k].stage.Matched? && w.threads[k].stage.step.Some?
    requires var p := w.threads[k].owner; p.Tenant? && p in w.s.mfa && w.s.mfa[p].incarnation == w.threads[k].stage.on.incarnation
    ensures var t := w.threads[k]; var step := t.stage.step.value;
      exists w' :: Leads(w, Replace(t.owner) + [Advance(k)], w') && k in w'.threads
        && (w'.threads[k].stage == Taken(TotpStep(w.s.next, step)) <==> 0 < step)
        && (w'.threads[k].stage.Taken? <==> 0 < step)
        && w.s.next != t.stage.on.incarnation
  {
    var p := w.threads[k].owner;
    var replaced := w.(s := EnableMfa(CreateMfa(DeleteMfa(w.s, p), p), p));
    var w' := ThreadStep(replaced, k);
    ReplacedRow(w.s, p);
    MatchWinsExactly(replaced, k);
    assert Leads(w', [], w');
    LeadsOn(replaced, Advance(k), [], w');
    assert [Advance(k)] + [] == [Advance(k)];
    ReplaceLeads(w, p, [Advance(k)], w');
    assert MfaSound(w.s.mfa[p], w.s.spent, w.s.next);
  }

  /**
   So one code can succeed twice: two requests match it, the first takes the step, the
   enrollment is replaced, and the second takes the same step of the successor.
   */
  lemma SameCodeSucceedsTwice(w: World, k: nat, k': nat)
    requires WellFormed(w.s) && k in w.threads && k' in w.threads && k != k'
    requires var t, t' := w.threads[k], w.threads[k'];
      && t.stage.Matched? && t.stage == t'.stage && t.owner == t'.owner && t.totp == t'.totp && t.owner.Tenant?
      && t.stage.step.Some? && 0 < t.stage.step.value && StepWins(w.s, t.owner, t.stage.step.value)
      && w.s.mfa[t.owner] == t.stage.on
    ensures var t := w.threads[k]; var step := t.stage.step.value;
      exists w' :: Leads(w, [Advance(k)] + (Replace(t.owner) + [Advance(k')]), w') && k in w'.threads && k' in w'.threads
        && w'.threads[k].stage == Taken(TotpStep(t.stage.on.incarnation, step))
        && w'.threads[k'].stage == Taken(TotpStep(w.s.next, step))
  {
    var t := w.threads[k];
    var taken := ThreadStep(w, k);
    MatchWinsExactly(w, k);
    MoveStaysWellFormed(w, Advance(k));
    StaleMatchWinsOnSuccessor(taken, k');
    var w' :| Leads(taken, Replace(t.owner) + [Advance(k')], w') && k' in w'.threads
      && (w'.threads[k'].stage == Taken(TotpStep(taken.s.next, t.stage.step.value)) <==> 0 < t.stage.step.value);
    LeadsOn(w, Advance(k), Replace(t.owner) + [Advance(k')], w');
    OthersKeepTheirs(taken, k, Replace(t.owner) + [Advance(k')], w');
  }

  /** A request that is not advanced stays where it is. */
  lemma {:induction false} OthersKeepTheirs(w: World, k: nat, moves: seq<Move>, w': World)
    requires k in w.threads && Leads(w, moves, w') && forall i :: 0 <= i < |moves| ==> moves[i] != Advance(k)
    ensures k in w'.threads && w'.threads[k] == w.threads[k]
    decreases |moves|
  {
    if moves != [] {
      if moves[0].Advance? {
        ThreadStepLeavesOthers(w, moves[0].k);
      }
      OthersKeepTheirs(Moved(w, moves[0]), k, moves[1..], w');
    }
  }

  /** Successes and used factors are in exact correspondence: nothing is used up without a success. */
  lemma SuccessesAreTheUsedFactors(w: World, moves: seq<Move>, w': World, f: Factor)
    requires Quiet(w) && Leads(w, moves, w') && f !in w.s.spent
    ensures f in w'.s.spent <==> exists k :: k in w'.threads && HasFactor(w'.threads[k]) && FactorHeld(w'.threads[k]) == f
  {
    EveryInterleavingIsAccounted(w.s.spent, w, moves, w');
  }

  /** The step ledger of an enrollment only rises, regeneration included, until the enrollment is deleted. */
  lemma LedgerNeverFalls(w: World, moves: seq<Move>, w': World, p: Principal)
    requires Quiet(w) && Leads(w, moves, w') && p in w.s.mfa && p in w'.s.mfa
    requires w'.s.mfa[p].incarnation == w.s.mfa[p].incarnation
    ensures w.s.mfa[p].lastStep <= w'.s.mfa[p].lastStep
  {
    EveryInterleavingIsAccounted(w.s.spent, w, moves, w');
    assert MfaSound(w.s.mfa[p], w.s.spent, w.s.next);
    PromiseKept(w.s, w'.s, StepStaysUsed(w.s.mfa[p].incarnation, w.s.mfa[p].lastStep));
  }

  /** The codes of the current list that some request has succeeded with. */
  function SucceededCodes(w: World, r: MfaRow): set<nat> {
    set c | c in IssuedCodes(r) && exists k :: k in w.threads && HasFactor(w.threads[k]) && FactorHeld(w.threads[k]) == BackupCode(r.incarnation, c)
  }

  /** For a list issued along the way: codes left plus requests that succeeded with one of them is codes issued. */
  lemma CodesPlusSuccesses(w: World, moves: seq<Move>, w': World, p: Principal)
    requires Quiet(w) && Leads(w, moves, w') && p in w'.s.mfa && w.s.next <= w'.s.mfa[p].firstCode
    ensures |w'.s.mfa[p].codes| + |SucceededCodes(w', w'.s.mfa[p])| == w'.s.mfa[p].issued
  {
    var r := w'.s.mfa[p];
    EveryInterleavingIsAccounted(w.s.spent, w, moves, w');
    CodesAddUp(r, w'.s.spent, w'.s.next);
    forall c | c in IssuedCodes(r)
      ensures BackupCode(r.incarnation, c) in w'.s.spent <==>
        exists k :: k in w'.threads && HasFactor(w'.threads[k]) && FactorHeld(w'.threads[k]) == BackupCode(r.incarnation, c)
    {
      assert BackupCode(r.incarnation, c) in w.s.spent ==> FactorFresh(BackupCode(r.incarnation, c), w.s.next);
    }
    assert SucceededCodes(w', r) == RedeemedCodes(r, w'.s.spent);
  }
}
