/** go/apiserver/currency_migrations.go: starting a currency migration, and the daily cap over whole runs. */
module Migrations {
  import opened Basics
  import opened Conversion
  import opened Preview

  const PREVIEW_TTL: nat := 10 * MINUTE
  const DAILY_CAP: nat := 2

  datatype Status = Pending | Running | Completed | Failed

  datatype Migration = Migration(group: nat, from: Currency, to: Currency, rate: real, status: Status, completedAt: Option<Instant>)

  datatype Group = Group(id: nat, currency: Currency)

  datatype RestoreStatus = RestorePending | RestoreRunning | RestoreFinished

  datatype PreviewInputs = PreviewInputs(group: nat, from: Currency, to: Currency, rate: real, stateHash: StateHash, expiresAt: Instant)

  /** Only tokens this system signed verify. */
  datatype PreviewToken = Unsigned | Signed(inputs: PreviewInputs)

  datatype Attributes = Attributes(from: Currency, to: Currency, rate: real, token: PreviewToken)

  datatype Code =
    | InvalidToCurrency
    | FromMismatch
    | SameCurrency
    | RateInvalid
    | TokenInvalid
    | PreviewExpired
    | StateChanged
    | InProgress
    | RestoreInProgress
    | DailyCapReached(retryAfterSeconds: int)

  datatype StartResponse = Started(id: nat) | Rejected(code: Code)

  /** The clock, the migration rows in insertion order, and each group's lock column. */
  datatype Books = Books(now: Instant, items: seq<Migration>, locks: map<nat, nat>)

  // ---- time ----

  function UtcDay(t: Instant): nat {
    t / DAY
  }

  function NextUtcMidnight(now: Instant): Instant {
    (UtcDay(now) + 1) * DAY
  }

  /** Whole seconds, rounded up, at least one; Go divides truncating, but only positive values get there. */
  function RetryAfterSeconds(d: int): int {
    if d <= 0 then 1
    else
      var secs := (d + SECOND - 1) / SECOND;
      if secs < 1 then 1 else secs
  }

  /** The hint is the least whole number of seconds that reaches the next UTC midnight. */
  lemma HintIsLeast(now: Instant)
    ensures var h := RetryAfterSeconds(NextUtcMidnight(now) - now);
      && 1 <= h <= 86_400
      && NextUtcMidnight(now) <= now + h * SECOND
      && now + (h - 1) * SECOND < NextUtcMidnight(now)
      && UtcDay(now + h * SECOND) == UtcDay(now) + 1
      && UtcDay(now + (h - 1) * SECOND) == UtcDay(now)
  {
    var d := NextUtcMidnight(now) - now;
    var h := RetryAfterSeconds(d);
    assert 0 < d <= DAY;
    assert h == (d + SECOND - 1) / SECOND;
    assert h * SECOND <= d + SECOND - 1 < (h + 1) * SECOND;
    DayOf(now + h * SECOND, UtcDay(now) + 1);
    DayOf(now + (h - 1) * SECOND, UtcDay(now));
  }

  lemma DayOf(t: Instant, day: nat)
    requires day * DAY <= t < (day + 1) * DAY
    ensures UtcDay(t) == day
  {
  }

  // ---- counting rows ----

  /** What the registry is asked about a group. */
  datatype Query = InFlightOf(group: nat) | CompletedOn(group: nat, day: nat)

  predicate IsInFlight(m: Migration) {
    m.status.Pending? || m.status.Running?
  }

  predicate Matches(m: Migration, q: Query) {
    match q
    case InFlightOf(g) => m.group == g && IsInFlight(m)
    case CompletedOn(g, day) => m.group == g && m.status.Completed? && m.completedAt.Some? && UtcDay(m.completedAt.value) == day
  }

  function Count(items: seq<Migration>, q: Query): nat {
    if items == [] then 0
    else Count(items[..|items| - 1], q) + if Matches(items[|items| - 1], q) then 1 else 0
  }

  predicate InFlight(items: seq<Migration>, g: nat) {
    Count(items, InFlightOf(g)) > 0
  }

  lemma CountAppend(items: seq<Migration>, m: Migration, q: Query)
    ensures Count(items + [m], q) == Count(items, q) + if Matches(m, q) then 1 else 0
  {
    assert (items + [m])[..|items|] == items;
  }

  lemma {:induction false} CountUpdate(items: seq<Migration>, i: nat, m: Migration, q: Query)
    requires i < |items|
    ensures Count(items[i := m], q) + (if Matches(items[i], q) then 1 else 0) == Count(items, q) + (if Matches(m, q) then 1 else 0)
    decreases |items|
  {
    var n := |items| - 1;
    if i == n {
      assert items[i := m][..n] == items[..n];
    } else {
      assert items[i := m][..n] == items[..n][i := m];
      CountUpdate(items[..n], i, m, q);
    }
  }

  lemma {:induction false} CountZero(items: seq<Migration>, q: Query)
    ensures Count(items, q) == 0 <==> forall i :: 0 <= i < |items| ==> !Matches(items[i], q)
    decreases |items|
  {
    if items != [] {
      var n := |items| - 1;
      CountZero(items[..n], q);
      assert forall i :: 0 <= i < n ==> items[..n][i] == items[i];
    }
  }

  // ---- the handlers ----

  /** The guards on the request body, in order; None if it passes. */
  function BodyProblem(codes: set<Currency>, group: Group, from: Currency, to: Currency, rate: real): Option<Code> {
    if to !in codes then Some(InvalidToCurrency)
    else if from != group.currency then Some(FromMismatch)
    else if from == to then Some(SameCurrency)
    else if !ValidRate(rate) then Some(RateInvalid)
    else None
  }

  datatype PreviewResponse = Previewed(body: Body, token: PreviewToken) | PreviewRejected(code: Code)

  function PreviewOutcome(now: Instant, codes: set<Currency>, group: Group, from: Currency, to: Currency, rate: real, live: Listing): PreviewResponse {
    var problem := BodyProblem(codes, group, from, to, rate);
    if problem.Some? then PreviewRejected(problem.value)
    else
      var body := PreviewOf(live, from, to, rate);
      Previewed(body, Signed(PreviewInputs(group.id, from, to, rate, body.stateHash, now + PREVIEW_TTL)))
  }

  predicate BindingsMatch(inputs: PreviewInputs, group: Group, attrs: Attributes) {
    inputs.group == group.id && inputs.from == attrs.from && inputs.to == attrs.to && inputs.rate == attrs.rate
  }

  predicate RestoreBusy(restores: seq<Option<RestoreStatus>>) {
    exists i :: 0 <= i < |restores| && restores[i].Some? && !restores[i].value.RestoreFinished?
  }

  /** Signature, expiry, bindings, live state, in that order. */
  function TokenProblem(now: Instant, group: Group, attrs: Attributes, live: Listing): Option<Code> {
    if attrs.token.Unsigned? then Some(TokenInvalid)
    else if attrs.token.inputs.expiresAt < now then Some(PreviewExpired)
    else if !BindingsMatch(attrs.token.inputs, group, attrs) then Some(StateChanged)
    else if StateHash(|live|, SumCurrent(live)) != attrs.token.inputs.stateHash then Some(StateChanged)
    else None
  }

  function BusyProblem(b: Books, g: nat, restores: seq<Option<RestoreStatus>>): Option<Code> {
    if InFlight(b.items, g) then Some(InProgress)
    else if RestoreBusy(restores) then Some(RestoreInProgress)
    else if Count(b.items, CompletedOn(g, UtcDay(b.now))) >= DAILY_CAP then
      Some(DailyCapReached(RetryAfterSeconds(NextUtcMidnight(b.now) - b.now)))
    else None
  }

  function NewMigration(g: nat, attrs: Attributes): Migration {
    Migration(g, attrs.from, attrs.to, attrs.rate, Pending, None)
  }

  function StartOutcome(b: Books, codes: set<Currency>, group: Group, attrs: Attributes, live: Listing, restores: seq<Option<RestoreStatus>>)
    : (Books, StartResponse)
  {
    var body := BodyProblem(codes, group, attrs.from, attrs.to, attrs.rate);
    if body.Some? then (b, Rejected(body.value))
    else
      var token := TokenProblem(b.now, group, attrs, live);
      if token.Some? then (b, Rejected(token.value))
      else
        var busy := BusyProblem(b, group.id, restores);
        if busy.Some? then (b, Rejected(busy.value))
        else (b.(items := b.items + [NewMigration(group.id, attrs)], locks := b.locks[group.id := |b.items|]), Started(|b.items|))
  }

  /** The guard methods answer None to let the request through. */
  method ValidateAttributes(codes: set<Currency>, group: Group, from: Currency, to: Currency, rate: real) returns (problem: Option<Code>)
    ensures problem == BodyProblem(codes, group, from, to, rate)
  {
    if to !in codes {
      return Some(InvalidToCurrency);
    }
    if from != group.currency {
      return Some(FromMismatch);
    }
    if from == to {
      return Some(SameCurrency);
    }
    if rate <= 0.0 || rate > MAX_RATE {
      return Some(RateInvalid);
    }
    return None;
  }

  method PreviewMigration(now: Instant, codes: set<Currency>, group: Group, from: Currency, to: Currency, rate: real, live: Listing)
    returns (resp: PreviewResponse)
    ensures resp == PreviewOutcome(now, codes, group, from, to, rate, live)
  {
    var problem := ValidateAttributes(codes, group, from, to, rate);
    if problem.Some? {
      return PreviewRejected(problem.value);
    }
    var body := BuildPreviewBody(live, from, to, rate);
    return Previewed(body, Signed(PreviewInputs(group.id, from, to, rate, body.stateHash, now + PREVIEW_TTL)));
  }

  method CheckToken(now: Instant, group: Group, attrs: Attributes, live: Listing) returns (problem: Option<Code>)
    ensures problem == TokenProblem(now, group, attrs, live)
  {
    if attrs.token.Unsigned? {
      return Some(TokenInvalid);
    }
    var inputs := attrs.token.inputs;
    if now > inputs.expiresAt {
      return Some(PreviewExpired);
    }
    if inputs.group != group.id || inputs.from != attrs.from || inputs.to != attrs.to || inputs.rate != attrs.rate {
      return Some(StateChanged);
    }
    var sum := SumCurrentPrices(live);
    if StateHash(|live|, sum) != inputs.stateHash {
      return Some(StateChanged);
    }
    return None;
  }

  method GroupHasInFlightRestore(restores: seq<Option<RestoreStatus>>) returns (busy: bool)
    ensures busy == RestoreBusy(restores)
  {
    for i := 0 to |restores|
      invariant forall k :: 0 <= k < i ==> restores[k].None? || restores[k].value.RestoreFinished?
    {
      if restores[i].None? {
        continue;
      }
      if restores[i].value.RestorePending? || restores[i].value.RestoreRunning? {
        return true;
      }
    }
    return false;
  }

  class MigrationRegistry {
    var now: Instant
    var items: seq<Migration>
    var locks: map<nat, nat>

    ghost function View(): Books
      reads this
    {
      Books(now, items, locks)
    }

    method InFlightForGroup(g: nat) returns (found: Option<nat>)
      ensures found.Some? <==> InFlight(items, g)
      ensures found.Some? ==> found.value < |items| && Matches(items[found.value], InFlightOf(g))
    {
      CountZero(items, InFlightOf(g));
      for i := 0 to |items|
        invariant forall k :: 0 <= k < i ==> !Matches(items[k], InFlightOf(g))
      {
        if items[i].group == g && (items[i].status.Pending? || items[i].status.Running?) {
          return Some(i);
        }
      }
      return None;
    }

    /** Completions from this UTC midnight up to, not including, the next. */
    method CompletedTodayForGroup(g: nat) returns (cnt: nat)
      ensures cnt == Count(items, CompletedOn(g, UtcDay(now)))
    {
      var startOfDay := now / DAY * DAY;
      var endOfDay := startOfDay + DAY;
      cnt := 0;
      for i := 0 to |items|
        invariant cnt == Count(items[..i], CompletedOn(g, UtcDay(now)))
      {
        assert items[..i + 1] == items[..i] + [items[i]];
        CountAppend(items[..i], items[i], CompletedOn(g, UtcDay(now)));
        if items[i].group != g || !items[i].status.Completed? {
          continue;
        }
        if items[i].completedAt.None? {
          continue;
        }
        var at := items[i].completedAt.value;
        assert startOfDay <= at < endOfDay <==> UtcDay(at) == UtcDay(now);
        if startOfDay <= at && at < endOfDay {
          cnt := cnt + 1;
        }
      }
      assert items[..|items|] == items;
    }

    /** Insert, unless a migration of the group is pending or running: checked and written under one lock. */
    method Create(m: Migration) returns (id: Option<nat>)
      modifies this
      ensures View() == old(View()).(items := if InFlight(old(items), m.group) then old(items) else old(items) + [m])
      ensures id == if InFlight(old(items), m.group) then None else Some(|old(items)|)
    {
      var existing := InFlightForGroup(m.group);
      if existing.Some? {
        return None;
      }
      items := items + [m];
      return Some(|items| - 1);
    }

    method CheckInFlightAndCap(g: nat, restores: seq<Option<RestoreStatus>>) returns (problem: Option<Code>)
      ensures problem == BusyProblem(View(), g, restores)
    {
      var existing := InFlightForGroup(g);
      if existing.Some? {
        return Some(InProgress);
      }
      var busy := GroupHasInFlightRestore(restores);
      if busy {
        return Some(RestoreInProgress);
      }
      var completed := CompletedTodayForGroup(g);
      if completed >= DAILY_CAP {
        return Some(DailyCapReached(RetryAfterSeconds(NextUtcMidnight(now) - now)));
      }
      return None;
    }

    method Start(codes: set<Currency>, group: Group, attrs: Attributes, live: Listing, restores: seq<Option<RestoreStatus>>)
      returns (resp: StartResponse)
      modifies this
      ensures (View(), resp) == StartOutcome(old(View()), codes, group, attrs, live, restores)
    {
      var problem := ValidateAttributes(codes, group, attrs.from, attrs.to, attrs.rate);
      if problem.Some? {
        return Rejected(problem.value);
      }
      problem := CheckToken(now, group, attrs, live);
      if problem.Some? {
        return Rejected(problem.value);
      }
      problem := CheckInFlightAndCap(group.id, restores);
      if problem.Some? {
        return Rejected(problem.value);
      }
      var created := Create(NewMigration(group.id, attrs));
      if created.None? {
        return Rejected(InProgress);
      }
      locks := locks[group.id := created.value];
      return Started(created.value);
    }
  }

  // ---- when a start succeeds, and why it fails ----

  /** A pending or running row of the group. */
  ghost predicate Busy(b: Books, g: nat) {
    exists i :: 0 <= i < |b.items| && b.items[i].group == g && (b.items[i].status.Pending? || b.items[i].status.Running?)
  }

  /** The rows of the group completed since the last UTC midnight and before the next. */
  function CompletedToday(b: Books, g: nat): set<nat> {
    set i: nat | i < |b.items| && b.items[i].group == g && b.items[i].status.Completed?
                 && b.items[i].completedAt.Some? && b.items[i].completedAt.value / (86_400 * 1_000_000_000) == b.now / (86_400 * 1_000_000_000)
  }

  lemma {:induction false} CountIsCardinality(items: seq<Migration>, q: Query)
    ensures Count(items, q) == |set i: nat | i < |items| && Matches(items[i], q)|
    decreases |items|
  {
    var all := set i: nat | i < |items| && Matches(items[i], q);
    if items == [] {
      assert all == {};
    } else {
      var n := |items| - 1;
      var front := set i: nat | i < |items[..n]| && Matches(items[..n][i], q);
      CountIsCardinality(items[..n], q);
      assert all == front + (if Matches(items[n], q) then {n} else {});
    }
  }

  lemma BooksInPlainWords(b: Books, g: nat)
    ensures InFlight(b.items, g) <==> Busy(b, g)
    ensures Count(b.items, CompletedOn(g, UtcDay(b.now))) == |CompletedToday(b, g)|
  {
    CountZero(b.items, InFlightOf(g));
    if Busy(b, g) {
      var i :| 0 <= i < |b.items| && b.items[i].group == g && (b.items[i].status.Pending? || b.items[i].status.Running?);
      assert Matches(b.items[i], InFlightOf(g));
    }
    var q := CompletedOn(g, UtcDay(b.now));
    CountIsCardinality(b.items, q);
    assert (set i: nat | i < |b.items| && Matches(b.items[i], q)) == CompletedToday(b, g);
  }

  /** A known target currency, the group's own as source, two different ones, and a rate in (0, 10^10]. */
  predicate TermsServe(codes: set<Currency>, group: Group, from: Currency, to: Currency, rate: real) {
    to in codes && from == group.currency && from != to && 0.0 < rate <= 10_000_000_000.0
  }

  /** Signed here for this group and exactly these terms. */
  predicate TokenIsBound(group: Group, attrs: Attributes) {
    && attrs.token.Signed? && attrs.token.inputs.group == group.id
    && attrs.token.inputs.from == attrs.from && attrs.token.inputs.to == attrs.to && attrs.token.inputs.rate == attrs.rate
  }

  /** The token's hash is that of the listing's size and total current price. */
  predicate StateServes(token: PreviewToken, live: Listing) {
    token.Signed? && token.inputs.stateHash == StateHash(|live|, TotalCurrent(Present(live)))
  }

  ghost predicate Restoring(restores: seq<Option<RestoreStatus>>) {
    exists r :: Some(r) in restores && (r.RestorePending? || r.RestoreRunning?)
  }

  lemma RestoringInPlainWords(restores: seq<Option<RestoreStatus>>)
    ensures RestoreBusy(restores) <==> Restoring(restores)
  {
    if RestoreBusy(restores) {
      var i :| 0 <= i < |restores| && restores[i].Some? && !restores[i].value.RestoreFinished?;
      assert Some(restores[i].value) in restores;
    }
    if Restoring(restores) {
      var r :| Some(r) in restores && (r.RestorePending? || r.RestoreRunning?);
      var i :| 0 <= i < |restores| && restores[i] == Some(r);
      assert restores[i].Some? && !restores[i].value.RestoreFinished?;
    }
  }

  /** Which start succeeds, what it stores, and which of its guards each refusal stands for. */
  lemma StartAnswersExactly(b: Books, codes: set<Currency>, group: Group, attrs: Attributes, live: Listing, restores: seq<Option<RestoreStatus>>)
    ensures var (t, resp) := StartOutcome(b, codes, group, attrs, live, restores);
      var terms := TermsServe(codes, group, attrs.from, attrs.to, attrs.rate);
      var valid := terms && attrs.token.Signed? && b.now <= attrs.token.inputs.expiresAt;
      var bound := valid && TokenIsBound(group, attrs) && StateServes(attrs.token, live);
      var free := bound && !Busy(b, group.id) && !Restoring(restores);
      && (resp.Started? <==> free && |CompletedToday(b, group.id)| < 2)
      && (resp.Started? ==>
            && resp.id == |b.items| && t.now == b.now && t.locks == b.locks[group.id := |b.items|]
            && t.items == b.items + [Migration(group.id, attrs.from, attrs.to, attrs.rate, Pending, None)])
      && (!resp.Started? ==> t == b)
      && (resp == Rejected(TokenInvalid) <==> terms && !attrs.token.Signed?)
      && (resp == Rejected(PreviewExpired) <==> terms && attrs.token.Signed? && attrs.token.inputs.expiresAt < b.now)
      && (resp == Rejected(StateChanged) <==> valid && !bound)
      && (resp == Rejected(InProgress) <==> bound && Busy(b, group.id))
      && (resp == Rejected(RestoreInProgress) <==> bound && !Busy(b, group.id) && Restoring(restores))
      && (resp.Rejected? && resp.code.DailyCapReached? <==> free && 2 <= |CompletedToday(b, group.id)|)
  {
    BooksInPlainWords(b, group.id);
    RestoringInPlainWords(restores);
    CurrentTotal(live);
  }

  // ---- preview, then start ----

  /**
   Exactly when a start with a preview's token succeeds, whatever group and terms it names:
   they are the preview's group and terms, the group's currency is still the source, it comes
   within ten minutes, with the same number of commodities and the same total current price as
   at the preview, nothing in flight or restoring and fewer than two completions today.
   */
  lemma PreviewedMigrationStarts(at: Instant, codes: set<Currency>, group: Group, from: Currency, to: Currency, rate: real, previewed: Listing,
                                 b: Books, group': Group, attrs: Attributes, live: Listing, restores: seq<Option<RestoreStatus>>)
    requires PreviewOutcome(at, codes, group, from, to, rate, previewed).Previewed?
    requires attrs.token == PreviewOutcome(at, codes, group, from, to, rate, previewed).token
    ensures StartOutcome(b, codes, group', attrs, live, restores).1.Started? <==>
        && group'.id == group.id && group'.currency == from
        && attrs.from == from && attrs.to == to && attrs.rate == rate
        && b.now <= at + 10 * 60 * 1_000_000_000
        && |live| == |previewed| && TotalCurrent(Present(live)) == TotalCurrent(Present(previewed))
        && !Busy(b, group.id)
        && !Restoring(restores)
        && |CompletedToday(b, group.id)| < 2
  {
    PreviewsExactly(at, codes, group, from, to, rate, previewed);
    StartAnswersExactly(b, codes, group', attrs, live, restores);
  }

  /** A preview is given exactly for terms that serve, and signs them. */
  lemma PreviewsExactly(at: Instant, codes: set<Currency>, group: Group, from: Currency, to: Currency, rate: real, list: Listing)
    ensures var resp := PreviewOutcome(at, codes, group, from, to, rate, list);
      && (resp.Previewed? <==> TermsServe(codes, group, from, to, rate))
      && (resp.Previewed? ==>
            resp.token == Signed(PreviewInputs(group.id, from, to, rate, StateHash(|list|, TotalCurrent(Present(list))),
                                               at + 10 * 60 * 1_000_000_000)))
  {
    CurrentTotal(list);
  }

  /** A group whose commodities are as previewed is never refused for a changed state, in whatever order they are listed. */
  lemma UntouchedGroupIsNotRefused(at: Instant, codes: set<Currency>, group: Group, from: Currency, to: Currency, rate: real, previewed: Listing,
                                   b: Books, live: Listing, restores: seq<Option<RestoreStatus>>)
    requires PreviewOutcome(at, codes, group, from, to, rate, previewed).Previewed?
    requires multiset(live) == multiset(previewed)
    ensures var token := PreviewOutcome(at, codes, group, from, to, rate, previewed).token;
      StartOutcome(b, codes, group, Attributes(from, to, rate, token), live, restores).1 != Rejected(StateChanged)
  {
    UntouchedGroupMatches(previewed, live, from, to, rate);
  }

  /** A started migration is the one in flight; its id is in the lock column, and the next start is refused. */
  lemma StartedBlocksTheNext(b: Books, codes: set<Currency>, group: Group, attrs: Attributes, live: Listing,
                             restores: seq<Option<RestoreStatus>>, restores': seq<Option<RestoreStatus>>)
    requires StartOutcome(b, codes, group, attrs, live, restores).1.Started?
    ensures var (t, resp) := StartOutcome(b, codes, group, attrs, live, restores);
      && resp.id < |t.items| && Matches(t.items[resp.id], InFlightOf(group.id))
      && Count(t.items, InFlightOf(group.id)) == 1
      && group.id in t.locks && t.locks[group.id] == resp.id
      && BusyProblem(t, group.id, restores') == Some(InProgress)
  {
    CountAppend(b.items, NewMigration(group.id, attrs), InFlightOf(group.id));
  }

  // ---- runs ----

  /**
   Time passes; starts are handled, at once or in two steps, checks and insert, with anything
   in between; the worker claims, completes or fails a migration at any moment.
   */
  datatype Event =
    | Tick(d: nat)
    | HandleStart(codes: set<Currency>, group: Group, attrs: Attributes, live: Listing, restores: seq<Option<RestoreStatus>>)
    | Check(k: nat, codes: set<Currency>, group: Group, attrs: Attributes, live: Listing, restores: seq<Option<RestoreStatus>>)
    | Insert(k: nat)
    | Claim(i: nat)
    | Complete(i: nat)
    | Fail(i: nat)

  /** The books, and the rows of the starts that have passed their checks and not inserted yet. */
  datatype Desk = Desk(books: Books, passed: map<nat, Migration>)

  function WithStatus(b: Books, i: nat, m: Migration): Books
    requires i < |b.items|
  {
    b.(items := b.items[i := m])
  }

  /** The insert of a start, which asks again only whether a migration is in flight. */
  function Inserted(b: Books, m: Migration): Books {
    if InFlight(b.items, m.group) then b else b.(items := b.items + [m], locks := b.locks[m.group := |b.items|])
  }

  function Worked(b: Books, e: Event): Books {
    match e
    case Claim(i) => if i < |b.items| && b.items[i].status.Pending? then WithStatus(b, i, b.items[i].(status := Running)) else b
    case Complete(i) =>
      if i < |b.items| && b.items[i].status.Running? then WithStatus(b, i, b.items[i].(status := Completed, completedAt := Some(b.now))) else b
    case Fail(i) =>
      if i < |b.items| && IsInFlight(b.items[i]) then WithStatus(b, i, b.items[i].(status := Failed, completedAt := Some(b.now))) else b
    case _ => b
  }

  function Happen(d: Desk, e: Event): Desk {
    match e
    case Tick(dt) => d.(books := d.books.(now := d.books.now + dt))
    case HandleStart(codes, group, attrs, live, restores) => d.(books := StartOutcome(d.books, codes, group, attrs, live, restores).0)
    case Check(k, codes, group, attrs, live, restores) =>
      if k !in d.passed && StartOutcome(d.books, codes, group, attrs, live, restores).1.Started?
      then d.(passed := d.passed[k := NewMigration(group.id, attrs)]) else d
    case Insert(k) => if k in d.passed then Desk(Inserted(d.books, d.passed[k]), d.passed - {k}) else d
    case _ => d.(books := Worked(d.books, e))
  }

  ghost function History(d: Desk, events: seq<Event>): Desk
    decreases |events|
  {
    if events == [] then d else History(Happen(d, events[0]), events[1..])
  }

  /** A start handled at once is its checks and its insert with nothing in between. */
  lemma StartIsCheckThenInsert(d: Desk, k: nat, e: Event)
    requires e.HandleStart? && k !in d.passed
    ensures Happen(Happen(d, Check(k, e.codes, e.group, e.attrs, e.live, e.restores)), Insert(k)) == Happen(d, e)
  {
    if StartOutcome(d.books, e.codes, e.group, e.attrs, e.live, e.restores).1.Started? {
      assert d.passed[k := NewMigration(e.group.id, e.attrs)] - {k} == d.passed;
    }
  }

  /** Starts that have passed hold pending rows. */
  predicate PassedPending(d: Desk) {
    forall k :: k in d.passed ==> d.passed[k].status.Pending?
  }

  ghost predicate OneInFlight(b: Books) {
    forall g :: Count(b.items, InFlightOf(g)) <= 1
  }

  ghost predicate Capped(b: Books, g: nat) {
    && Count(b.items, InFlightOf(g)) <= 1
    && Count(b.items, CompletedOn(g, UtcDay(b.now))) + Count(b.items, InFlightOf(g)) <= DAILY_CAP
    && (forall day :: Count(b.items, CompletedOn(g, day)) <= DAILY_CAP)
    && (forall day :: UtcDay(b.now) < day ==> Count(b.items, CompletedOn(g, day)) == 0)
  }

  lemma InsertCounts(b: Books, m: Migration, g: nat)
    requires m.status.Pending? && !InFlight(b.items, m.group)
    ensures var t := Inserted(b, m);
      && Count(t.items, InFlightOf(g)) == Count(b.items, InFlightOf(g)) + (if m.group == g then 1 else 0)
      && forall day :: Count(t.items, CompletedOn(g, day)) == Count(b.items, CompletedOn(g, day))
  {
    CountAppend(b.items, m, InFlightOf(g));
    forall day ensures Count(b.items + [m], CompletedOn(g, day)) == Count(b.items, CompletedOn(g, day)) {
      CountAppend(b.items, m, CompletedOn(g, day));
    }
  }

  lemma WorkKeepsOneInFlight(b: Books, e: Event)
    requires OneInFlight(b)
    ensures OneInFlight(Worked(b, e))
  {
    var t := Worked(b, e);
    if t.items != b.items {
      forall g ensures Count(t.items, InFlightOf(g)) <= 1 {
        CountUpdate(b.items, e.i, t.items[e.i], InFlightOf(g));
      }
    }
  }

  lemma InsertKeepsOneInFlight(b: Books, m: Migration)
    requires OneInFlight(b) && m.status.Pending?
    ensures OneInFlight(Inserted(b, m))
  {
    if !InFlight(b.items, m.group) {
      forall g ensures Count(Inserted(b, m).items, InFlightOf(g)) <= 1 {
        InsertCounts(b, m, g);
      }
    }
  }

  lemma StartInserts(b: Books, e: Event)
    requires e.HandleStart?
    ensures var m := NewMigration(e.group.id, e.attrs);
      var (t, resp) := StartOutcome(b, e.codes, e.group, e.attrs, e.live, e.restores);
      if resp.Started?
      then t == Inserted(b, m) && !InFlight(b.items, m.group) && Count(b.items, CompletedOn(m.group, UtcDay(b.now))) < DAILY_CAP
      else t == b
  {
  }

  lemma EventKeepsOneInFlight(d: Desk, e: Event)
    requires OneInFlight(d.books) && PassedPending(d)
    ensures OneInFlight(Happen(d, e).books) && PassedPending(Happen(d, e))
  {
    match e
    case HandleStart(_, group, attrs, _, _) =>
      StartInserts(d.books, e);
      InsertKeepsOneInFlight(d.books, NewMigration(group.id, attrs));
    case Insert(k) => if k in d.passed { InsertKeepsOneInFlight(d.books, d.passed[k]); }
    case Tick(_) =>
    case Check(_, _, _, _, _, _) =>
    case _ => WorkKeepsOneInFlight(d.books, e);
  }

  lemma {:induction false} HistoryKeepsOneInFlight(d: Desk, events: seq<Event>)
    requires OneInFlight(d.books) && PassedPending(d)
    ensures OneInFlight(History(d, events).books)
    decreases |events|
  {
    if events != [] {
      EventKeepsOneInFlight(d, events[0]);
      HistoryKeepsOneInFlight(Happen(d, events[0]), events[1..]);
    }
  }

  /** No migrations, no locks, no starts under way. */
  function EmptyDesk(now: Instant): Desk {
    Desk(Books(now, [], map[]), map[])
  }

  lemma EmptyBooksAreCapped(now: Instant, g: nat)
    ensures Capped(EmptyDesk(now).books, g) && OneInFlight(EmptyDesk(now).books) && PassedPending(EmptyDesk(now))
  {
  }

  /** From empty books, under any interleaving of starts, at most one migration per group is pending or running. */
  lemma AtMostOneInFlight(now: Instant, events: seq<Event>, g: nat)
    ensures Count(History(EmptyDesk(now), events).books.items, InFlightOf(g)) <= 1
  {
    EmptyBooksAreCapped(now, g);
    HistoryKeepsOneInFlight(EmptyDesk(now), events);
  }

  // ---- the daily cap ----

  lemma LaterDay(s: Instant, t: Instant)
    requires s <= t
    ensures UtcDay(s) <= UtcDay(t)
  {
  }

  lemma UpdateKeepsCap(b: Books, g: nat, i: nat, m: Migration)
    requires Capped(b, g) && i < |b.items| && IsInFlight(b.items[i]) && m.group == b.items[i].group
    requires IsInFlight(m) || m.completedAt == Some(b.now)
    ensures Capped(WithStatus(b, i, m), g)
  {
    var t := WithStatus(b, i, m);
    CountUpdate(b.items, i, m, InFlightOf(g));
    forall day ensures Count(t.items, CompletedOn(g, day)) ==
        Count(b.items, CompletedOn(g, day)) + if Matches(m, CompletedOn(g, day)) then 1 else 0
    {
      CountUpdate(b.items, i, m, CompletedOn(g, day));
    }
  }

  lemma WorkKeepsCap(b: Books, g: nat, e: Event)
    requires Capped(b, g)
    ensures Capped(Worked(b, e), g)
  {
    match e
    case Claim(i) =>
      if i < |b.items| && b.items[i].status.Pending? { UpdateKeepsCap(b, g, i, b.items[i].(status := Running)); }
    case Complete(i) =>
      if i < |b.items| && b.items[i].status.Running? {
        UpdateKeepsCap(b, g, i, b.items[i].(status := Completed, completedAt := Some(b.now)));
      }
    case Fail(i) =>
      if i < |b.items| && IsInFlight(b.items[i]) {
        UpdateKeepsCap(b, g, i, b.items[i].(status := Failed, completedAt := Some(b.now)));
      }
    case _ =>
  }

  /** One insert keeps the cap exactly if it is another group's, loses the race, or finds the cap still not reached. */
  lemma InsertKeepsCapExactly(b: Books, g: nat, m: Migration)
    requires Capped(b, g) && m.status.Pending?
    ensures Capped(Inserted(b, m), g) <==>
      m.group != g || InFlight(b.items, g) || Count(b.items, CompletedOn(g, UtcDay(b.now))) < DAILY_CAP
  {
    if !InFlight(b.items, m.group) {
      InsertCounts(b, m, g);
    }
  }

  /** What the insert of an interleaved start would have to ask again. */
  predicate InsertIsGuarded(d: Desk, e: Event, g: nat) {
    e.Insert? && e.k in d.passed ==>
      d.passed[e.k].group != g || InFlight(d.books.items, g) || Count(d.books.items, CompletedOn(g, UtcDay(d.books.now))) < DAILY_CAP
  }

  /** Every event but an insert keeps the cap, and an insert does exactly if it is guarded. */
  lemma EventKeepsCapExactly(d: Desk, g: nat, e: Event)
    requires Capped(d.books, g) && PassedPending(d)
    ensures PassedPending(Happen(d, e)) && (Capped(Happen(d, e).books, g) <==> InsertIsGuarded(d, e, g))
  {
    match e
    case Tick(dt) => LaterDay(d.books.now, d.books.now + dt);
    case HandleStart(_, group, attrs, _, _) =>
      StartInserts(d.books, e);
      InsertKeepsCapExactly(d.books, g, NewMigration(group.id, attrs));
    case Check(_, _, _, _, _, _) =>
    case Insert(k) => if k in d.passed { InsertKeepsCapExactly(d.books, g, d.passed[k]); }
    case _ => WorkKeepsCap(d.books, g, e);
  }

  /** The cap holds at every point of the history. */
  ghost predicate CappedThroughout(d: Desk, events: seq<Event>, g: nat) {
    forall n :: 0 <= n <= |events| ==> Capped(History(d, events[..n]).books, g)
  }

  /** Every insert of an interleaved start is guarded when it comes. */
  ghost predicate GuardedThroughout(d: Desk, events: seq<Event>, g: nat) {
    forall n :: 0 <= n < |events| ==> InsertIsGuarded(History(d, events[..n]), events[n], g)
  }

  lemma HistoryShifts(d: Desk, events: seq<Event>, n: nat)
    requires events != [] && n < |events|
    ensures History(d, events[..n + 1]) == History(Happen(d, events[0]), events[1..][..n])
  {
    assert events[..n + 1][1..] == events[1..][..n];
  }

  /**
   With any interleaving of starts and an arbitrary worker: today's completions plus the one
   in flight never exceed two, at any point, exactly if every interleaved insert comes while
   the cap is not reached, loses to a migration in flight, or is another group's.
   */
  lemma {:induction false} CapHoldsExactly(d: Desk, events: seq<Event>, g: nat)
    requires Capped(d.books, g) && PassedPending(d)
    ensures CappedThroughout(d, events, g) <==> GuardedThroughout(d, events, g)
    decreases |events|
  {
    assert events[..0] == [];
    if events == [] {
      assert forall n :: 0 <= n <= |events| ==> events[..n] == [];
    } else {
      var t, rest := Happen(d, events[0]), events[1..];
      EventKeepsCapExactly(d, g, events[0]);
      forall n: nat | n < |events| ensures History(d, events[..n + 1]) == History(t, rest[..n]) {
        HistoryShifts(d, events, n);
      }
      if Capped(t.books, g) {
        CapHoldsExactly(t, rest, g);
        CapShifts(d, events, g);
      } else {
        assert rest[..0] == [];
        assert History(d, events[..1]) == t;
      }
    }
  }

  /** Over a history, the first event and the rest. */
  lemma CapShifts(d: Desk, events: seq<Event>, g: nat)
    requires events != [] && Capped(d.books, g)
    requires forall n: nat | n < |events| :: History(d, events[..n + 1]) == History(Happen(d, events[0]), events[1..][..n])
    ensures CappedThroughout(d, events, g) <==> CappedThroughout(Happen(d, events[0]), events[1..], g)
    ensures GuardedThroughout(d, events, g) <==>
      InsertIsGuarded(d, events[0], g) && GuardedThroughout(Happen(d, events[0]), events[1..], g)
  {
    var t, rest := Happen(d, events[0]), events[1..];
    assert events[..0] == [];
    if CappedThroughout(d, events, g) {
      forall n | 0 <= n <= |rest| ensures Capped(History(t, rest[..n]).books, g) {
        assert Capped(History(d, events[..n + 1]).books, g);
      }
    }
    if CappedThroughout(t, rest, g) {
      forall n | 0 <= n <= |events| ensures Capped(History(d, events[..n]).books, g) {
        if n > 0 {
          assert History(d, events[..(n - 1) + 1]) == History(t, rest[..n - 1]);
        }
      }
    }
    if GuardedThroughout(d, events, g) {
      assert InsertIsGuarded(History(d, events[..0]), events[0], g);
      forall n | 0 <= n < |rest| ensures InsertIsGuarded(History(t, rest[..n]), rest[n], g) {
        assert InsertIsGuarded(History(d, events[..n + 1]), events[n + 1], g);
      }
    }
    if InsertIsGuarded(d, events[0], g) && GuardedThroughout(t, rest, g) {
      forall n | 0 <= n < |events| ensures InsertIsGuarded(History(d, events[..n]), events[n], g) {
        if n > 0 {
          assert History(d, events[..(n - 1) + 1]) == History(t, rest[..n - 1]);
          assert InsertIsGuarded(History(t, rest[..n - 1]), rest[n - 1], g);
        }
      }
    }
  }

  /** Starts are handled one at a time: no interleaved insert. */
  predicate Atomic(events: seq<Event>) {
    forall i :: 0 <= i < |events| ==> !events[i].Insert?
  }

  /**
   From empty books, with starts handled one at a time and an arbitrary worker: on every UTC
   day at most two migrations of a group complete, and today's completions plus the one in
   flight never exceed two.
   */
  lemma DailyCapHolds(now: Instant, g: nat, events: seq<Event>)
    requires Atomic(events)
    ensures CappedThroughout(EmptyDesk(now), events, g)
  {
    EmptyBooksAreCapped(now, g);
    CapHoldsExactly(EmptyDesk(now), events, g);
  }

  // ---- three in one day ----

  /** An insert that wins, and the worker's whole job on it. */
  function Cycle(k: nat, i: nat): seq<Event> {
    [Insert(k), Claim(i), Complete(i)]
  }

  function Done(m: Migration, at: Instant): Migration {
    m.(status := Completed, completedAt := Some(at))
  }

  lemma HistoryOfThree(d: Desk, a: Event, b: Event, c: Event, rest: seq<Event>)
    ensures History(d, [a, b, c] + rest) == History(Happen(Happen(Happen(d, a), b), c), rest)
  {
    var all := [a, b, c] + rest;
    assert all[1..] == [b, c] + rest;
    assert ([b, c] + rest)[1..] == [c] + rest;
    assert ([c] + rest)[1..] == rest;
    var d1 := Happen(d, a);
    var d2 := Happen(d1, b);
    assert History(d, all) == History(d1, [b, c] + rest);
    assert History(d1, [b, c] + rest) == History(d2, [c] + rest);
  }

  lemma CycleCompletes(d: Desk, k: nat, rest: seq<Event>)
    requires k in d.passed && d.passed[k].status.Pending? && !InFlight(d.books.items, d.passed[k].group)
    ensures var m := d.passed[k]; var n := |d.books.items|;
      var books := d.books.(items := d.books.items + [Done(m, d.books.now)], locks := d.books.locks[m.group := n]);
      History(d, Cycle(k, n) + rest) == History(Desk(books, d.passed - {k}), rest)
  {
    var m, n := d.passed[k], |d.books.items|;
    var inserted := Happen(d, Insert(k));
    assert inserted.books.items == d.books.items + [m];
    var claimed := Happen(inserted, Claim(n));
    assert claimed.books.items == d.books.items + [m.(status := Running)];
    var completed := Happen(claimed, Complete(n));
    assert completed.books.items == d.books.items + [Done(m, d.books.now)];
    HistoryOfThree(d, Insert(k), Claim(n), Complete(n), rest);
  }

  const EUROS := Group(0, "EUR")

  /** A start on the terms of a preview of the empty group. */
  const TO_DOLLARS := Attributes("EUR", "USD", 1.0, Signed(PreviewInputs(0, "EUR", "USD", 1.0, StateHash(0, 0.0), 0)))

  function CheckOf(k: nat): Event {
    Check(k, {"EUR", "USD"}, EUROS, TO_DOLLARS, [], [])
  }

  /** Three starts pass their checks before any of them inserts; then each inserts and is completed in turn. */
  function Overrun(): seq<Event> {
    [CheckOf(0), CheckOf(1), CheckOf(2)] + (Cycle(0, 0) + (Cycle(1, 1) + (Cycle(2, 2) + [])))
  }

  lemma ThreePass(rest: seq<Event>)
    ensures var m := NewMigration(0, TO_DOLLARS);
      History(EmptyDesk(0), [CheckOf(0), CheckOf(1), CheckOf(2)] + rest) ==
      History(Desk(EmptyDesk(0).books, map[0 := m, 1 := m, 2 := m]), rest)
  {
    var d, m := EmptyDesk(0), NewMigration(0, TO_DOLLARS);
    assert SumCurrent([]) == 0.0;
    assert StartOutcome(d.books, {"EUR", "USD"}, EUROS, TO_DOLLARS, [], []).1.Started?;
    assert Happen(d, CheckOf(0)) == Desk(d.books, map[0 := m]);
    assert Happen(Desk(d.books, map[0 := m]), CheckOf(1)) == Desk(d.books, map[0 := m, 1 := m]);
    assert Happen(Desk(d.books, map[0 := m, 1 := m]), CheckOf(2)) == Desk(d.books, map[0 := m, 1 := m, 2 := m]);
    HistoryOfThree(d, CheckOf(0), CheckOf(1), CheckOf(2), rest);
  }

  lemma ThreeCycles(m: Migration)
    requires m == NewMigration(0, TO_DOLLARS)
    ensures var done := Done(m, 0);
      History(Desk(Books(0, [], map[]), map[0 := m, 1 := m, 2 := m]), Cycle(0, 0) + (Cycle(1, 1) + (Cycle(2, 2) + []))).books.items
        == [done, done, done]
  {
    var done := Done(m, 0);
    CountUpToThree(done, done, done, InFlightOf(0));
    var none := Desk(Books(0, [], map[]), map[0 := m, 1 := m, 2 := m]);
    CycleCompletes(none, 0, Cycle(1, 1) + (Cycle(2, 2) + []));
    var one := Desk(Books(0, [done], map[0 := 0]), map[1 := m, 2 := m]);
    assert none.passed - {0} == one.passed && [] + [done] == [done] && map[][0 := 0] == map[0 := 0];
    CycleCompletes(one, 1, Cycle(2, 2) + []);
    var two := Desk(Books(0, [done, done], map[0 := 1]), map[2 := m]);
    assert one.passed - {1} == two.passed && [done] + [done] == [done, done] && map[0 := 0][0 := 1] == map[0 := 1];
    CycleCompletes(two, 2, []);
    assert [done, done] + [done] == [done, done, done];
  }

  /** Why starts must be atomic: from empty books, three migrations of one group complete on one day. */
  lemma InterleavedStartsBreakTheCap()
    ensures Count(History(EmptyDesk(0), Overrun()).books.items, CompletedOn(0, 0)) == 3
    ensures !CappedThroughout(EmptyDesk(0), Overrun(), 0)
  {
    var m := NewMigration(0, TO_DOLLARS);
    var done := Done(m, 0);
    ThreePass(Cycle(0, 0) + (Cycle(1, 1) + (Cycle(2, 2) + [])));
    ThreeCycles(m);
    CountUpToThree(done, done, done, CompletedOn(0, 0));
    assert Overrun()[..|Overrun()|] == Overrun();
  }

  lemma CountUpToThree(x: Migration, y: Migration, z: Migration, q: Query)
    ensures Count([x], q) == (if Matches(x, q) then 1 else 0)
    ensures Count([x, y], q) == (if Matches(x, q) then 1 else 0) + (if Matches(y, q) then 1 else 0)
    ensures Count([x, y, z], q) == (if Matches(x, q) then 1 else 0) + (if Matches(y, q) then 1 else 0) + (if Matches(z, q) then 1 else 0)
  {
    assert [] + [x] == [x];
    CountAppend([], x, q);
    assert [x] + [y] == [x, y];
    CountAppend([x], y, q);
    assert [x, y] + [z] == [x, y, z];
    CountAppend([x, y], z, q);
  }

  /** Waiting out the hint lifts the cap; one second less does not. */
  lemma HintLiftsTheCap(b: Books, g: nat, restores: seq<Option<RestoreStatus>>)
    requires Capped(b, g) && BusyProblem(b, g, restores).Some? && BusyProblem(b, g, restores).value.DailyCapReached?
    ensures var h := BusyProblem(b, g, restores).value.retryAfterSeconds;
      && 1 <= h <= 86_400
      && BusyProblem(b.(now := b.now + h * SECOND), g, restores).None?
      && var early := BusyProblem(b.(now := b.now + (h - 1) * SECOND), g, restores);
         early.Some? && early.value.DailyCapReached?
  {
    HintIsLeast(b.now);
  }
}
