/**
 What no schedule takes back. A promise is a fact some call establishes; it is shown to
 survive every lawful call, hence every interleaving of any number of handlers, and to
 imply the refusal its name says.
 */
module Schedules {
  import opened Basics
  import opened Model
  import opened Tokens
  import opened Registries

  datatype Promise =
    | RowStaysRevoked(id: nat)
    | RowIs(id: nat, owner: Principal, hash: Hash)
    | CutoffAt(p: Principal, at: Instant)
    | TokenStaysRevoked(jti: nat)
    | LinkStaysBurnt(link: nat)
    | StepStaysUsed(incarnation: nat, step: int)
    | FactorStaysSpent(f: Factor)
    | TokenIsSigned(id: nat, token: Token)
    | ClockPast(at: Instant)
    | SignedSince(n: nat, at: Instant)
    | NeverSignedAs(id: nat)

  ghost predicate Holds(s: System, promise: Promise) {
    match promise
    case RowStaysRevoked(id) =>
      id < s.next && (id in s.rows ==> s.rows[id].revoked)
    case RowIs(id, owner, hash) =>
      && id < s.next && hash.raw < s.next
      && (id in s.rows ==> s.rows[id].owner == owner && s.rows[id].hash == hash)
      && (forall k :: k in s.rows && s.rows[k].hash == hash ==> k == id)
    case CutoffAt(p, at) =>
      at <= s.now &&
      (s.now <= at + BLACKLIST_RING ==>
         p in s.cutoffs && Unix(at) <= s.cutoffs[p].since && at + BLACKLIST_RING <= s.cutoffs[p].until)
    case TokenStaysRevoked(jti) =>
      jti in s.minted &&
      var end := s.minted[jti].claims.exp * SECOND;
      end <= s.now || (jti in s.revoked && end <= s.revoked[jti])
    case LinkStaysBurnt(link) =>
      link < s.next && (link in s.links ==> s.links[link].claimed)
    case StepStaysUsed(incarnation, step) =>
      incarnation < s.next && forall p :: p in s.mfa && s.mfa[p].incarnation == incarnation ==> step <= s.mfa[p].lastStep
    case FactorStaysSpent(f) => f in s.spent
    case TokenIsSigned(id, token) => id in s.minted && s.minted[id] == token
    case ClockPast(at) => at <= s.now
    case SignedSince(n, at) => n <= s.next && at <= s.now && forall j :: j in s.minted && n <= j ==> at <= s.minted[j].at
    case NeverSignedAs(id) => id < s.next && id !in s.minted
  }

  lemma RowKept(s: System, c: Call, id: nat)
    requires Holds(s, RowStaysRevoked(id))
    ensures Holds(Apply(s, c), RowStaysRevoked(id))
  {
  }

  lemma IdentityKept(s: System, c: Call, id: nat, owner: Principal, hash: Hash)
    requires Holds(s, RowIs(id, owner, hash))
    ensures Holds(Apply(s, c), RowIs(id, owner, hash))
  {
    CallLeaves(s, c);
  }

  lemma CutoffKept(s: System, c: Call, p: Principal, at: Instant)
    requires Holds(s, CutoffAt(p, at))
    ensures Holds(Apply(s, c), CutoffAt(p, at))
  {
    CallLeaves(s, c);
    if c.CBlacklistUser? {
      assert Apply(s, c) == BlacklistUserTokens(s, c.owner);
    }
  }

  lemma TokenKept(s: System, c: Call, jti: nat)
    requires TokensSound(s) && Lawful(s, c) && Holds(s, TokenStaysRevoked(jti))
    ensures Holds(Apply(s, c), TokenStaysRevoked(jti))
  {
    SignatureKept(s, c, jti);
    CallLeaves(s, c);
    if c.CBlacklistToken? {
      assert Apply(s, c) == BlacklistToken(s, c.jti, c.until);
    }
  }

  lemma SignatureKept(s: System, c: Call, id: nat)
    requires TokensSound(s) && id in s.minted
    ensures id in Apply(s, c).minted && Apply(s, c).minted[id] == s.minted[id]
  {
    assert TokenSound(s, id);
    CallLeaves(s, c);
    if c.CMint? {
      assert Apply(s, c) == Mint(s, c.grant);
    }
  }

  lemma SigningKept(s: System, c: Call, promise: Promise)
    requires (promise.SignedSince? || promise.NeverSignedAs?) && Holds(s, promise)
    ensures Holds(Apply(s, c), promise)
  {
    CallLeaves(s, c);
    if c.CMint? {
      assert Apply(s, c) == Mint(s, c.grant);
    }
  }

  lemma LinkKept(s: System, c: Call, link: nat)
    requires Holds(s, LinkStaysBurnt(link))
    ensures Holds(Apply(s, c), LinkStaysBurnt(link))
  {
    CallLeaves(s, c);
  }

  lemma StepKept(s: System, c: Call, incarnation: nat, step: int)
    requires Holds(s, StepStaysUsed(incarnation, step))
    ensures Holds(Apply(s, c), StepStaysUsed(incarnation, step))
  {
    CallLeaves(s, c);
  }

  lemma CallKeepsPromise(s: System, c: Call, promise: Promise)
    requires WellFormed(s) && Lawful(s, c) && Holds(s, promise)
    ensures Holds(Apply(s, c), promise)
  {
    match promise
    case RowStaysRevoked(id) => RowKept(s, c, id);
    case RowIs(id, owner, hash) => IdentityKept(s, c, id, owner, hash);
    case CutoffAt(p, at) => CutoffKept(s, c, p, at);
    case TokenStaysRevoked(jti) => TokenKept(s, c, jti);
    case LinkStaysBurnt(link) => LinkKept(s, c, link);
    case StepStaysUsed(incarnation, step) => StepKept(s, c, incarnation, step);
    case FactorStaysSpent(f) =>
    case TokenIsSigned(id, token) => SignatureKept(s, c, id);
    case ClockPast(at) =>
    case SignedSince(n, at) => SigningKept(s, c, promise);
    case NeverSignedAs(id) => SigningKept(s, c, promise);
  }

  lemma {:induction false} CallsKeepPromise(states: seq<System>, calls: seq<Call>, i: nat, promise: Promise)
    requires IsSchedule(states, calls) && i <= |calls| && WellFormed(states[0]) && Holds(states[0], promise)
    ensures WellFormed(states[i]) && Holds(states[i], promise)
  {
    if i > 0 {
      CallsKeepPromise(states, calls, i - 1, promise);
      assert Lawful(states[i - 1], calls[i - 1]);
      CallKeepsWellFormed(states[i - 1], calls[i - 1]);
      CallKeepsPromise(states[i - 1], calls[i - 1], promise);
    }
  }

  /** Every schedule keeps every promise, and the invariant. */
  lemma PromiseKept(s: System, t: System, promise: Promise)
    requires WellFormed(s) && Reaches(s, t) && Holds(s, promise)
    ensures WellFormed(t) && Holds(t, promise)
  {
    var states, calls :| IsSchedule(states, calls) && states[0] == s && states[|calls|] == t;
    CallsKeepPromise(states, calls, |calls|, promise);
  }

  lemma StaysWellFormed(s: System, t: System)
    requires WellFormed(s) && Reaches(s, t)
    ensures WellFormed(t)
  {
    PromiseKept(s, t, ClockPast(0));
  }

  /** Lawfulness reads signed tokens only. */
  lemma LawfulReadsTokens(s: System, t: System, c: Call)
    requires Lawful(s, c) && forall j :: j in s.minted ==> j in t.minted && t.minted[j] == s.minted[j]
    ensures Lawful(t, c)
  {
  }

  /** A call a handler decided on stays lawful whatever other call gets in first. */
  lemma LawfulStaysLawful(s: System, c: Call, other: Call)
    requires WellFormed(s) && Lawful(s, c) && Lawful(s, other)
    ensures Lawful(Apply(s, other), c)
  {
    forall j | j in s.minted ensures j in Apply(s, other).minted && Apply(s, other).minted[j] == s.minted[j] {
      SignatureKept(s, other, j);
    }
    LawfulReadsTokens(s, Apply(s, other), c);
  }
}
