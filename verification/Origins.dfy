/** go/apiserver/cors_config.go: parsing the list of allowed origins. */
module Origins {
  import opened Basics
  import opened Deduplication

  datatype OriginError = Unsafe(origin: string) | Malformed(origin: string)

  datatype Parsed = Origins(list: seq<string>) | Rejected(error: OriginError)

  // ---- strings ----

  /** unicode.IsSpace. */
  predicate IsSpace(c: char) {
    var n := c as int;
    || 0x09 <= n <= 0x0D || n == 0x20 || n == 0x85 || n == 0xA0 || n == 0x1680
    || 0x2000 <= n <= 0x200A || n == 0x2028 || n == 0x2029 || n == 0x202F || n == 0x205F || n == 0x3000
  }

  predicate IsTrimmed(s: string) {
    s == "" || (!IsSpace(s[0]) && !IsSpace(s[|s| - 1]))
  }

  function TrimLeft(s: string): (r: string)
    ensures r == "" || !IsSpace(r[0])
    ensures forall c :: c in r ==> c in s
    ensures s == "" || !IsSpace(s[0]) ==> r == s
  {
    if s == "" || !IsSpace(s[0]) then s else TrimLeft(s[1..])
  }

  function TrimRight(s: string): (r: string)
    ensures r == "" || !IsSpace(r[|r| - 1])
    ensures r <= s
    ensures s == "" || !IsSpace(s[|s| - 1]) ==> r == s
  {
    if s == "" || !IsSpace(s[|s| - 1]) then s else TrimRight(s[..|s| - 1])
  }

  function TrimSpace(s: string): (r: string)
    ensures IsTrimmed(r)
    ensures forall c :: c in r ==> c in s
    ensures IsTrimmed(s) ==> r == s
  {
    TrimRight(TrimLeft(s))
  }

  predicate AllSpaces(s: string) {
    forall c :: c in s ==> IsSpace(c)
  }

  lemma {:induction false} TrimLeftDropsSpaces(s: string)
    ensures exists a :: s == a + TrimLeft(s) && AllSpaces(a)
    decreases |s|
  {
    if s == "" || !IsSpace(s[0]) {
      assert s == "" + TrimLeft(s);
    } else {
      TrimLeftDropsSpaces(s[1..]);
      var a :| s[1..] == a + TrimLeft(s[1..]) && AllSpaces(a);
      assert s == ([s[0]] + a) + TrimLeft(s);
    }
  }

  lemma {:induction false} TrimRightDropsSpaces(s: string)
    ensures exists b :: s == TrimRight(s) + b && AllSpaces(b)
    decreases |s|
  {
    if s == "" || !IsSpace(s[|s| - 1]) {
      assert s == TrimRight(s) + "";
    } else {
      var front, last := s[..|s| - 1], s[|s| - 1];
      TrimRightDropsSpaces(front);
      var b :| front == TrimRight(front) + b && AllSpaces(b);
      assert s == TrimRight(s) + (b + [last]);
    }
  }

  /** The string less the spaces at its two ends, and nothing else. */
  lemma TrimDropsOnlyOuterSpaces(s: string)
    ensures exists a, b :: s == a + TrimSpace(s) + b && AllSpaces(a) && AllSpaces(b)
    ensures TrimSpace(s) == "" || (!IsSpace(TrimSpace(s)[0]) && !IsSpace(TrimSpace(s)[|TrimSpace(s)| - 1]))
  {
    TrimLeftDropsSpaces(s);
    var a :| s == a + TrimLeft(s) && AllSpaces(a);
    TrimRightDropsSpaces(TrimLeft(s));
    var b :| TrimLeft(s) == TrimSpace(s) + b && AllSpaces(b);
    assert s == a + TrimSpace(s) + b;
  }

  /** strings.Split on a comma. */
  function Split(s: string): (parts: seq<string>)
    ensures parts != []
    ensures forall p :: p in parts ==> ',' !in p
  {
    if s == "" then [""]
    else
      var rest := Split(s[1..]);
      if s[0] == ',' then [""] + rest else [[s[0]] + rest[0]] + rest[1..]
  }

  function Join(parts: seq<string>): string {
    if parts == [] then "" else if |parts| == 1 then parts[0] else parts[0] + "," + Join(parts[1..])
  }

  lemma {:induction false} SplitFirst(a: string, s: string)
    requires ',' !in a
    ensures Split(a) == [a]
    ensures Split(a + "," + s) == [a] + Split(s)
    decreases |a|
  {
    if a == "" {
      assert a + "," + s == "," + s;
      assert ("," + s)[1..] == s;
    } else {
      SplitFirst(a[1..], s);
      assert (a + "," + s)[1..] == a[1..] + "," + s;
      assert [a[0]] + a[1..] == a;
      assert ([a[1..]] + Split(s))[1..] == Split(s);
    }
  }

  /** Splitting undoes joining, for parts without commas. */
  lemma {:induction false} SplitOfJoin(parts: seq<string>)
    requires parts != [] && forall p :: p in parts ==> ',' !in p
    ensures Split(Join(parts)) == parts
    decreases |parts|
  {
    if |parts| == 1 {
      SplitFirst(parts[0], "");
    } else {
      SplitFirst(parts[0], Join(parts[1..]));
      SplitOfJoin(parts[1..]);
      assert parts == [parts[0]] + parts[1..];
    }
  }

  // ---- the parser ----

  /** strings.EqualFold with "null": none of its letters has a further case variant. */
  predicate FoldsToNull(s: string) {
    |s| == 4 && (s[0] == 'n' || s[0] == 'N') && (s[1] == 'u' || s[1] == 'U') && (s[2] == 'l' || s[2] == 'L') && (s[3] == 'l' || s[3] == 'L')
  }

  predicate IsUnsafe(origin: string) {
    origin == "*" || FoldsToNull(origin)
  }

  /** What a part contributes: its trimmed form, unless that is empty. */
  function Contributions(parts: seq<string>): (r: seq<string>)
    ensures forall o :: o in r ==> o != "" && IsTrimmed(o)
  {
    if parts == [] then []
    else
      var front, origin := Contributions(parts[..|parts| - 1]), TrimSpace(parts[|parts| - 1]);
      if origin == "" then front else front + [origin]
  }

  lemma {:induction false} ContributionsHaveNoComma(parts: seq<string>)
    requires forall p :: p in parts ==> ',' !in p
    ensures forall o :: o in Contributions(parts) ==> ',' !in o
    decreases |parts|
  {
    if parts != [] {
      ContributionsHaveNoComma(parts[..|parts| - 1]);
      assert parts[|parts| - 1] in parts;
    }
  }

  function Problem(origin: string, ok: string -> bool): Option<OriginError> {
    if IsUnsafe(origin) then Some(Unsafe(origin)) else if !ok(origin) then Some(Malformed(origin)) else None
  }

  function FirstProblem(origins: seq<string>, ok: string -> bool): Option<OriginError> {
    if origins == [] then None
    else
      var earlier := FirstProblem(origins[..|origins| - 1], ok);
      if earlier.Some? then earlier else Problem(origins[|origins| - 1], ok)
  }

  function Candidates(raw: string): seq<string> {
    if TrimSpace(raw) == "" then [] else Contributions(Split(TrimSpace(raw)))
  }

  /** The specification: the first problem rejects everything, otherwise the candidates without repetitions. */
  function ParseResult(raw: string, ok: string -> bool): Parsed {
    var problem := FirstProblem(Candidates(raw), ok);
    if problem.Some? then Rejected(problem.value) else Origins(FirstSeen(Candidates(raw)))
  }

  lemma NextContribution(parts: seq<string>, i: nat, ok: string -> bool)
    requires i < |parts|
    ensures var before, origin := Contributions(parts[..i]), TrimSpace(parts[i]);
      if origin == "" then Contributions(parts[..i + 1]) == before
      else
        && Contributions(parts[..i + 1]) == before + [origin]
        && (FirstProblem(before, ok).None? ==> FirstProblem(before + [origin], ok) == Problem(origin, ok))
  {
    var before, origin := Contributions(parts[..i]), TrimSpace(parts[i]);
    assert parts[..i + 1][..i] == parts[..i];
    assert (before + [origin])[..|before|] == before;
  }

  /** `ok` is validateOrigin: http or https, a host, and nothing after it. */
  method ParseAllowedOrigins(raw: string, ok: string -> bool) returns (result: Parsed)
    ensures result == ParseResult(raw, ok)
  {
    var trimmed := TrimSpace(raw);
    if trimmed == "" {
      return Origins([]);
    }
    var parts := Split(trimmed);
    var origins: seq<string> := [];
    var seen: set<string> := {};
    ghost var candidates: seq<string> := [];
    for i := 0 to |parts|
      invariant candidates == Contributions(parts[..i])
      invariant FirstProblem(candidates, ok).None?
      invariant origins == FirstSeen(candidates)
      invariant seen == Elements(origins)
    {
      var origin := TrimSpace(parts[i]);
      NextContribution(parts, i, ok);
      if origin == "" {
        continue;
      }
      FirstSeenExtends(candidates, origin);
      candidates := candidates + [origin];
      if origin == "*" || FoldsToNull(origin) {
        ProblemStays(parts, i + 1, ok);
        return Rejected(Unsafe(origin));
      }
      if !ok(origin) {
        ProblemStays(parts, i + 1, ok);
        return Rejected(Malformed(origin));
      }
      if origin in seen {
        continue;
      }
      ElementsExtend(origins, origin);
      seen := seen + {origin};
      origins := origins + [origin];
    }
    assert parts[..|parts|] == parts;
    return Origins(origins);
  }

  lemma {:induction false} ProblemStays(parts: seq<string>, n: nat, ok: string -> bool)
    requires n <= |parts| && FirstProblem(Contributions(parts[..n]), ok).Some?
    ensures FirstProblem(Contributions(parts), ok) == FirstProblem(Contributions(parts[..n]), ok)
    decreases |parts| - n
  {
    if n < |parts| {
      var before := Contributions(parts[..n]);
      assert parts[..n + 1][..n] == parts[..n];
      var after := Contributions(parts[..n + 1]);
      assert after == before || after[..|after| - 1] == before;
      ProblemStays(parts, n + 1, ok);
    } else {
      assert parts[..n] == parts;
    }
  }

  // ---- what the parser is for ----

  lemma {:induction false} NoProblemAnywhere(origins: seq<string>, ok: string -> bool)
    ensures FirstProblem(origins, ok).None? <==> forall o :: o in origins ==> !IsUnsafe(o) && ok(o)
    decreases |origins|
  {
    if origins != [] {
      NoProblemAnywhere(origins[..|origins| - 1], ok);
      assert origins == origins[..|origins| - 1] + [origins[|origins| - 1]];
    }
  }

  /**
   Accepted exactly when every candidate is safe and well formed; then the list is the
   candidates, each once, in the order in which they first occur.
   */
  lemma OneBadPartRejectsAll(raw: string, ok: string -> bool)
    ensures ParseResult(raw, ok).Origins? <==> forall o :: o in Candidates(raw) ==> !IsUnsafe(o) && ok(o)
    ensures ParseResult(raw, ok).Origins? ==>
      var list := ParseResult(raw, ok).list;
      && (forall o :: o in list <==> o in Candidates(raw))
      && Distinct(list)
      && InFirstOrder(Candidates(raw), list)
  {
    NoProblemAnywhere(Candidates(raw), ok);
    FirstSeenInOrder(Candidates(raw));
  }

  /** ASCII lower case, which is all the case folding that "null" needs. */
  function Lower(s: string): string {
    if s == "" then "" else [if 'A' <= s[0] <= 'Z' then s[0] + ' ' else s[0]] + Lower(s[1..])
  }

  lemma FoldsToNullExactly(s: string)
    ensures FoldsToNull(s) <==> Lower(s) == "null"
  {
    LowerAt(s);
    if |s| == 4 {
      assert Lower(s) == [Lower(s)[0], Lower(s)[1], Lower(s)[2], Lower(s)[3]];
    }
  }

  lemma {:induction false} LowerAt(s: string)
    ensures |Lower(s)| == |s|
    ensures forall i :: 0 <= i < |s| ==> Lower(s)[i] == if 'A' <= s[i] <= 'Z' then s[i] + ' ' else s[i]
    decreases |s|
  {
    if s != "" {
      LowerAt(s[1..]);
    }
  }

  lemma {:induction false} ContributionsAre(parts: seq<string>, o: string)
    ensures o in Contributions(parts) <==> o != "" && exists p :: p in parts && TrimSpace(p) == o
    decreases |parts|
  {
    if parts != [] {
      var n := |parts| - 1;
      assert parts == parts[..n] + [parts[n]];
      ContributionsAre(parts[..n], o);
      if o != "" && exists p :: p in parts && TrimSpace(p) == o {
        var p :| p in parts && TrimSpace(p) == o;
        assert p in parts[..n] || p == parts[n];
      }
    }
  }

  /** Neither "*" nor "null" in any case, and well formed. */
  predicate GoodOrigin(o: string, ok: string -> bool) {
    o != "*" && Lower(o) != "null" && ok(o)
  }

  /** One of the comma-separated parts, trimmed and not empty. */
  ghost predicate IsPart(raw: string, o: string) {
    o != "" && exists p :: p in Split(TrimSpace(raw)) && TrimSpace(p) == o
  }

  /** In plain words: the input is accepted exactly if every part is good, and then the parts are the list. */
  lemma AcceptedExactly(raw: string, ok: string -> bool)
    ensures var result := ParseResult(raw, ok);
      && (result.Origins? <==> forall o :: IsPart(raw, o) ==> GoodOrigin(o, ok))
      && (result.Origins? ==> forall o :: o in result.list <==> IsPart(raw, o))
  {
    OneBadPartRejectsAll(raw, ok);
    EmptyContributesNothing(raw);
    forall o ensures o in Candidates(raw) <==> IsPart(raw, o) {
      ContributionsAre(Split(TrimSpace(raw)), o);
    }
    forall o ensures !IsUnsafe(o) && ok(o) <==> GoodOrigin(o, ok) {
      FoldsToNullExactly(o);
    }
  }

  lemma EmptyContributesNothing(raw: string)
    ensures Candidates(raw) == Contributions(Split(TrimSpace(raw)))
  {
    if TrimSpace(raw) == "" {
      assert Split("") == [""] && [""][..0] == [];
      assert TrimSpace("") == "";
    }
  }

  lemma {:induction false} ContributionsOfTrimmed(parts: seq<string>)
    requires forall p :: p in parts ==> p != "" && IsTrimmed(p)
    ensures Contributions(parts) == parts
    decreases |parts|
  {
    if parts != [] {
      var front := parts[..|parts| - 1];
      assert forall i :: 0 <= i < |front| ==> front[i] == parts[i] && parts[i] in parts;
      ContributionsOfTrimmed(front);
      assert parts == front + [parts[|parts| - 1]];
      assert parts[|parts| - 1] in parts;
    }
  }

  lemma {:induction false} JoinIsTrimmed(parts: seq<string>)
    requires parts != [] && forall i :: 0 <= i < |parts| ==> parts[i] != "" && IsTrimmed(parts[i])
    ensures Join(parts) != "" && IsTrimmed(Join(parts))
    decreases |parts|
  {
    if |parts| > 1 {
      var rest := Join(parts[1..]);
      JoinIsTrimmed(parts[1..]);
      assert Join(parts) == parts[0] + "," + rest;
      assert Join(parts)[|Join(parts)| - 1] == rest[|rest| - 1];
    }
  }

  /** Joining the result with commas and parsing again gives the same list. */
  lemma ParsingIsIdempotent(raw: string, ok: string -> bool)
    requires ParseResult(raw, ok).Origins?
    ensures ParseResult(Join(ParseResult(raw, ok).list), ok) == ParseResult(raw, ok)
  {
    var list := ParseResult(raw, ok).list;
    OneBadPartRejectsAll(raw, ok);
    if list == [] {
      assert TrimSpace("") == "";
    } else {
      JoinIsTrimmed(list);
      ContributionsHaveNoComma(Split(TrimSpace(raw)));
      SplitOfJoin(list);
      ContributionsOfTrimmed(list);
      assert Candidates(Join(list)) == list;
      NoProblemAnywhere(list, ok);
      FirstSeenOfDistinct(list);
    }
  }
}
