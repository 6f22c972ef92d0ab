/** go/apiserver/commodities.go: collecting the commodities with an open loan, page by page. */
module OpenLoans {
  import opened Basics
  import opened Deduplication

  const PAGE_SIZE: nat := 1000

  datatype Loan = Loan(commodity: nat, returnedAt: Option<Instant>)

  /**
   The loan registry as this loop sees it: the loans in listing order (a slot may be nil),
   the total it reports, and the offset at which it fails, if it does.
   */
  datatype LoanRegistry = LoanRegistry(loans: seq<Option<Loan>>, reported: nat, failsAt: Option<nat>)

  predicate IsOpen(l: Option<Loan>) {
    l.None? || l.value.returnedAt.None?
  }

  function OpenOnly(loans: seq<Option<Loan>>): seq<Option<Loan>> {
    if loans == [] then []
    else OpenOnly(loans[..|loans| - 1]) + if IsOpen(loans[|loans| - 1]) then [loans[|loans| - 1]] else []
  }

  function Min(a: nat, b: nat): nat {
    if a < b then a else b
  }

  /** ListPaginated with the open filter. */
  function Page(open: seq<Option<Loan>>, offset: nat, limit: nat): seq<Option<Loan>> {
    open[Min(offset, |open|)..Min(Min(offset, |open|) + limit, |open|)]
  }

  /** The commodity ids of the non-nil loans. */
  function Commodities(loans: seq<Option<Loan>>): (ids: seq<nat>) {
    if loans == [] then []
    else
      var last := loans[|loans| - 1];
      Commodities(loans[..|loans| - 1]) + if last.Some? then [last.value.commodity] else []
  }

  lemma CommoditiesExtend(loans: seq<Option<Loan>>, l: Option<Loan>)
    ensures Commodities(loans + [l]) == if l.Some? then Commodities(loans) + [l.value.commodity] else Commodities(loans)
  {
    assert (loans + [l])[..|loans|] == loans;
  }

  /** The loop has read n of the open loans when it stops: whole pages, up to the reported total or to an end. */
  ghost predicate StopsAfter(available: nat, reported: nat, n: nat) {
    exists pages: nat :: pages > 0 && EndsPage(available, reported, pages, n)
  }

  ghost predicate EndsPage(available: nat, reported: nat, pages: nat, n: nat)
    requires pages > 0
  {
    && n == Min(pages * PAGE_SIZE, available)
    && (n >= reported || n == available)
    && (pages == 1 || Min((pages - 1) * PAGE_SIZE, available) < reported)
  }

  /** It stops at one place only, and never short of what was reported. */
  lemma StopsOnce(available: nat, reported: nat, n: nat, m: nat)
    requires StopsAfter(available, reported, n) && StopsAfter(available, reported, m)
    ensures n == m && Min(reported, available) <= n <= available
  {
    var p: nat :| p > 0 && EndsPage(available, reported, p, n);
    var q: nat :| q > 0 && EndsPage(available, reported, q, m);
    if p < q {
      assert p * PAGE_SIZE <= (q - 1) * PAGE_SIZE;
    } else if q < p {
      assert q * PAGE_SIZE <= (p - 1) * PAGE_SIZE;
    }
  }

  lemma PageExtends(open: seq<Option<Loan>>, offset: nat)
    requires offset <= |open|
    ensures var page := Page(open, offset, PAGE_SIZE);
      offset + |page| == Min(offset + PAGE_SIZE, |open|) && open[..offset + |page|] == open[..offset] + page
  {
  }

  /** What one more loan adds to the ids and to the seen set. */
  lemma LoanExtends(before: seq<Option<Loan>>, l: Option<Loan>)
    ensures var ids, after := FirstSeen(Commodities(before)), FirstSeen(Commodities(before + [l]));
      if l.None? || l.value.commodity in ids then after == ids
      else after == ids + [l.value.commodity] && Elements(after) == Elements(ids) + {l.value.commodity}
  {
    CommoditiesExtend(before, l);
    if l.Some? {
      FirstSeenExtends(Commodities(before), l.value.commodity);
      ElementsExtend(FirstSeen(Commodities(before)), l.value.commodity);
    }
  }

  lemma PageLoanExtends(earlier: seq<Option<Loan>>, loans: seq<Option<Loan>>, i: nat)
    requires i < |loans|
    ensures var ids := FirstSeen(Commodities(earlier + loans[..i])); var after := FirstSeen(Commodities(earlier + loans[..i + 1]));
      if loans[i].None? || loans[i].value.commodity in Elements(ids) then after == ids
      else after == ids + [loans[i].value.commodity] && Elements(after) == Elements(ids) + {loans[i].value.commodity}
  {
    assert earlier + loans[..i + 1] == (earlier + loans[..i]) + [loans[i]];
    LoanExtends(earlier + loans[..i], loans[i]);
  }

  /** The inner loop: append what the page adds to the ids of the loans before it. */
  method AddPage(loans: seq<Option<Loan>>, known: set<nat>, listed: seq<nat>, ghost earlier: seq<Option<Loan>>)
    returns (seen: set<nat>, ids: seq<nat>)
    requires listed == FirstSeen(Commodities(earlier)) && known == Elements(listed)
    ensures ids == FirstSeen(Commodities(earlier + loans)) && seen == Elements(ids)
  {
    seen, ids := known, listed;
    assert earlier + loans[..0] == earlier;
    for i := 0 to |loans|
      invariant ids == FirstSeen(Commodities(earlier + loans[..i]))
      invariant seen == Elements(ids)
    {
      PageLoanExtends(earlier, loans, i);
      if loans[i].None? {
        continue;
      }
      var c := loans[i].value.commodity;
      if c in seen {
        continue;
      }
      seen := seen + {c};
      ids := ids + [c];
    }
    assert loans[..|loans|] == loans;
  }

  /** What the method returns when it returns a list. */
  ghost predicate Collected(registry: LoanRegistry, ids: seq<nat>) {
    var open := OpenOnly(registry.loans);
    exists n: nat :: StopsAfter(|open|, registry.reported, n) && ids == FirstSeen(Commodities(open[..n]))
  }

  method ListOpenLoanCommodityIds(registry: LoanRegistry) returns (result: Option<seq<nat>>)
    ensures registry.failsAt.None? ==> result.Some?
    ensures result.Some? ==> Collected(registry, result.value)
  {
    var open := OpenOnly(registry.loans);
    var seen: set<nat> := {};
    var ids: seq<nat> := [];
    var offset := 0;
    ghost var pages, read := 0, [];
    while true
      invariant offset == Min(pages * PAGE_SIZE, |open|) && read == open[..offset]
      invariant pages == 0 || offset < registry.reported
      invariant ids == FirstSeen(Commodities(read))
      invariant seen == Elements(ids)
      decreases |open| - offset
    {
      if registry.failsAt == Some(offset) {
        return None;
      }
      var loans, total := Page(open, offset, PAGE_SIZE), registry.reported;
      PageExtends(open, offset);
      seen, ids := AddPage(loans, seen, ids, read);
      offset := offset + |loans|;
      pages, read := pages + 1, read + loans;
      if |loans| == 0 || offset >= total {
        assert EndsPage(|open|, registry.reported, pages, offset);
        break;
      }
    }
    return Some(ids);
  }

  lemma {:induction false} CommoditiesAre(loans: seq<Option<Loan>>, c: nat)
    ensures c in Commodities(loans) <==> exists i :: 0 <= i < |loans| && loans[i].Some? && loans[i].value.commodity == c
    decreases |loans|
  {
    if loans != [] {
      var n := |loans| - 1;
      CommoditiesAre(loans[..n], c);
      assert forall i :: 0 <= i < n ==> loans[..n][i] == loans[i];
      if loans[n].Some? && loans[n].value.commodity == c {
        assert c in Commodities(loans);
      }
    }
  }

  lemma {:induction false} OpenOnlyAre(loans: seq<Option<Loan>>, l: Option<Loan>)
    ensures l in OpenOnly(loans) <==> l in loans && IsOpen(l)
    decreases |loans|
  {
    if loans != [] {
      OpenOnlyAre(loans[..|loans| - 1], l);
      assert loans == loans[..|loans| - 1] + [loans[|loans| - 1]];
    }
  }

  /**
   On a registry that answers and reports at least its number of open loans, whatever the
   page boundaries: exactly the commodities with an open loan, each once, in the order in
   which their first open loan is listed.
   */
  lemma ExactlyTheOpenLoans(registry: LoanRegistry, ids: seq<nat>)
    requires |OpenOnly(registry.loans)| <= registry.reported && Collected(registry, ids)
    ensures forall c :: c in ids <==> exists l :: Some(l) in registry.loans && l.returnedAt.None? && l.commodity == c
    ensures Distinct(ids) && InFirstOrder(Commodities(OpenOnly(registry.loans)), ids)
  {
    var open := OpenOnly(registry.loans);
    var n: nat :| StopsAfter(|open|, registry.reported, n) && ids == FirstSeen(Commodities(open[..n]));
    StopsOnce(|open|, registry.reported, n, n);
    assert open[..n] == open;
    FirstSeenInOrder(Commodities(open));
    forall c ensures c in Commodities(open) <==> exists l :: Some(l) in registry.loans && l.returnedAt.None? && l.commodity == c {
      CommoditiesAre(open, c);
      if c in Commodities(open) {
        var i :| 0 <= i < |open| && open[i].Some? && open[i].value.commodity == c;
        OpenOnlyAre(registry.loans, open[i]);
        assert Some(open[i].value) in registry.loans;
      }
      if l :| Some(l) in registry.loans && l.returnedAt.None? && l.commodity == c {
        OpenOnlyAre(registry.loans, Some(l));
      }
    }
  }
}
