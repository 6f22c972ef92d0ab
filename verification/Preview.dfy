/** go/apiserver/currency_migrations.go: the preview of a currency migration and the state hash it is bound to. */
module Preview {
  import opened Basics
  import opened Conversion

  const MAX_DIFF_ENTRIES: nat := 100

  /** A list as a registry hands it out; a slot may be nil. */
  type Listing = seq<Option<Commodity>>

  datatype Diff = Diff(commodity: nat, before: RowImage, after: RowImage)

  /** SHA-256 over "count|sum", idealised as injective; decimals print canonically. */
  datatype StateHash = StateHash(count: nat, sum: real)

  datatype Body = Body(
    count: nat,
    diffs: seq<Diff>,
    totalBefore: real,
    totalAfter: real,
    fills: nat,
    stateHash: StateHash)

  // ---- what the fold computes ----

  function DiffOf(c: Commodity, from: Currency, to: Currency, rate: real): Diff {
    var r := ApplyConversion(c, from, to, rate);
    Diff(c.id, r.before, r.after)
  }

  function AllDiffs(list: Listing, from: Currency, to: Currency, rate: real): seq<Diff> {
    if list == [] then []
    else
      var front := AllDiffs(list[..|list| - 1], from, to, rate);
      var last := list[|list| - 1];
      if last.None? then front else front + [DiffOf(last.value, from, to, rate)]
  }

  function SumCurrent(list: Listing): real {
    if list == [] then 0.0
    else
      var last := list[|list| - 1];
      SumCurrent(list[..|list| - 1]) + if last.None? then 0.0 else last.value.currentPrice
  }

  function SumAfter(diffs: seq<Diff>): real {
    if diffs == [] then 0.0 else SumAfter(diffs[..|diffs| - 1]) + diffs[|diffs| - 1].after.currentPrice
  }

  predicate Fills(c: Option<Commodity>, from: Currency) {
    c.Some? && c.value.originalCurrency == from && c.value.acquisitionPrice.None? && c.value.acquisitionCurrency.None?
  }

  function FillCount(list: Listing, from: Currency): nat {
    if list == [] then 0 else FillCount(list[..|list| - 1], from) + if Fills(list[|list| - 1], from) then 1 else 0
  }

  // ---- the stable sort ----

  /** The absolute change of the current price. */
  function Change(d: Diff): real {
    Magnitude(d.after.currentPrice - d.before.currentPrice)
  }

  ghost predicate Descending(diffs: seq<Diff>) {
    forall i, j :: 0 <= i < j < |diffs| ==> Change(diffs[j]) <= Change(diffs[i])
  }

  /** The entries with one given change, in order: what a stable sort must not reorder. */
  function Tied(diffs: seq<Diff>, change: real): seq<Diff> {
    if diffs == [] then []
    else (if Change(diffs[0]) == change then [diffs[0]] else []) + Tied(diffs[1..], change)
  }

  /** Behind every entry that changes at least as much. */
  function Insert(sorted: seq<Diff>, d: Diff): seq<Diff> {
    if sorted == [] || Change(sorted[|sorted| - 1]) >= Change(d) then sorted + [d]
    else Insert(sorted[..|sorted| - 1], d) + [sorted[|sorted| - 1]]
  }

  function SortedByChange(diffs: seq<Diff>): seq<Diff> {
    if diffs == [] then [] else Insert(SortedByChange(diffs[..|diffs| - 1]), diffs[|diffs| - 1])
  }

  lemma {:induction false} TiedConcat(a: seq<Diff>, b: seq<Diff>, change: real)
    ensures Tied(a + b, change) == Tied(a, change) + Tied(b, change)
    decreases |a|
  {
    if a == [] {
      assert a + b == b;
    } else {
      assert (a + b)[0] == a[0] && (a + b)[1..] == a[1..] + b;
      TiedConcat(a[1..], b, change);
      TiedStep(a + b, change);
      TiedStep(a, change);
    }
  }

  lemma TiedStep(diffs: seq<Diff>, change: real)
    requires diffs != []
    ensures Tied(diffs, change) == if Change(diffs[0]) == change then [diffs[0]] + Tied(diffs[1..], change) else Tied(diffs[1..], change)
  {
  }

  lemma TiedOne(d: Diff, change: real)
    ensures Tied([d], change) == if Change(d) == change then [d] else []
  {
    assert [d][1..] == [];
  }

  lemma DescendingExtends(sorted: seq<Diff>, d: Diff)
    requires Descending(sorted) && forall e :: e in sorted ==> Change(d) <= Change(e)
    ensures Descending(sorted + [d])
  {
  }

  lemma {:induction false} InsertSorts(sorted: seq<Diff>, d: Diff)
    requires Descending(sorted)
    ensures multiset(Insert(sorted, d)) == multiset(sorted) + multiset{d}
    ensures forall e :: e in Insert(sorted, d) ==> e == d || e in sorted
    ensures Descending(Insert(sorted, d))
    decreases |sorted|
  {
    if sorted == [] || Change(sorted[|sorted| - 1]) >= Change(d) {
      DescendingExtends(sorted, d);
    } else {
      var front, last := sorted[..|sorted| - 1], sorted[|sorted| - 1];
      assert sorted == front + [last];
      InsertSorts(front, d);
      DescendingExtends(Insert(front, d), last);
    }
  }

  lemma {:induction false} InsertKeepsTies(sorted: seq<Diff>, d: Diff, change: real)
    ensures Tied(Insert(sorted, d), change) == Tied(sorted, change) + Tied([d], change)
    decreases |sorted|
  {
    TiedConcat(sorted, [d], change);
    if !(sorted == [] || Change(sorted[|sorted| - 1]) >= Change(d)) {
      var front, last := sorted[..|sorted| - 1], sorted[|sorted| - 1];
      assert sorted == front + [last];
      InsertKeepsTies(front, d, change);
      TiedConcat(Insert(front, d), [last], change);
      TiedConcat(front, [last], change);
      TiedOne(d, change);
      TiedOne(last, change);
    }
  }

  /** Sorted, a permutation, and equal changes in their original order. */
  lemma {:induction false} SortIsStable(diffs: seq<Diff>)
    ensures multiset(SortedByChange(diffs)) == multiset(diffs)
    ensures Descending(SortedByChange(diffs))
    ensures forall change :: Tied(SortedByChange(diffs), change) == Tied(diffs, change)
    decreases |diffs|
  {
    if diffs != [] {
      var front, last := diffs[..|diffs| - 1], diffs[|diffs| - 1];
      assert diffs == front + [last];
      SortIsStable(front);
      InsertSorts(SortedByChange(front), last);
      forall change ensures Tied(SortedByChange(diffs), change) == Tied(diffs, change) {
        InsertKeepsTies(SortedByChange(front), last, change);
        TiedConcat(front, [last], change);
      }
    }
  }

  lemma {:induction false} TiedMembers(diffs: seq<Diff>, change: real)
    ensures forall d :: d in Tied(diffs, change) <==> d in diffs && Change(d) == change
    decreases |diffs|
  {
    if diffs != [] {
      TiedMembers(diffs[1..], change);
      assert diffs == [diffs[0]] + diffs[1..];
    }
  }

  /** Two lists that are sorted and agree on every group of ties agree on their first entry. */
  lemma SameHead(a: seq<Diff>, b: seq<Diff>)
    requires Descending(a) && Descending(b) && a != [] && b != []
    requires forall change :: Tied(a, change) == Tied(b, change)
    ensures a[0] == b[0]
  {
    TiedMembers(a, Change(a[0]));
    TiedMembers(b, Change(a[0]));
    TiedMembers(a, Change(b[0]));
    TiedMembers(b, Change(b[0]));
    assert a[0] in Tied(a, Change(a[0])) && b[0] in Tied(b, Change(b[0]));
    assert a[0] in b && b[0] in a;
    assert Change(a[0]) == Change(b[0]);
    assert Tied(a, Change(a[0]))[0] == a[0] && Tied(b, Change(a[0]))[0] == b[0];
  }

  lemma FirstIsTied(diffs: seq<Diff>)
    requires diffs != []
    ensures Tied(diffs, Change(diffs[0])) != []
  {
  }

  lemma SameEmptiness(a: seq<Diff>, b: seq<Diff>)
    requires forall change :: Tied(a, change) == Tied(b, change)
    ensures a == [] <==> b == []
  {
    if a != [] {
      FirstIsTied(a);
    }
    if b != [] {
      FirstIsTied(b);
    }
  }

  /** There is only one stable sort: whatever algorithm is used, it returns this list. */
  lemma {:induction false} StableSortIsUnique(a: seq<Diff>, b: seq<Diff>)
    requires Descending(a) && Descending(b)
    requires forall change :: Tied(a, change) == Tied(b, change)
    ensures a == b
    decreases |a|
  {
    SameEmptiness(a, b);
    if a != [] {
      SameHead(a, b);
      forall change ensures Tied(a[1..], change) == Tied(b[1..], change) {
        var head := if Change(a[0]) == change then [a[0]] else [];
        assert Tied(a, change) == head + Tied(a[1..], change) && Tied(b, change) == head + Tied(b[1..], change);
        assert Tied(a[1..], change) == Tied(a, change)[|head|..];
        assert Tied(b[1..], change) == Tied(b, change)[|head|..];
      }
      StableSortIsUnique(a[1..], b[1..]);
      assert a == [a[0]] + a[1..] && b == [b[0]] + b[1..];
    }
  }

  // ---- the preview ----

  function Truncated(diffs: seq<Diff>): seq<Diff> {
    if |diffs| > MAX_DIFF_ENTRIES then diffs[..MAX_DIFF_ENTRIES] else diffs
  }

  function PreviewOf(list: Listing, from: Currency, to: Currency, rate: real): Body {
    var all := AllDiffs(list, from, to, rate);
    Body(|list|, Truncated(SortedByChange(all)), SumCurrent(list), SumAfter(all), FillCount(list, from),
         StateHash(|list|, SumCurrent(list)))
  }

  method BuildPreviewBody(list: Listing, from: Currency, to: Currency, rate: real) returns (body: Body)
    ensures body == PreviewOf(list, from, to, rate)
  {
    var all: seq<Diff> := [];
    var totalBefore, totalAfter, fills := 0.0, 0.0, 0;
    for i := 0 to |list|
      invariant all == AllDiffs(list[..i], from, to, rate)
      invariant totalBefore == SumCurrent(list[..i])
      invariant totalAfter == SumAfter(all)
      invariant fills == FillCount(list[..i], from)
    {
      assert list[..i + 1][..i] == list[..i];
      if list[i].None? {
        continue;
      }
      var result := ApplyConversion(list[i].value, from, to, rate);
      totalBefore := totalBefore + result.before.currentPrice;
      totalAfter := totalAfter + result.after.currentPrice;
      if result.fillAcquisition {
        fills := fills + 1;
      }
      var diff := Diff(list[i].value.id, result.before, result.after);
      assert (all + [diff])[..|all|] == all;
      all := all + [diff];
    }
    assert list[..|list|] == list;
    var sorted := SortedByChange(all);
    if |sorted| > MAX_DIFF_ENTRIES {
      sorted := sorted[..MAX_DIFF_ENTRIES];
    }
    return Body(|list|, sorted, totalBefore, totalAfter, fills, StateHash(|list|, totalBefore));
  }

  /** sumCurrentString, as `start` recomputes it. */
  method SumCurrentPrices(list: Listing) returns (sum: real)
    ensures sum == SumCurrent(list)
  {
    sum := 0.0;
    for i := 0 to |list|
      invariant sum == SumCurrent(list[..i])
    {
      assert list[..i + 1][..i] == list[..i];
      if list[i].None? {
        continue;
      }
      sum := sum + list[i].value.currentPrice;
    }
    assert list[..|list|] == list;
  }

  /**
   What the preview shows: at most a hundred entries, by change descending, ties in listing
   order; together with the entries it drops they are exactly the diffs of the non-nil
   commodities, and no dropped entry changes more than a shown one.
   */
  lemma PreviewShowsTheLargest(list: Listing, from: Currency, to: Currency, rate: real)
    ensures var all := AllDiffs(list, from, to, rate);
      var shown := PreviewOf(list, from, to, rate).diffs;
      var dropped := SortedByChange(all)[|shown|..];
      && |shown| == (if |all| > MAX_DIFF_ENTRIES then MAX_DIFF_ENTRIES else |all|)
      && Descending(shown)
      && multiset(shown) + multiset(dropped) == multiset(all)
      && (forall s, d :: s in shown && d in dropped ==> Change(d) <= Change(s))
      && (forall change :: Tied(shown, change) <= Tied(all, change))
  {
    var all := AllDiffs(list, from, to, rate);
    var sorted := SortedByChange(all);
    var shown := PreviewOf(list, from, to, rate).diffs;
    SortIsStable(all);
    assert |sorted| == |all| by {
      assert |multiset(sorted)| == |multiset(all)|;
    }
    assert sorted == shown + sorted[|shown|..];
    forall change ensures Tied(shown, change) <= Tied(all, change) {
      TiedConcat(shown, sorted[|shown|..], change);
    }
  }

  // ---- the figures of the whole listing ----

  /** The commodities of a listing, nil slots skipped. */
  function Present(list: Listing): seq<Commodity> {
    if list == [] then []
    else (if list[0].Some? then [list[0].value] else []) + Present(list[1..])
  }

  function Sum(xs: seq<real>): real {
    if xs == [] then 0.0 else xs[0] + Sum(xs[1..])
  }

  function TotalCurrent(cs: seq<Commodity>): real {
    Sum(seq(|cs|, i requires 0 <= i < |cs| => cs[i].currentPrice))
  }

  function TotalConverted(cs: seq<Commodity>, rate: real): real {
    Sum(seq(|cs|, i requires 0 <= i < |cs| => Scaled(cs[i].currentPrice, rate)))
  }

  lemma {:induction false} SumAppend(xs: seq<real>, x: real)
    ensures Sum(xs + [x]) == Sum(xs) + x
    decreases |xs|
  {
    if xs == [] {
      assert [x][1..] == [] && [] + [x] == [x];
    } else {
      assert (xs + [x])[1..] == xs[1..] + [x];
      SumAppend(xs[1..], x);
    }
  }

  lemma {:induction false} PresentAppend(list: Listing, c: Option<Commodity>)
    ensures Present(list + [c]) == if c.Some? then Present(list) + [c.value] else Present(list)
    decreases |list|
  {
    if list == [] {
      assert [c][1..] == [];
    } else {
      assert (list + [c])[1..] == list[1..] + [c];
      PresentAppend(list[1..], c);
      var head, rest := if list[0].Some? then [list[0].value] else [], Present(list[1..]);
      assert Present(list) == head + rest && Present(list + [c]) == head + Present(list[1..] + [c]);
      if c.Some? {
        assert head + (rest + [c.value]) == (head + rest) + [c.value];
      }
    }
  }

  /** The diff of a commodity: its prices before, and the current price after, by name. */
  predicate IsDiffOf(d: Diff, c: Commodity, rate: real) {
    && d.commodity == c.id
    && d.before == RowImage(c.originalPrice, c.originalCurrency, c.convertedOriginalPrice, c.currentPrice)
    && d.after.currentPrice == Scaled(c.currentPrice, rate)
  }

  lemma DiffOfIsDiff(c: Commodity, from: Currency, to: Currency, rate: real)
    ensures IsDiffOf(DiffOf(c, from, to, rate), c, rate)
  {
  }

  lemma {:induction false} DiffsFollowListing(list: Listing, from: Currency, to: Currency, rate: real)
    ensures var all, cs := AllDiffs(list, from, to, rate), Present(list);
      |all| == |cs| && forall i :: 0 <= i < |cs| ==> all[i] == DiffOf(cs[i], from, to, rate)
    decreases |list|
  {
    if list != [] {
      var n := |list| - 1;
      assert list == list[..n] + [list[n]];
      DiffsFollowListing(list[..n], from, to, rate);
      PresentAppend(list[..n], list[n]);
    }
  }

  lemma {:induction false} CurrentTotal(list: Listing)
    ensures SumCurrent(list) == TotalCurrent(Present(list))
    decreases |list|
  {
    if list != [] {
      var n := |list| - 1;
      assert list == list[..n] + [list[n]];
      CurrentTotal(list[..n]);
      PresentAppend(list[..n], list[n]);
      if list[n].Some? {
        var cs, c := Present(list[..n]), list[n].value;
        var prices := seq(|cs|, i requires 0 <= i < |cs| => cs[i].currentPrice);
        SumAppend(prices, c.currentPrice);
        assert prices + [c.currentPrice] == seq(|cs + [c]|, i requires 0 <= i < |cs + [c]| => (cs + [c])[i].currentPrice);
      }
    }
  }

  lemma {:induction false} AfterTotal(diffs: seq<Diff>)
    ensures SumAfter(diffs) == Sum(seq(|diffs|, i requires 0 <= i < |diffs| => diffs[i].after.currentPrice))
    decreases |diffs|
  {
    if diffs != [] {
      var n := |diffs| - 1;
      AfterTotal(diffs[..n]);
      var prices := seq(n, i requires 0 <= i < n => diffs[..n][i].after.currentPrice);
      SumAppend(prices, diffs[n].after.currentPrice);
      assert prices + [diffs[n].after.currentPrice] == seq(|diffs|, i requires 0 <= i < |diffs| => diffs[i].after.currentPrice);
    }
  }

  lemma SameSum(xs: seq<real>, ys: seq<real>)
    requires |xs| == |ys| && forall i :: 0 <= i < |xs| ==> xs[i] == ys[i]
    ensures Sum(xs) == Sum(ys)
  {
    assert xs == ys;
  }

  lemma ConvertedTotal(list: Listing, from: Currency, to: Currency, rate: real)
    ensures SumAfter(AllDiffs(list, from, to, rate)) == TotalConverted(Present(list), rate)
  {
    var all, cs := AllDiffs(list, from, to, rate), Present(list);
    DiffsFollowListing(list, from, to, rate);
    AfterTotal(all);
    forall i | 0 <= i < |cs| ensures all[i].after.currentPrice == Scaled(cs[i].currentPrice, rate) {
      DiffOfIsDiff(cs[i], from, to, rate);
    }
    SameSum(seq(|all|, i requires 0 <= i < |all| => all[i].after.currentPrice), seq(|cs|, i requires 0 <= i < |cs| => Scaled(cs[i].currentPrice, rate)));
  }

  /** The slots whose commodity is overwritten for the first time. */
  function FirstOverwrites(list: Listing, from: Currency): set<nat> {
    set i: nat | i < |list| && list[i].Some? && list[i].value.originalCurrency == from
                 && list[i].value.acquisitionPrice.None? && list[i].value.acquisitionCurrency.None?
  }

  lemma {:induction false} FillsAreFirstOverwrites(list: Listing, from: Currency)
    ensures FillCount(list, from) == |FirstOverwrites(list, from)|
    decreases |list|
  {
    if list == [] {
      assert FirstOverwrites(list, from) == {};
    } else {
      var n := |list| - 1;
      FillsAreFirstOverwrites(list[..n], from);
      assert FirstOverwrites(list, from) == FirstOverwrites(list[..n], from) + (if Fills(list[n], from) then {n} else {});
    }
  }

  /**
   The figures a preview shows range over the whole listing, however many diffs it shows: the
   number of slots, the current prices before and after conversion, and the first overwrites.
   The diffs it shows are diffs of listed commodities, the greatest absolute change first.
   */
  lemma PreviewFigures(list: Listing, from: Currency, to: Currency, rate: real)
    ensures var body := PreviewOf(list, from, to, rate); var cs := Present(list);
      && body.count == |list|
      && body.totalBefore == TotalCurrent(cs)
      && body.totalAfter == TotalConverted(cs, rate)
      && body.fills == |FirstOverwrites(list, from)|
      && body.stateHash == StateHash(|list|, TotalCurrent(cs))
      && |body.diffs| == (if |cs| > 100 then 100 else |cs|)
      && (forall d :: d in body.diffs ==> exists c :: c in cs && IsDiffOf(d, c, rate))
      && (forall i, j :: 0 <= i < j < |body.diffs| ==> Moved(body.diffs[j]) <= Moved(body.diffs[i]))
  {
    var all, body := AllDiffs(list, from, to, rate), PreviewOf(list, from, to, rate);
    DiffsFollowListing(list, from, to, rate);
    CurrentTotal(list);
    ConvertedTotal(list, from, to, rate);
    FillsAreFirstOverwrites(list, from);
    PreviewShowsTheLargest(list, from, to, rate);
    forall d | d in body.diffs ensures exists c :: c in Present(list) && IsDiffOf(d, c, rate) {
      assert d in multiset(all);
      var i :| 0 <= i < |all| && all[i] == d;
      DiffOfIsDiff(Present(list)[i], from, to, rate);
      assert Present(list)[i] in Present(list) && IsDiffOf(d, Present(list)[i], rate);
    }
    forall i, j | 0 <= i < j < |body.diffs| ensures Moved(body.diffs[j]) <= Moved(body.diffs[i]) {
      assert Change(body.diffs[j]) <= Change(body.diffs[i]);
    }
  }

  /** How far the current price moves, up or down. */
  function Moved(d: Diff): real {
    var before, after := d.before.currentPrice, d.after.currentPrice;
    if before <= after then after - before else before - after
  }

  // ---- preview and start agree on the state ----

  lemma {:induction false} SumSplits(list: Listing, k: nat)
    requires k < |list|
    ensures SumCurrent(list) == SumCurrent(list[..k] + list[k + 1..]) + (if list[k].None? then 0.0 else list[k].value.currentPrice)
    decreases |list|
  {
    var n := |list| - 1;
    if k == n {
      assert list[..k] + list[k + 1..] == list[..n];
    } else {
      SumSplits(list[..n], k);
      var rest := list[..k] + list[k + 1..];
      assert rest[..|rest| - 1] == list[..n][..k] + list[..n][k + 1..];
      assert rest[|rest| - 1] == list[n];
    }
  }

  lemma BagSplits(list: Listing, k: nat)
    requires k < |list|
    ensures multiset(list) == multiset(list[..k] + list[k + 1..]) + multiset{list[k]}
  {
    assert list == list[..k] + [list[k]] + list[k + 1..];
  }

  /** The order in which the registry lists the commodities does not matter. */
  lemma {:induction false} SumIgnoresOrder(a: Listing, b: Listing)
    requires multiset(a) == multiset(b)
    ensures SumCurrent(a) == SumCurrent(b)
    decreases |a|
  {
    assert |multiset(a)| == |a| && |multiset(b)| == |b|;
    if a != [] {
      var n := |a| - 1;
      assert a[n] in multiset(b);
      var k :| 0 <= k < |b| && b[k] == a[n];
      assert a == a[..n] + [a[n]];
      BagSplits(b, k);
      assert multiset(b[..k] + b[k + 1..]) == multiset(b) - multiset{b[k]};
      assert multiset(a[..n]) == multiset(a) - multiset{a[n]};
      SumIgnoresOrder(a[..n], b[..k] + b[k + 1..]);
      SumSplits(b, k);
    }
  }

  /** An untouched group always matches its preview, in whatever order it is listed. */
  lemma UntouchedGroupMatches(previewed: Listing, live: Listing, from: Currency, to: Currency, rate: real)
    requires multiset(previewed) == multiset(live)
    ensures PreviewOf(previewed, from, to, rate).stateHash == StateHash(|live|, SumCurrent(live))
  {
    assert |multiset(previewed)| == |previewed| && |multiset(live)| == |live|;
    SumIgnoresOrder(previewed, live);
  }

  /** What the hash does not see: money moved from one commodity to another. */
  lemma RedistributionMatches(a: Commodity, b: Commodity, amount: real)
    ensures var a' := a.(currentPrice := a.currentPrice - amount); var b' := b.(currentPrice := b.currentPrice + amount);
      SumCurrent([Some(a), Some(b)]) == SumCurrent([Some(a'), Some(b')])
  {
    var a', b' := a.(currentPrice := a.currentPrice - amount), b.(currentPrice := b.currentPrice + amount);
    SumSplits([Some(a), Some(b)], 0);
    SumSplits([Some(a'), Some(b')], 0);
    assert [Some(a), Some(b)][..0] + [Some(a), Some(b)][1..] == [Some(b)];
    assert [Some(a'), Some(b')][..0] + [Some(a'), Some(b')][1..] == [Some(b')];
    assert [Some(b)][..0] == [] && [Some(b')][..0] == [];
  }
}
