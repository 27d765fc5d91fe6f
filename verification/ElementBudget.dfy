/** How `firewall_inspect` shares out its budget of inline set elements: ban sets first, in
    manifest order, then all other sets in key order, each taking what it can of what is left.

    `nft list set` is the environment: what fetching a set by its key yields. */
module ElementBudget {
  import opened Common
  import opened Strings

  const BUDGET := 24000
  const HARD_CAP := 24000
  const DEFAULT_CAP := 2000

  datatype Fetched = FetchFailed | Fetched(elems: seq<string>)

  datatype SetRecord = SetRecord(elementCount: nat, elements: seq<string>, truncated: bool)

  /** The environment: fetching a set, and rendering one element. */
  datatype Nft = Nft(fetch: string -> Fetched, render: string -> string)

  /** The per-set limit a request gets. */
  function PerSetCap(requested: int): (cap: nat)
    ensures 0 < cap <= HARD_CAP
    ensures 0 < requested <= HARD_CAP ==> cap == requested
    ensures requested > HARD_CAP ==> cap == HARD_CAP
    ensures requested <= 0 ==> cap == 2000
  {
    var n := if requested <= 0 then DEFAULT_CAP else requested;
    if n > HARD_CAP then HARD_CAP else n
  }

  // ---------------------------------------------------------------- the order of the sets

  /** The ban sets that are present, each where the manifest first names it. */
  function BanFirst(bans: seq<string>, keys: set<string>): seq<string> {
    if |bans| == 0 then []
    else
      var front, k := BanFirst(bans[..|bans| - 1], keys), bans[|bans| - 1];
      front + if k in keys && k !in front then [k] else []
  }

  /** The order in which sets are visited: present ban sets, then the others ascending. */
  ghost predicate IsOrder(order: seq<string>, keys: set<string>, bans: seq<string>) {
    var first := BanFirst(bans, keys);
    && first <= order && Ascending(order[|first|..])
    && Elements(order[|first|..]) == keys - Elements(first)
  }

  method OrderSetKeys(keys: set<string>, bans: seq<string>) returns (order: seq<string>)
    ensures IsOrder(order, keys, bans)
  {
    var seen: set<string> := {};
    order := [];
    for i := 0 to |bans|
      invariant order == BanFirst(bans[..i], keys) && seen == Elements(order)
    {
      assert bans[..i + 1][..i] == bans[..i];
      if bans[i] in keys && bans[i] !in seen {
        order := order + [bans[i]];
        seen := seen + {bans[i]};
      }
    }
    assert bans[..|bans|] == bans;
    var rest := Sorted(keys - seen);
    assert (order + rest)[|order|..] == rest;
    order := order + rest;
  }

  predicate Distinct(s: seq<string>) {
    forall i, j :: 0 <= i < j < |s| ==> s[i] != s[j]
  }

  lemma {:induction false} IndexAppend(s: seq<string>, k: string, x: string)
    ensures IndexOf(s + [k], x) == if x in s then IndexOf(s, x) else if x == k then |s| else |s| + 1
    decreases |s|
  {
    if |s| == 0 {
      assert s + [k] == [k];
      assert [k][1..] == [];
    } else if s[0] != x {
      assert (s + [k])[1..] == s[1..] + [k];
      IndexAppend(s[1..], k, x);
    }
  }

  /** The ban sets listed first are the present ones. */
  lemma {:induction false} BanFirstIsPresent(bans: seq<string>, keys: set<string>)
    ensures Elements(BanFirst(bans, keys)) == Elements(bans) * keys
    decreases |bans|
  {
    if |bans| > 0 {
      var front, k := bans[..|bans| - 1], bans[|bans| - 1];
      BanFirstIsPresent(front, keys);
      var before := BanFirst(front, keys);
      assert bans == front + [k];
      assert Elements(bans) == Elements(front) + {k};
      assert Elements(BanFirst(bans, keys)) == Elements(before) + if k in keys then {k} else {};
    }
  }

  /** They come in the order in which the manifest first names them. */
  lemma {:induction false} BanFirstOrder(bans: seq<string>, keys: set<string>, i: nat, j: nat)
    requires i < j < |BanFirst(bans, keys)|
    ensures IndexOf(bans, BanFirst(bans, keys)[i]) < IndexOf(bans, BanFirst(bans, keys)[j])
    decreases |bans|
  {
    var front, k := bans[..|bans| - 1], bans[|bans| - 1];
    var before, x, y := BanFirst(front, keys), BanFirst(bans, keys)[i], BanFirst(bans, keys)[j];
    assert bans == front + [k];
    BanFirstIsPresent(front, keys);
    assert x in before && x in Elements(before) && x in front;
    IndexAppend(front, k, x);
    IndexAppend(front, k, y);
    if j < |before| {
      BanFirstOrder(front, keys, i, j);
      assert y in Elements(before) && y in front;
    } else {
      assert y == k && k in keys && (k in front ==> k in Elements(front) && k in Elements(before));
    }
  }

  /** The ban sets listed first are exactly the present ones, without repetition, in the order
      in which the manifest first names them. */
  lemma BanFirstLaw(bans: seq<string>, keys: set<string>)
    ensures var first := BanFirst(bans, keys);
            && Distinct(first) && Elements(first) == Elements(bans) * keys
            && forall i, j :: 0 <= i < j < |first| ==> IndexOf(bans, first[i]) < IndexOf(bans, first[j])
  {
    var first := BanFirst(bans, keys);
    BanFirstIsPresent(bans, keys);
    forall i, j | 0 <= i < j < |first| ensures IndexOf(bans, first[i]) < IndexOf(bans, first[j]) {
      BanFirstOrder(bans, keys, i, j);
    }
  }

  lemma {:induction false} ElementsSize(s: seq<string>)
    requires Distinct(s)
    ensures |Elements(s)| == |s|
    decreases |s|
  {
    if |s| > 0 {
      var n := |s| - 1;
      ElementsSize(s[..n]);
      assert s == s[..n] + [s[n]];
      assert Elements(s) == Elements(s[..n]) + {s[n]};
      assert s[n] !in s[..n];
    }
  }

  lemma {:induction false} AscendingDistinct(s: seq<string>)
    requires Ascending(s)
    ensures Distinct(s)
  {
    forall i, j | 0 <= i < j < |s| ensures s[i] != s[j] {
      BelowTotal(s[i], s[j]);
    }
  }

  lemma DistinctJoin(a: seq<string>, b: seq<string>)
    requires Distinct(a) && Distinct(b) && Elements(a) !! Elements(b)
    ensures Distinct(a + b) && Elements(a + b) == Elements(a) + Elements(b)
  {
    forall i, j | 0 <= i < j < |a + b| ensures (a + b)[i] != (a + b)[j] {
      if i < |a| <= j {
        assert a[i] in Elements(a) && b[j - |a|] in Elements(b);
      }
    }
  }

  /** The order visits every set exactly once. */
  lemma OrderIsAPermutation(order: seq<string>, keys: set<string>, bans: seq<string>)
    requires IsOrder(order, keys, bans)
    ensures Distinct(order) && Elements(order) == keys && |order| == |keys|
  {
    var first := BanFirst(bans, keys);
    var rest := order[|first|..];
    BanFirstLaw(bans, keys);
    AscendingDistinct(rest);
    DistinctJoin(first, rest);
    assert order == first + rest;
    ElementsSize(order);
  }

  /** There is only one such order, whatever order the set map is iterated in. */
  lemma OrderIsUnique(a: seq<string>, b: seq<string>, keys: set<string>, bans: seq<string>)
    requires IsOrder(a, keys, bans) && IsOrder(b, keys, bans)
    ensures a == b
  {
    var n := |BanFirst(bans, keys)|;
    AscendingUnique(a[n..], b[n..]);
    assert a == a[..n] + a[n..] && b == b[..n] + b[n..];
  }

  // ---------------------------------------------------------------- spending the budget

  /** What a set takes of what is left. */
  function Share(nft: Nft, k: string, cap: nat, left: nat): nat {
    match nft.fetch(k)
    case FetchFailed => 0
    case Fetched(elems) => Min(Min(|elems|, cap), left)
  }

  /** What the sets of a list take together, one after the other. */
  function Used(nft: Nft, order: seq<string>, cap: nat): (n: nat)
    ensures n <= BUDGET
  {
    if |order| == 0 then 0
    else
      var before := Used(nft, order[..|order| - 1], cap);
      before + Share(nft, order[|order| - 1], cap, BUDGET - before)
  }

  function Rendered(nft: Nft, elems: seq<string>, n: nat): seq<string>
    requires n <= |elems|
  {
    seq(n, i requires 0 <= i < n => nft.render(elems[i]))
  }

  /** What visiting a set makes of its record. With nothing left the set is not even fetched. */
  function Visited(nft: Nft, rec: SetRecord, k: string, cap: nat, left: nat): SetRecord {
    if Min(cap, left) <= 0 then rec.(truncated := true)
    else
      match nft.fetch(k)
      case FetchFailed => rec
      case Fetched(elems) =>
        var n: nat := Min(|elems|, Min(cap, left));
        SetRecord(|elems|, Rendered(nft, elems, n), rec.truncated || |elems| > n)
  }

  method RenderElements(nft: Nft, elems: seq<string>, cap: int) returns (out: seq<string>)
    ensures out == if cap <= 0 then [] else Rendered(nft, elems, Min(|elems|, cap))
  {
    out := [];
    if cap <= 0 {
      return;
    }
    for i := 0 to |elems|
      invariant i <= cap && out == Rendered(nft, elems, i)
    {
      if i >= cap {
        break;
      }
      out := out + [nft.render(elems[i])];
    }
  }

  /** One turn of the loop: the set's new record, what is left, and whether the fetch failed. */
  method VisitSet(nft: Nft, rec: SetRecord, k: string, cap: nat, remaining: nat)
    returns (rec': SetRecord, left: nat, failed: bool)
    requires cap > 0
    ensures rec' == Visited(nft, rec, k, cap, remaining) && left == remaining - Share(nft, k, cap, remaining)
    ensures failed <==> remaining > 0 && nft.fetch(k).FetchFailed?
  {
    var limit := if cap > remaining then remaining else cap;
    if limit <= 0 {
      return rec.(truncated := true), remaining, false;
    }
    var fetched := nft.fetch(k);
    if fetched.FetchFailed? {
      return rec, remaining, true;
    }
    var elems := RenderElements(nft, fetched.elems, limit);
    var total := |fetched.elems|;
    return SetRecord(total, elems, rec.truncated || total > |elems|), remaining - |elems|, false;
  }

  /** The record at a position of the order is what visiting it there made of the old one. */
  ghost predicate FilledAt(nft: Nft, sets: map<string, SetRecord>, order: seq<string>, cap: nat,
                           out: map<string, SetRecord>, i: nat)
    requires i < |order|
  {
    && order[i] in sets && order[i] in out
    && out[order[i]] == Visited(nft, sets[order[i]], order[i], cap, BUDGET - Used(nft, order[..i], cap))
  }

  lemma FilledNext(nft: Nft, sets: map<string, SetRecord>, order: seq<string>, cap: nat,
                   out: map<string, SetRecord>, i: nat, out': map<string, SetRecord>)
    requires Distinct(order) && i < |order| && order[i] in sets && out.Keys == sets.Keys
    requires forall j :: 0 <= j < i ==> FilledAt(nft, sets, order, cap, out, j)
    requires forall j :: i <= j < |order| ==> order[j] in out && out[order[j]] == sets[order[j]]
    requires out' == out[order[i] := Visited(nft, sets[order[i]], order[i], cap, BUDGET - Used(nft, order[..i], cap))]
    ensures forall j :: 0 <= j <= i ==> FilledAt(nft, sets, order, cap, out', j)
    ensures out'.Keys == sets.Keys && forall j :: i < j < |order| ==> order[j] in out' && out'[order[j]] == sets[order[j]]
  {
    forall j | 0 <= j <= i ensures FilledAt(nft, sets, order, cap, out', j) {
      assert j < i ==> FilledAt(nft, sets, order, cap, out, j) && order[j] != order[i];
    }
  }

  lemma UsedNext(nft: Nft, order: seq<string>, cap: nat, i: nat)
    requires i < |order|
    ensures var left := BUDGET - Used(nft, order[..i], cap);
            && Used(nft, order[..i + 1], cap) == Used(nft, order[..i], cap) + Share(nft, order[i], cap, left)
            && Warned(nft, order[..i + 1], cap) == Warned(nft, order[..i], cap) +
               if left > 0 && nft.fetch(order[i]).FetchFailed? then [order[i]] else []
  {
    assert order[..i + 1][..i] == order[..i];
  }

  /** The loop over all sets. */
  method FillElements(nft: Nft, sets: map<string, SetRecord>, order: seq<string>, cap: nat)
    returns (out: map<string, SetRecord>, warnings: seq<string>)
    requires Distinct(order) && Elements(order) == sets.Keys && cap > 0
    ensures out.Keys == sets.Keys
    ensures forall i :: 0 <= i < |order| ==> FilledAt(nft, sets, order, cap, out, i)
    ensures warnings == Warned(nft, order, cap)
  {
    out, warnings := sets, [];
    var remaining: nat := BUDGET;
    assert forall j :: 0 <= j < |order| ==> order[j] in Elements(order);
    for i := 0 to |order|
      invariant out.Keys == sets.Keys && remaining == BUDGET - Used(nft, order[..i], cap)
      invariant forall j :: 0 <= j < i ==> FilledAt(nft, sets, order, cap, out, j)
      invariant forall j :: i <= j < |order| ==> order[j] in out && out[order[j]] == sets[order[j]]
      invariant warnings == Warned(nft, order[..i], cap)
    {
      var k := order[i];
      UsedNext(nft, order, cap, i);
      var rec, left, failed := VisitSet(nft, out[k], k, cap, remaining);
      FilledNext(nft, sets, order, cap, out, i, out[k := rec]);
      out := out[k := rec];
      if failed {
        warnings := warnings + [k];
      }
      remaining := left;
    }
    assert order[..|order|] == order;
  }

  /** The sets that were asked for in vain. */
  function Warned(nft: Nft, order: seq<string>, cap: nat): seq<string> {
    if |order| == 0 then []
    else
      var front, k := order[..|order| - 1], order[|order| - 1];
      Warned(nft, front, cap) +
      if Used(nft, front, cap) < BUDGET && nft.fetch(k).FetchFailed? then [k] else []
  }

  /** The whole of it: the order is made, and every set is visited in it. */
  method InspectElements(nft: Nft, sets: map<string, SetRecord>, bans: seq<string>, requested: int)
    returns (order: seq<string>, out: map<string, SetRecord>, warnings: seq<string>)
    ensures IsOrder(order, sets.Keys, bans) && out.Keys == sets.Keys
    ensures forall i :: 0 <= i < |order| ==> FilledAt(nft, sets, order, PerSetCap(requested), out, i)
    ensures warnings == Warned(nft, order, PerSetCap(requested))
  {
    order := OrderSetKeys(sets.Keys, bans);
    OrderIsAPermutation(order, sets.Keys, bans);
    out, warnings := FillElements(nft, sets, order, PerSetCap(requested));
  }

  // ---------------------------------------------------------------- what the budget promises

  /** What the sets of a list would take if there were no budget. */
  function Wanted(nft: Nft, order: seq<string>, cap: nat): nat {
    if |order| == 0 then 0
    else
      var k := order[|order| - 1];
      Wanted(nft, order[..|order| - 1], cap) +
      match nft.fetch(k)
      case FetchFailed => 0
      case Fetched(elems) => Min(|elems|, cap)
  }

  /** Nothing is wasted: together the sets get all they want, or else the whole budget. */
  lemma {:induction false} NothingIsWasted(nft: Nft, order: seq<string>, cap: nat)
    ensures Used(nft, order, cap) == Min(BUDGET, Wanted(nft, order, cap))
    decreases |order|
  {
    if |order| > 0 {
      NothingIsWasted(nft, order[..|order| - 1], cap);
    }
  }

  /** The elements inline across a list of sets. */
  function Inline(out: map<string, SetRecord>, order: seq<string>): nat
    requires forall i :: 0 <= i < |order| ==> order[i] in out
  {
    if |order| == 0 then 0
    else Inline(out, order[..|order| - 1]) + |out[order[|order| - 1]].elements|
  }

  /** Every set of the list holds what visiting it made of its fresh record. */
  ghost predicate FilledBy(nft: Nft, sets: map<string, SetRecord>, order: seq<string>, cap: nat, out: map<string, SetRecord>) {
    forall i :: 0 <= i < |order| ==>
      FilledAt(nft, sets, order, cap, out, i) && sets[order[i]].elements == [] && !sets[order[i]].truncated
  }

  lemma VisitTakesItsShare(nft: Nft, rec: SetRecord, k: string, cap: nat, left: nat)
    requires rec.elements == []
    ensures |Visited(nft, rec, k, cap, left).elements| == Share(nft, k, cap, left)
  {
  }

  lemma FilledFront(nft: Nft, sets: map<string, SetRecord>, order: seq<string>, cap: nat, out: map<string, SetRecord>)
    requires FilledBy(nft, sets, order, cap, out) && |order| > 0
    ensures FilledBy(nft, sets, order[..|order| - 1], cap, out)
  {
    var front := order[..|order| - 1];
    forall i | 0 <= i < |front|
      ensures FilledAt(nft, sets, front, cap, out, i) && sets[front[i]].elements == [] && !sets[front[i]].truncated
    {
      assert FilledAt(nft, sets, order, cap, out, i) && front[..i] == order[..i];
    }
  }

  /** The last set shows what it takes of what the sets before it left. */
  lemma LastShare(nft: Nft, sets: map<string, SetRecord>, order: seq<string>, cap: nat, out: map<string, SetRecord>)
    requires FilledBy(nft, sets, order, cap, out) && |order| > 0
    ensures var n := |order| - 1;
            order[n] in out && |out[order[n]].elements| == Used(nft, order, cap) - Used(nft, order[..n], cap)
  {
    var n := |order| - 1;
    assert FilledAt(nft, sets, order, cap, out, n);
    VisitTakesItsShare(nft, sets[order[n]], order[n], cap, BUDGET - Used(nft, order[..n], cap));
  }

  /** The elements inline are exactly what was taken, so all sets together stay within budget. */
  lemma {:induction false} InlineIsUsed(nft: Nft, sets: map<string, SetRecord>, order: seq<string>, cap: nat, out: map<string, SetRecord>)
    requires FilledBy(nft, sets, order, cap, out)
    ensures Inline(out, order) == Used(nft, order, cap) <= BUDGET
    decreases |order|
  {
    if |order| > 0 {
      FilledFront(nft, sets, order, cap, out);
      LastShare(nft, sets, order, cap, out);
      InlineIsUsed(nft, sets, order[..|order| - 1], cap, out);
    }
  }

  /** A set at any position that is fetched shows the first min(total, per-set cap, budget left
      by the sets before it) of its elements and their total, and is flagged if and only if some
      are not shown. */
  lemma FetchedSetIsExact(nft: Nft, sets: map<string, SetRecord>, order: seq<string>, cap: nat,
                          out: map<string, SetRecord>, i: nat)
    requires FilledBy(nft, sets, order, cap, out) && i < |order| && cap > 0
    requires nft.fetch(order[i]).Fetched? && Wanted(nft, order[..i], cap) < BUDGET
    ensures var rec, elems := out[order[i]], nft.fetch(order[i]).elems;
            var n := Min(|elems|, Min(cap, BUDGET - Wanted(nft, order[..i], cap)));
            && |rec.elements| == n && (forall j :: 0 <= j < n ==> rec.elements[j] == nft.render(elems[j]))
            && rec.elementCount == |elems|
            && (rec.truncated <==> n < |elems|)
  {
    assert FilledAt(nft, sets, order, cap, out, i);
    NothingIsWasted(nft, order[..i], cap);
  }

  /** Exactly when the flag tells the truth about a set: not when the budget is spent and the
      set is empty, nor when a set with elements could not be fetched. */
  lemma FlagIsRightIff(nft: Nft, sets: map<string, SetRecord>, order: seq<string>, cap: nat,
                       out: map<string, SetRecord>, i: nat)
    requires FilledBy(nft, sets, order, cap, out) && i < |order| && cap > 0
    ensures var rec, k, spent := out[order[i]], order[i], Wanted(nft, order[..i], cap) >= BUDGET;
            (rec.truncated <==> |rec.elements| < rec.elementCount) <==>
            (if spent then sets[k].elementCount > 0
             else nft.fetch(k).FetchFailed? ==> sets[k].elementCount == 0)
  {
    assert FilledAt(nft, sets, order, cap, out, i);
    NothingIsWasted(nft, order[..i], cap);
  }

  /** The two ways the flag is wrong. One set takes the whole budget and the next, which is empty,
      is flagged; a set with elements that cannot be fetched is not. */
  lemma FlagGoesWrong()
    ensures var full := seq(BUDGET, i => "e");
            var nft := Nft(k => if k == "a" then Fetched(full) else Fetched([]), e => e);
            var sets := map["a" := SetRecord(BUDGET, [], false), "b" := SetRecord(0, [], false)];
            var out := map["a" := SetRecord(BUDGET, full, false), "b" := SetRecord(0, [], true)];
            FilledBy(nft, sets, ["a", "b"], HARD_CAP, out) && out["b"].truncated && out["b"].elementCount == 0
    ensures var nft := Nft(k => FetchFailed, e => e);
            var sets := map["a" := SetRecord(5, [], false)];
            FilledBy(nft, sets, ["a"], HARD_CAP, sets) && !sets["a"].truncated && sets["a"].elementCount == 5
  {
    var full := seq(BUDGET, i => "e");
    var nft := Nft(k => if k == "a" then Fetched(full) else Fetched([]), e => e);
    var order := ["a", "b"];
    assert order[..1] == ["a"] && order[..0] == [] && ["a"][..0] == [];
    assert Used(nft, ["a"], HARD_CAP) == BUDGET;
    assert Rendered(nft, full, BUDGET) == full;
  }

  /** Every set visited with the budget spent is flagged, and shows nothing. */
  lemma SpentBudgetFlags(nft: Nft, sets: map<string, SetRecord>, order: seq<string>, cap: nat,
                         out: map<string, SetRecord>, i: nat)
    requires FilledBy(nft, sets, order, cap, out) && i < |order|
    requires Wanted(nft, order[..i], cap) >= BUDGET
    ensures out[order[i]] == sets[order[i]].(truncated := true)
  {
    assert FilledAt(nft, sets, order, cap, out, i);
    NothingIsWasted(nft, order[..i], cap);
  }

  /** The i-th set is `k`, is asked for while budget is left, and is not answered. */
  predicate AskedInVain(nft: Nft, order: seq<string>, cap: nat, k: string, i: nat) {
    i < |order| && order[i] == k && nft.fetch(k).FetchFailed? && Wanted(nft, order[..i], cap) < BUDGET
  }

  lemma PrefixOfFront(order: seq<string>, i: nat)
    requires i < |order|
    ensures order[..|order| - 1][..i] == order[..i]
  {
  }

  /** The warnings name the sets asked for in vain, and no others. */
  lemma {:induction false} WarnedAre(nft: Nft, order: seq<string>, cap: nat, k: string)
    ensures k in Warned(nft, order, cap) <==> exists i :: AskedInVain(nft, order, cap, k, i)
    decreases |order|
  {
    if |order| > 0 {
      var n := |order| - 1;
      var front := order[..n];
      WarnedAre(nft, front, cap, k);
      NothingIsWasted(nft, front, cap);
      forall i: nat | i < |order| ensures AskedInVain(nft, order, cap, k, i) <==>
          AskedInVain(nft, front, cap, k, i) || (i == n && AskedInVain(nft, order, cap, k, n)) {
        PrefixOfFront(order, i);
      }
      assert AskedInVain(nft, order, cap, k, n) <==> k in [order[n]] && nft.fetch(k).FetchFailed? && Used(nft, front, cap) < BUDGET;
    }
  }

  /** A set that is asked for in vain keeps its record. */
  lemma FailedFetchChangesNothing(nft: Nft, sets: map<string, SetRecord>, order: seq<string>, cap: nat,
                                  out: map<string, SetRecord>, i: nat)
    requires FilledBy(nft, sets, order, cap, out) && i < |order| && cap > 0
    requires nft.fetch(order[i]).FetchFailed? && Wanted(nft, order[..i], cap) < BUDGET
    ensures out[order[i]] == sets[order[i]]
  {
    assert FilledAt(nft, sets, order, cap, out, i);
    NothingIsWasted(nft, order[..i], cap);
  }

  /** What a present ban set is given depends on the ban sets alone: sets the manifest does not
      name cannot take from them. */
  lemma BanSetsComeFirst(nft: Nft, bans: seq<string>, keys1: set<string>, keys2: set<string>,
                         order1: seq<string>, order2: seq<string>, cap: nat, i: nat)
    requires IsOrder(order1, keys1, bans) && IsOrder(order2, keys2, bans)
    requires forall k :: k in bans ==> (k in keys1 <==> k in keys2)
    requires i < |BanFirst(bans, keys1)|
    ensures i < |order1| && i < |order2| && order1[i] == order2[i]
    ensures Used(nft, order1[..i], cap) == Used(nft, order2[..i], cap)
  {
    SameBans(bans, keys1, keys2);
    var first := BanFirst(bans, keys1);
    assert order1[..i] == first[..i] == order2[..i];
  }

  lemma {:induction false} SameBans(bans: seq<string>, keys1: set<string>, keys2: set<string>)
    requires forall k :: k in bans ==> (k in keys1 <==> k in keys2)
    ensures BanFirst(bans, keys1) == BanFirst(bans, keys2)
    decreases |bans|
  {
    if |bans| > 0 {
      SameBans(bans[..|bans| - 1], keys1, keys2);
    }
  }
}
