/** The firewall_lookup operation: which set elements and which rules of an nftables ruleset
    concern an address or a CIDR.

    The ruleset is what `nft -j list ruleset` says, as datatypes: text that does not parse as
    an address, prefix or range is `OtherVal`. A concatenation, and the pair of a key and a value
    that a map lists, is `Compound` and stands for the addresses of its first component, the one
    its set's type is judged by. */
module FirewallLookup {
  import opened Common
  import opened Addresses
  import opened Strings

  const IPV4 := 32
  const IPV6 := 128

  predicate IsFamily(width: nat) {
    width == IPV4 || width == IPV6
  }

  type Address = a: Addr | ValidAddr(a) && IsFamily(a.width) witness Addr(32, 0)
  type LookupQuery = q: Query | ValidQuery(q) && IsFamily(q.Width()) witness AddrQuery(Addr(32, 0))

  datatype Value =
    | AddrVal(a: Address)
    | PrefixVal(p: Prefix)
    | RangeVal(lo: Address, hi: Address)
    | Compound(first: Value)
    | OtherVal

  /** An element, bare or inside nft's {"elem": ...} wrapper. */
  datatype Elem =
    | Bare(v: Value)
    | Wrapped(v: Value, expires: Option<int>, timeout: Option<int>)

  datatype NftSet = NftSet(family: string, table: string, name: string, elemType: string, elems: seq<Elem>)

  datatype Right = Literal(v: Value) | AnonSet(members: seq<Elem>) | SetRef(name: string)

  /** `Saddr` and `Daddr` are the ip/ip6 payload fields the lookup looks at. */
  datatype Field = Saddr | Daddr | OtherField

  datatype Expr = Match(field: Field, op: string, right: Right) | OtherExpr

  datatype Rule = Rule(family: string, table: string, chain: string, handle: int, exprs: seq<Expr>)

  datatype Entry = SetEntry(set_: NftSet) | RuleEntry(rule: Rule) | OtherEntry

  // ---------------------------------------------------------------- results

  datatype SetHitKind = SetMember | SetSubsetOverlap

  datatype SetHit = SetHit(kind: SetHitKind, nftSet: NftSet, elem: Elem)

  datatype MatchKind =
    | SaddrExact | DaddrExact | SaddrInSubnet | DaddrInSubnet
    | RuleSetMember | RuleSetOverlap

  /** What the rule's right-hand side matched with: a value, or a set by reference. */
  datatype Matched = MatchedValue(v: Value) | MatchedSet(name: string)

  /** A rule hit; the rule carries family, table, chain and handle, the expression the operator. */
  datatype RuleMatch = RuleMatch(kind: MatchKind, rule: Rule, expr: Expr, matched: Matched)

  datatype RhsKind = Exact | Subnet | ByReference

  datatype RuleHit = RuleHit(kind: RhsKind, matched: Matched)

  datatype SetIndex = SetIndex(hasMatch: bool, matchedAt: seq<SetHit>)

  // ---------------------------------------------------------------- the program's tests

  predicate ValueOverlaps(v: Value, q: LookupQuery) {
    match v
    case AddrVal(a) => AddrMatches(a, q)
    case PrefixVal(p) => ValidPrefix(p) && PrefixMatches(p, q)
    case RangeVal(lo, hi) => RangeMatches(lo, hi, q)
    case Compound(_) => false
    case OtherVal => false
  }

  /** The part of a set type before the first dot that is not in front. */
  function FirstComponent(t: string): string {
    var i := IndexOf(t, '.');
    if 0 < i < |t| then t[..i] else t
  }

  predicate TypeAccepts(t: string, width: nat) {
    FirstComponent(t) == if width == IPV6 then "ipv6_addr" else "ipv4_addr"
  }

  function HitKind(v: Value, q: LookupQuery): SetHitKind {
    if q.CidrQuery? || v.PrefixVal? || v.RangeVal? then SetSubsetOverlap else SetMember
  }

  function RhsKindOf(v: Value, q: LookupQuery): RhsKind {
    if q.CidrQuery? || !v.AddrVal? then Subnet else Exact
  }

  function KindOf(field: Field, kind: RhsKind, isCidr: bool): MatchKind {
    match kind
    case ByReference => if isCidr then RuleSetOverlap else RuleSetMember
    case Exact => if field == Saddr then SaddrExact else DaddrExact
    case Subnet => if field == Saddr then SaddrInSubnet else DaddrInSubnet
  }

  /** The hits of a set's elements, in order. */
  function HitsIn(s: NftSet, elems: seq<Elem>, q: LookupQuery): seq<SetHit> {
    if |elems| == 0 then []
    else
      var e := elems[|elems| - 1];
      HitsIn(s, elems[..|elems| - 1], q) +
      if ValueOverlaps(e.v, q) then [SetHit(HitKind(e.v, q), s, e)] else []
  }

  function IndexOfSet(s: NftSet, q: LookupQuery): SetIndex {
    if !TypeAccepts(s.elemType, q.Width()) then SetIndex(false, [])
    else
      var hits := HitsIn(s, s.elems, q);
      SetIndex(hits != [], hits)
  }

  function KeyOf(s: NftSet): string {
    SetKey(s.family, s.table, s.name)
  }

  /** Pass one: the index over all sets; a later set replaces an earlier one of the same key. */
  function IndexSets(entries: seq<Entry>, q: LookupQuery): map<string, SetIndex> {
    if |entries| == 0 then map[]
    else
      var rest, e := IndexSets(entries[..|entries| - 1], q), entries[|entries| - 1];
      if e.SetEntry? then rest[KeyOf(e.set_) := IndexOfSet(e.set_, q)] else rest
  }

  /** The first member that overlaps; the wrapper of a member is not looked into. */
  function FirstMember(members: seq<Elem>, q: LookupQuery): Option<Value> {
    if |members| == 0 then None
    else if members[0].Bare? && ValueOverlaps(members[0].v, q) then Some(members[0].v)
    else FirstMember(members[1..], q)
  }

  function EvaluateRight(right: Right, q: LookupQuery, rule: Rule, sets: map<string, SetIndex>): Option<RuleHit> {
    match right
    case SetRef(name) =>
      var key := SetKey(rule.family, rule.table, name);
      if key in sets && sets[key].hasMatch then Some(RuleHit(ByReference, MatchedSet(name))) else None
    case Literal(v) =>
      if ValueOverlaps(v, q) then Some(RuleHit(RhsKindOf(v, q), MatchedValue(v))) else None
    case AnonSet(members) =>
      var m := FirstMember(members, q);
      if m.Some? then Some(RuleHit(RhsKindOf(m.value, q), MatchedValue(m.value))) else None
  }

  function ExprMatch(rule: Rule, e: Expr, q: LookupQuery, sets: map<string, SetIndex>): seq<RuleMatch> {
    if e.OtherExpr? || e.field == OtherField then []
    else
      var hit := EvaluateRight(e.right, q, rule, sets);
      if hit.None? then []
      else [RuleMatch(KindOf(e.field, hit.value.kind, q.CidrQuery?), rule, e, hit.value.matched)]
  }

  function RuleMatches(rule: Rule, exprs: seq<Expr>, q: LookupQuery, sets: map<string, SetIndex>): seq<RuleMatch> {
    if |exprs| == 0 then []
    else RuleMatches(rule, exprs[..|exprs| - 1], q, sets) + ExprMatch(rule, exprs[|exprs| - 1], q, sets)
  }

  /** Pass two: the matches of all rules, in ruleset order. */
  function AllMatches(entries: seq<Entry>, q: LookupQuery, sets: map<string, SetIndex>): seq<RuleMatch> {
    if |entries| == 0 then []
    else
      var e := entries[|entries| - 1];
      AllMatches(entries[..|entries| - 1], q, sets) +
      if e.RuleEntry? then RuleMatches(e.rule, e.rule.exprs, q, sets) else []
  }

  /** The hits of all sets, set by set in key order. */
  function HitsByKey(keys: seq<string>, sets: map<string, SetIndex>): seq<SetHit>
    requires forall k :: k in keys ==> k in sets
  {
    if |keys| == 0 then []
    else HitsByKey(keys[..|keys| - 1], sets) + sets[keys[|keys| - 1]].matchedAt
  }

  // ---------------------------------------------------------------- the operation

  method IndexOneSet(s: NftSet, q: LookupQuery) returns (idx: SetIndex)
    ensures idx == IndexOfSet(s, q)
  {
    var has, hits := false, [];
    if TypeAccepts(s.elemType, q.Width()) {
      for i := 0 to |s.elems|
        invariant hits == HitsIn(s, s.elems[..i], q) && has == (hits != [])
      {
        assert s.elems[..i + 1][..i] == s.elems[..i];
        var v := s.elems[i].v;
        if ValueOverlaps(v, q) {
          has := true;
          hits := hits + [SetHit(HitKind(v, q), s, s.elems[i])];
        }
      }
      assert s.elems[..|s.elems|] == s.elems;
    }
    idx := SetIndex(has, hits);
  }

  method MatchRule(r: Rule, q: LookupQuery, sets: map<string, SetIndex>) returns (matches: seq<RuleMatch>)
    ensures matches == RuleMatches(r, r.exprs, q, sets)
  {
    matches := [];
    for i := 0 to |r.exprs|
      invariant matches == RuleMatches(r, r.exprs[..i], q, sets)
    {
      assert r.exprs[..i + 1][..i] == r.exprs[..i];
      matches := matches + ExprMatch(r, r.exprs[i], q, sets);
    }
    assert r.exprs[..|r.exprs|] == r.exprs;
  }

  method IndexAll(entries: seq<Entry>, q: LookupQuery) returns (sets: map<string, SetIndex>)
    ensures sets == IndexSets(entries, q)
  {
    sets := map[];
    for i := 0 to |entries|
      invariant sets == IndexSets(entries[..i], q)
    {
      assert entries[..i + 1][..i] == entries[..i];
      if entries[i].SetEntry? {
        var idx := IndexOneSet(entries[i].set_, q);
        sets := sets[KeyOf(entries[i].set_) := idx];
      }
    }
    assert entries[..|entries|] == entries;
  }

  method EmitHits(sets: map<string, SetIndex>) returns (keys: seq<string>, setHits: seq<SetHit>)
    ensures Ascending(keys) && Elements(keys) == sets.Keys && (forall k :: k in keys ==> k in sets)
    ensures setHits == HitsByKey(keys, sets)
  {
    keys := Sorted(sets.Keys);
    assert forall k :: k in keys ==> k in Elements(keys);
    setHits := [];
    for i := 0 to |keys|
      invariant setHits == HitsByKey(keys[..i], sets)
    {
      assert keys[..i + 1][..i] == keys[..i];
      setHits := setHits + sets[keys[i]].matchedAt;
    }
    assert keys[..|keys|] == keys;
  }

  method MatchAll(entries: seq<Entry>, q: LookupQuery, sets: map<string, SetIndex>) returns (matches: seq<RuleMatch>)
    ensures matches == AllMatches(entries, q, sets)
  {
    matches := [];
    for i := 0 to |entries|
      invariant matches == AllMatches(entries[..i], q, sets)
    {
      assert entries[..i + 1][..i] == entries[..i];
      if entries[i].RuleEntry? {
        var ms := MatchRule(entries[i].rule, q, sets);
        matches := matches + ms;
      }
    }
    assert entries[..|entries|] == entries;
  }

  /** Both passes over the ruleset. */
  method Lookup(entries: seq<Entry>, q: LookupQuery, includeElements: bool)
    returns (matches: seq<RuleMatch>, setHits: seq<SetHit>)
    ensures matches == AllMatches(entries, q, IndexSets(entries, q))
    ensures !includeElements ==> setHits == []
    ensures includeElements ==>
              exists keys :: Ascending(keys) && Elements(keys) == IndexSets(entries, q).Keys &&
                             (forall k :: k in keys ==> k in IndexSets(entries, q)) &&
                             setHits == HitsByKey(keys, IndexSets(entries, q))
  {
    var sets := IndexAll(entries, q);
    setHits := [];
    if includeElements {
      var keys;
      keys, setHits := EmitHits(sets);
    }
    matches := MatchAll(entries, q, sets);
  }

  // ---------------------------------------------------------------- what the answer should be

  /** The addresses a value stands for. */
  ghost predicate Denotes(v: Value, x: Addr) {
    match v
    case AddrVal(a) => x == a
    case PrefixVal(p) => ValidPrefix(p) && InPrefix(p, x)
    case RangeVal(lo, hi) => InRange(lo, hi, x)
    case Compound(first) => Denotes(first, x)
    case OtherVal => false
  }

  ghost predicate Meets(v: Value, q: LookupQuery) {
    exists x :: ValidAddr(x) && Denotes(v, x) && InQuery(q, x)
  }

  /** What is left of a value when all but its first component is dropped. */
  function Core(v: Value): Value {
    if v.Compound? then Core(v.first) else v
  }

  /** A range with its ends in order; nft never lists one reversed. */
  predicate Proper(v: Value) {
    var c := Core(v);
    c.RangeVal? && c.lo.width == c.hi.width ==> c.lo.bits <= c.hi.bits
  }

  /** The test the program would make of a value's first component. */
  predicate Touches(v: Value, q: LookupQuery) {
    ValueOverlaps(Core(v), q)
  }

  ghost predicate SomeMeets(elems: seq<Elem>, q: LookupQuery) {
    exists i :: 0 <= i < |elems| && Meets(elems[i].v, q)
  }

  /** What the right-hand side of a rule's match stands for shares an address with the query. */
  ghost predicate RightMeets(entries: seq<Entry>, rule: Rule, right: Right, q: LookupQuery) {
    match right
    case Literal(v) => Meets(v, q)
    case AnonSet(members) => SomeMeets(members, q)
    case SetRef(name) =>
      exists i :: 0 <= i < |entries| && Names(entries[i], rule, name) && SomeMeets(entries[i].set_.elems, q)
  }

  predicate Names(e: Entry, rule: Rule, name: string) {
    e.SetEntry? && e.set_.family == rule.family && e.set_.table == rule.table && e.set_.name == name
  }

  ghost function NaiveExpr(entries: seq<Entry>, rule: Rule, e: Expr, q: LookupQuery): seq<(Rule, Expr)> {
    if e.Match? && e.field != OtherField && RightMeets(entries, rule, e.right, q) then [(rule, e)] else []
  }

  /** The naive scan: every address match of every rule, in order, that meets the query. */
  ghost function NaiveRule(entries: seq<Entry>, rule: Rule, exprs: seq<Expr>, q: LookupQuery): seq<(Rule, Expr)> {
    if |exprs| == 0 then []
    else
      var e := exprs[|exprs| - 1];
      NaiveRule(entries, rule, exprs[..|exprs| - 1], q) + NaiveExpr(entries, rule, e, q)
  }

  ghost function NaiveScan(all: seq<Entry>, entries: seq<Entry>, q: LookupQuery): seq<(Rule, Expr)> {
    if |entries| == 0 then []
    else
      var e := entries[|entries| - 1];
      NaiveScan(all, entries[..|entries| - 1], q) +
      if e.RuleEntry? then NaiveRule(all, e.rule, e.rule.exprs, q) else []
  }

  /** Where the matches were found. */
  function Sites(ms: seq<RuleMatch>): seq<(Rule, Expr)> {
    seq(|ms|, i requires 0 <= i < |ms| => (ms[i].rule, ms[i].expr))
  }

  /** Every address of a set's elements is of the family its type declares. */
  ghost predicate Typed(s: NftSet) {
    forall i, x :: 0 <= i < |s.elems| && Denotes(s.elems[i].v, x) ==> TypeAccepts(s.elemType, x.width)
  }

  predicate ProperElems(elems: seq<Elem>) {
    forall i :: 0 <= i < |elems| ==> Proper(elems[i].v)
  }

  ghost predicate GoodSet(s: NftSet) {
    Typed(s) && ProperElems(s.elems)
  }

  ghost predicate GoodSets(entries: seq<Entry>) {
    forall i :: 0 <= i < |entries| && entries[i].SetEntry? ==> GoodSet(entries[i].set_)
  }

  predicate Keyed(e: Entry, key: string) {
    e.SetEntry? && KeyOf(e.set_) == key
  }

  predicate SameName(a: NftSet, b: NftSet) {
    a.family == b.family && a.table == b.table && a.name == b.name
  }

  /** No set is listed twice. */
  ghost predicate UniqueSets(entries: seq<Entry>) {
    forall i, j :: 0 <= i < j < |entries| && entries[i].SetEntry? && entries[j].SetEntry? ==>
      !SameName(entries[i].set_, entries[j].set_)
  }

  ghost predicate DistinctKeys(entries: seq<Entry>) {
    forall i, j :: 0 <= i < j < |entries| && entries[i].SetEntry? && entries[j].SetEntry? ==>
      KeyOf(entries[i].set_) != KeyOf(entries[j].set_)
  }

  /** The last set listed with a key. */
  function LastKeyed(entries: seq<Entry>, key: string): Option<NftSet> {
    if |entries| == 0 then None
    else if Keyed(Last(entries), key) then Some(Last(entries).set_)
    else LastKeyed(Front(entries), key)
  }

  /** The set a rule's reference finds. */
  function Found(entries: seq<Entry>, rule: Rule, name: string): Option<NftSet> {
    LastKeyed(entries, SetKey(rule.family, rule.table, name))
  }

  /** The set a reference finds, if any, is the one it names. */
  predicate FindsItsOwn(entries: seq<Entry>, rule: Rule, name: string) {
    var last := Found(entries, rule, name);
    last.None? || Names(SetEntry(last.value), rule, name)
  }

  predicate GoodRight(entries: seq<Entry>, rule: Rule, right: Right) {
    match right
    case Literal(v) => Proper(v)
    case AnonSet(members) => ProperElems(members)
    case SetRef(name) => FindsItsOwn(entries, rule, name)
  }

  predicate GoodRule(entries: seq<Entry>, r: Rule) {
    forall i :: 0 <= i < |r.exprs| && r.exprs[i].Match? ==> GoodRight(entries, r, r.exprs[i].right)
  }

  predicate GoodRules(all: seq<Entry>, entries: seq<Entry>) {
    forall i :: 0 <= i < |entries| && entries[i].RuleEntry? ==> GoodRule(all, entries[i].rule)
  }

  /** What nft guarantees of its listing, and that references find the sets they name. */
  ghost predicate GoodRuleset(entries: seq<Entry>) {
    GoodSets(entries) && UniqueSets(entries) && GoodRules(entries, entries)
  }

  // ---------------------------------------------------------------- blind spots

  /** Some element overlaps the query as it is; as it is and bare. */
  predicate SomeSeen(elems: seq<Elem>, q: LookupQuery) {
    exists i :: 0 <= i < |elems| && ValueOverlaps(elems[i].v, q)
  }

  predicate SomeBare(elems: seq<Elem>, q: LookupQuery) {
    exists i :: 0 <= i < |elems| && elems[i].Bare? && ValueOverlaps(elems[i].v, q)
  }

  /** Some compound element does by its first component; some wrapped or compound one does. */
  predicate SomeHidden(elems: seq<Elem>, q: LookupQuery) {
    exists i :: 0 <= i < |elems| && elems[i].v.Compound? && Touches(elems[i].v, q)
  }

  predicate SomeCovered(elems: seq<Elem>, q: LookupQuery) {
    exists i :: 0 <= i < |elems| && (elems[i].Wrapped? || elems[i].v.Compound?) && Touches(elems[i].v, q)
  }

  /** What is never seen: a compound value; an anonymous set that concerns the query by wrapped or
      compound members only; a named set that does by compound elements only. */
  predicate Missed(entries: seq<Entry>, rule: Rule, right: Right, q: LookupQuery) {
    match right
    case Literal(v) => v.Compound? && Touches(v, q)
    case AnonSet(members) => SomeCovered(members, q) && !SomeBare(members, q)
    case SetRef(name) =>
      var last := Found(entries, rule, name);
      last.Some? && SomeHidden(last.value.elems, q) && !SomeSeen(last.value.elems, q)
  }

  predicate MissedExpr(entries: seq<Entry>, rule: Rule, e: Expr, q: LookupQuery) {
    e.Match? && e.field != OtherField && Missed(entries, rule, e.right, q)
  }

  predicate MissesIn(entries: seq<Entry>, rule: Rule, exprs: seq<Expr>, q: LookupQuery) {
    exists i :: 0 <= i < |exprs| && MissedExpr(entries, rule, exprs[i], q)
  }

  predicate MissesRule(all: seq<Entry>, e: Entry, q: LookupQuery) {
    e.RuleEntry? && MissesIn(all, e.rule, e.rule.exprs, q)
  }

  predicate Misses(all: seq<Entry>, entries: seq<Entry>, q: LookupQuery) {
    exists i :: 0 <= i < |entries| && MissesRule(all, entries[i], q)
  }

  // ---------------------------------------------------------------- the two passes are the naive scan

  /** The tests decide a shared address, for a value that is not compound. */
  lemma OverlapIsMeeting(v: Value, q: LookupQuery)
    requires Proper(v) && !v.Compound?
    ensures ValueOverlaps(v, q) <==> Meets(v, q)
  {
    match v
    case AddrVal(a) =>
      AddrMatchesExact(a, q);
      if ValueOverlaps(v, q) {
        assert ValidAddr(a) && Denotes(v, a) && InQuery(q, a);
      }
    case PrefixVal(p) =>
      if ValidPrefix(p) {
        PrefixMatchesExact(p, q);
        if x :| ValidAddr(x) && InPrefix(p, x) && InQuery(q, x) {
          assert Denotes(v, x);
        }
      }
    case RangeVal(lo, hi) =>
      RangeMatchesExact(lo, hi, q);
      if x :| ValidAddr(x) && InRange(lo, hi, x) && InQuery(q, x) {
        assert Denotes(v, x);
      }
    case OtherVal =>
  }

  lemma {:induction false} CoreDenotes(v: Value)
    ensures !Core(v).Compound? && Core(Core(v)) == Core(v) && forall x :: Denotes(Core(v), x) <==> Denotes(v, x)
    decreases v
  {
    if v.Compound? {
      CoreDenotes(v.first);
    }
  }

  /** A value meets the query exactly when its first component overlaps it. */
  lemma TouchIsMeeting(v: Value, q: LookupQuery)
    requires Proper(v)
    ensures Touches(v, q) <==> Meets(v, q)
    ensures ValueOverlaps(v, q) <==> !v.Compound? && Meets(v, q)
  {
    CoreDenotes(v);
    OverlapIsMeeting(Core(v), q);
    if x :| ValidAddr(x) && Denotes(Core(v), x) && InQuery(q, x) {
      assert Denotes(v, x);
    }
    if x :| ValidAddr(x) && Denotes(v, x) && InQuery(q, x) {
      assert Denotes(Core(v), x);
    }
  }

  lemma InQueryFamily(q: LookupQuery, x: Addr)
    requires InQuery(q, x)
    ensures x.width == q.Width()
  {
  }

  lemma SomeSeenFront(elems: seq<Elem>, q: LookupQuery)
    requires |elems| > 0
    ensures SomeSeen(elems, q) <==> SomeSeen(elems[..|elems| - 1], q) || ValueOverlaps(elems[|elems| - 1].v, q)
  {
    var front := elems[..|elems| - 1];
    if i :| 0 <= i < |front| && ValueOverlaps(front[i].v, q) {
      assert ValueOverlaps(elems[i].v, q);
    }
    if i :| 0 <= i < |elems| && ValueOverlaps(elems[i].v, q) {
      assert i < |front| ==> ValueOverlaps(front[i].v, q);
    }
  }

  lemma {:induction false} HitsSeen(s: NftSet, elems: seq<Elem>, q: LookupQuery)
    ensures HitsIn(s, elems, q) != [] <==> SomeSeen(elems, q)
    decreases |elems|
  {
    if |elems| > 0 {
      HitsSeen(s, elems[..|elems| - 1], q);
      SomeSeenFront(elems, q);
    }
  }

  /** What a query's family is called in set types. */
  function FamilyName(q: LookupQuery): string {
    if q.Width() == IPV6 then "ipv6_addr" else "ipv4_addr"
  }

  /** A set is looked into only if its type is the query's family or a concatenation that begins
      with it; any other is no match, whatever its elements look like. */
  lemma OtherTypesNeverHit(s: NftSet, q: LookupQuery)
    ensures s.elemType != FamilyName(q) && !(FamilyName(q) + "." <= s.elemType) ==>
              !IndexOfSet(s, q).hasMatch && IndexOfSet(s, q).matchedAt == []
    ensures s.elemType == FamilyName(q) || FamilyName(q) + "." <= s.elemType ==>
              IndexOfSet(s, q).matchedAt == HitsIn(s, s.elems, q)
  {
    var t, name := s.elemType, FamilyName(q);
    TypeBegins(t, name);
  }

  lemma TypeBegins(t: string, name: string)
    requires name != "" && '.' !in name
    ensures FirstComponent(t) == name <==> t == name || name + "." <= t
  {
    var i := IndexOf(t, '.');
    if name + "." <= t {
      assert t[|name|] == '.' && t[..|name|] == name;
      assert i == |name| by { FirstDot(t, |name|); }
    }
    if t == name {
      assert i == |t|;
    }
    if FirstComponent(t) == name && t != name {
      assert t[..i] == name && t[i] == '.' && t[..i + 1] == name + ".";
    }
  }

  lemma FirstDot(t: string, n: nat)
    requires n < |t| && t[n] == '.' && '.' !in t[..n]
    ensures IndexOf(t, '.') == n
  {
    assert forall j :: 0 <= j < n ==> t[j] == t[..n][j];
  }

  /** The family pre-filter loses nothing on a well-typed set. */
  lemma IndexSeen(s: NftSet, q: LookupQuery)
    requires GoodSet(s)
    ensures IndexOfSet(s, q).hasMatch <==> SomeSeen(s.elems, q)
  {
    HitsSeen(s, s.elems, q);
    if i :| 0 <= i < |s.elems| && ValueOverlaps(s.elems[i].v, q) {
      TouchIsMeeting(s.elems[i].v, q);
      var x :| ValidAddr(x) && Denotes(s.elems[i].v, x) && InQuery(q, x);
      InQueryFamily(q, x);
    }
  }

  /** What the elements of a list stand for meets the query in the open or under cover. */
  lemma SeenOrHidden(elems: seq<Elem>, q: LookupQuery)
    requires ProperElems(elems)
    ensures SomeMeets(elems, q) <==> SomeSeen(elems, q) || SomeHidden(elems, q)
    ensures SomeMeets(elems, q) <==> SomeBare(elems, q) || SomeCovered(elems, q)
  {
    forall i | 0 <= i < |elems|
      ensures Touches(elems[i].v, q) <==> Meets(elems[i].v, q)
      ensures ValueOverlaps(elems[i].v, q) <==> !elems[i].v.Compound? && Meets(elems[i].v, q)
    {
      TouchIsMeeting(elems[i].v, q);
    }
    if i :| 0 <= i < |elems| && Meets(elems[i].v, q) {
      assert Touches(elems[i].v, q);
    }
  }

  /** Exactly when the index says rightly whether a set concerns the query: an element does as it
      is, or no compound one does by its first component. */
  lemma IndexExact(s: NftSet, q: LookupQuery)
    requires GoodSet(s)
    ensures IndexOfSet(s, q).hasMatch ==> SomeMeets(s.elems, q)
    ensures (IndexOfSet(s, q).hasMatch <==> SomeMeets(s.elems, q)) <==>
            SomeSeen(s.elems, q) || !SomeHidden(s.elems, q)
  {
    IndexSeen(s, q);
    SeenOrHidden(s.elems, q);
  }

  // ---------------------------------------------------------------- references

  /** The index holds, under each key, the last set listed with it. */
  lemma {:induction false} IndexHolds(entries: seq<Entry>, q: LookupQuery, key: string)
    ensures var last, sets := LastKeyed(entries, key), IndexSets(entries, q);
            (key in sets <==> last.Some?) && (last.Some? ==> sets[key] == IndexOfSet(last.value, q))
    decreases |entries|
  {
    if |entries| > 0 {
      IndexHolds(Front(entries), q, key);
    }
  }

  lemma {:induction false} LastKeyedIsListed(entries: seq<Entry>, key: string)
    ensures var last := LastKeyed(entries, key);
            && (last.None? ==> forall i :: 0 <= i < |entries| ==> !Keyed(entries[i], key))
            && (last.Some? ==> SetEntry(last.value) in entries && KeyOf(last.value) == key)
    decreases |entries|
  {
    if |entries| > 0 {
      LastKeyedIsListed(Front(entries), key);
      assert entries == Front(entries) + [Last(entries)];
    }
  }

  /** A reference is a hit. */
  predicate RefHits(entries: seq<Entry>, rule: Rule, name: string, q: LookupQuery) {
    EvaluateRight(SetRef(name), q, rule, IndexSets(entries, q)).Some?
  }

  /** A set reference hits exactly when the last set listed with its key is seen to concern the
      query. */
  lemma RefHitsLast(entries: seq<Entry>, rule: Rule, name: string, q: LookupQuery)
    requires GoodSets(entries)
    ensures var last := Found(entries, rule, name);
            && (last.Some? ==> GoodSet(last.value))
            && (RefHits(entries, rule, name, q) <==> last.Some? && SomeSeen(last.value.elems, q))
  {
    var key := SetKey(rule.family, rule.table, name);
    IndexHolds(entries, q, key);
    LastKeyedIsListed(entries, key);
    if LastKeyed(entries, key).Some? {
      var i :| 0 <= i < |entries| && entries[i] == SetEntry(LastKeyed(entries, key).value);
      IndexSeen(entries[i].set_, q);
    }
  }

  /** If a reference finds the set it names, that is the only one of the name, or there is none. */
  lemma FoundIsNamed(entries: seq<Entry>, rule: Rule, name: string, q: LookupQuery)
    requires UniqueSets(entries) && FindsItsOwn(entries, rule, name)
    ensures var last := Found(entries, rule, name);
            RightMeets(entries, rule, SetRef(name), q) <==> last.Some? && SomeMeets(last.value.elems, q)
  {
    var key := SetKey(rule.family, rule.table, name);
    var last := Found(entries, rule, name);
    LastKeyedIsListed(entries, key);
    if last.Some? {
      var j :| 0 <= j < |entries| && entries[j] == SetEntry(last.value);
      assert Names(entries[j], rule, name);
      forall i | 0 <= i < |entries| && Names(entries[i], rule, name) ensures i == j {
        assert SameName(entries[i].set_, entries[j].set_);
      }
    } else {
      forall i | 0 <= i < |entries| ensures !Names(entries[i], rule, name) {
        assert !Keyed(entries[i], key);
      }
    }
  }

  /** A reference that finds the set it names hits only if that set meets the query, and is missed
      exactly when the set does so by compound elements only. */
  lemma RefExact(entries: seq<Entry>, rule: Rule, name: string, q: LookupQuery)
    requires GoodSets(entries) && UniqueSets(entries) && FindsItsOwn(entries, rule, name)
    ensures var meets := RightMeets(entries, rule, SetRef(name), q);
            && (RefHits(entries, rule, name, q) ==> meets)
            && ((RefHits(entries, rule, name, q) <==> meets) <==> !Missed(entries, rule, SetRef(name), q))
  {
    RefHitsLast(entries, rule, name, q);
    FoundIsNamed(entries, rule, name, q);
    var last := Found(entries, rule, name);
    if last.Some? {
      SeenOrHidden(last.value.elems, q);
    }
  }

  // ---- exactly when a reference is always answered rightly

  /** Some element stands for the address; some that is not compound does. */
  ghost predicate Holds(elems: seq<Elem>, x: Addr) {
    exists i :: 0 <= i < |elems| && Denotes(elems[i].v, x)
  }

  ghost predicate Shows(elems: seq<Elem>, x: Addr) {
    exists i :: 0 <= i < |elems| && !elems[i].v.Compound? && Denotes(elems[i].v, x)
  }

  /** A set of the name a rule refers to holds the address. */
  ghost predicate NamedHolds(entries: seq<Entry>, rule: Rule, name: string, x: Addr) {
    exists i :: 0 <= i < |entries| && Names(entries[i], rule, name) && Holds(entries[i].set_.elems, x)
  }

  /** The set a reference finds shows the address. */
  ghost predicate FoundShows(entries: seq<Entry>, rule: Rule, name: string, x: Addr) {
    var last := Found(entries, rule, name);
    last.Some? && Shows(last.value.elems, x)
  }

  lemma SeenByAddress(elems: seq<Elem>, q: LookupQuery)
    requires ProperElems(elems)
    ensures SomeSeen(elems, q) <==> exists x: Address :: InQuery(q, x) && Shows(elems, x)
  {
    if i :| 0 <= i < |elems| && ValueOverlaps(elems[i].v, q) {
      TouchIsMeeting(elems[i].v, q);
      var x :| ValidAddr(x) && Denotes(elems[i].v, x) && InQuery(q, x);
      InQueryFamily(q, x);
      assert Shows(elems, x);
    }
    if x: Address :| InQuery(q, x) && Shows(elems, x) {
      var i :| 0 <= i < |elems| && !elems[i].v.Compound? && Denotes(elems[i].v, x);
      assert ValidAddr(x) && Denotes(elems[i].v, x) && InQuery(q, x);
      TouchIsMeeting(elems[i].v, q);
    }
  }

  lemma MeetsByAddress(elems: seq<Elem>, q: LookupQuery)
    ensures SomeMeets(elems, q) <==> exists x: Address :: InQuery(q, x) && Holds(elems, x)
  {
    if i :| 0 <= i < |elems| && Meets(elems[i].v, q) {
      var x :| ValidAddr(x) && Denotes(elems[i].v, x) && InQuery(q, x);
      InQueryFamily(q, x);
      assert Holds(elems, x);
    }
    if x: Address :| InQuery(q, x) && Holds(elems, x) {
      var i :| 0 <= i < |elems| && Denotes(elems[i].v, x);
      assert ValidAddr(x) && Denotes(elems[i].v, x) && InQuery(q, x);
    }
  }

  /** A reference hits iff the set it finds shows an address of the query, and ought to hit iff a
      set of its name holds one. */
  lemma RefByAddress(entries: seq<Entry>, rule: Rule, name: string, q: LookupQuery)
    requires GoodSets(entries)
    ensures RefHits(entries, rule, name, q) <==>
            exists x: Address :: InQuery(q, x) && FoundShows(entries, rule, name, x)
    ensures RightMeets(entries, rule, SetRef(name), q) <==>
            exists x: Address :: InQuery(q, x) && NamedHolds(entries, rule, name, x)
  {
    RefHitsLast(entries, rule, name, q);
    var last := Found(entries, rule, name);
    if last.Some? {
      SeenByAddress(last.value.elems, q);
      if x: Address :| InQuery(q, x) && Shows(last.value.elems, x) {
        assert FoundShows(entries, rule, name, x);
      }
      if x: Address :| InQuery(q, x) && FoundShows(entries, rule, name, x) {
        assert Shows(last.value.elems, x);
      }
    }
    NamedByAddress(entries, rule, name, q);
  }

  lemma NamedByAddress(entries: seq<Entry>, rule: Rule, name: string, q: LookupQuery)
    ensures RightMeets(entries, rule, SetRef(name), q) <==>
            exists x: Address :: InQuery(q, x) && NamedHolds(entries, rule, name, x)
  {
    if i :| 0 <= i < |entries| && Names(entries[i], rule, name) && SomeMeets(entries[i].set_.elems, q) {
      MeetsByAddress(entries[i].set_.elems, q);
      var x: Address :| InQuery(q, x) && Holds(entries[i].set_.elems, x);
      assert NamedHolds(entries, rule, name, x);
    }
    if x: Address :| InQuery(q, x) && NamedHolds(entries, rule, name, x) {
      var i :| 0 <= i < |entries| && Names(entries[i], rule, name) && Holds(entries[i].set_.elems, x);
      MeetsByAddress(entries[i].set_.elems, q);
    }
  }

  /** Exactly when a reference is answered rightly whatever is asked: the set it finds, the last
      listed with its key, shows the very addresses that the sets of its name hold. */
  lemma RefAnsweredIff(entries: seq<Entry>, rule: Rule, name: string)
    requires GoodSets(entries)
    ensures (forall q: LookupQuery :: RefHits(entries, rule, name, q) <==> RightMeets(entries, rule, SetRef(name), q))
            <==>
            (forall x: Address :: FoundShows(entries, rule, name, x) <==> NamedHolds(entries, rule, name, x))
  {
    if forall x: Address :: FoundShows(entries, rule, name, x) <==> NamedHolds(entries, rule, name, x) {
      forall q: LookupQuery
        ensures RefHits(entries, rule, name, q) <==> RightMeets(entries, rule, SetRef(name), q)
      {
        RefByAddress(entries, rule, name, q);
      }
    }
    if forall q: LookupQuery :: RefHits(entries, rule, name, q) <==> RightMeets(entries, rule, SetRef(name), q) {
      forall x: Address ensures FoundShows(entries, rule, name, x) <==> NamedHolds(entries, rule, name, x) {
        var q: LookupQuery := AddrQuery(x);
        assert RefHits(entries, rule, name, q) <==> RightMeets(entries, rule, SetRef(name), q);
        RefByAddress(entries, rule, name, q);
        assert InQuery(q, x);
      }
    }
  }

  /** A reference to a listed set finds it if no two sets share a key, slashes or not. */
  lemma ResolvedFindsItsOwn(entries: seq<Entry>, rule: Rule, name: string, i: nat)
    requires DistinctKeys(entries) && i < |entries| && Names(entries[i], rule, name)
    ensures FindsItsOwn(entries, rule, name)
  {
    var key := SetKey(rule.family, rule.table, name);
    LastKeyedIsListed(entries, key);
    assert Keyed(entries[i], key);
    var j :| 0 <= j < |entries| && entries[j] == SetEntry(LastKeyed(entries, key).value);
    assert KeyOf(entries[j].set_) == KeyOf(entries[i].set_);
  }

  /** Sets of different names share no key if no family or table name holds a slash. */
  lemma NoSlashNoSharedKey(entries: seq<Entry>)
    requires UniqueSets(entries)
    requires forall i :: 0 <= i < |entries| && entries[i].SetEntry? ==>
               '/' !in entries[i].set_.family && '/' !in entries[i].set_.table
    ensures DistinctKeys(entries)
  {
    forall i, j | 0 <= i < j < |entries| && entries[i].SetEntry? && entries[j].SetEntry?
      ensures KeyOf(entries[i].set_) != KeyOf(entries[j].set_)
    {
      var a, b := entries[i].set_, entries[j].set_;
      if KeyOf(a) == KeyOf(b) {
        SetKeyInjective(a.family, a.table, a.name, b.family, b.table, b.name);
      }
    }
  }

  /** With slashes two sets can share a key, and then a reference to the first is missed. */
  lemma SharedKeyIsMissed(a: Address)
    ensures var s1 := NftSet("ip", "a/b", "c", if a.width == IPV6 then "ipv6_addr" else "ipv4_addr", [Bare(AddrVal(a))]);
            var s2 := NftSet("ip", "a", "b/c", "ipv4_addr", []);
            var rule := Rule("ip", "a/b", "input", 1, []);
            var entries := [SetEntry(s1), SetEntry(s2)];
            && RightMeets(entries, rule, SetRef("c"), AddrQuery(a))
            && !RefHits(entries, rule, "c", AddrQuery(a))
  {
    var s1 := NftSet("ip", "a/b", "c", if a.width == IPV6 then "ipv6_addr" else "ipv4_addr", [Bare(AddrVal(a))]);
    var s2 := NftSet("ip", "a", "b/c", "ipv4_addr", []);
    var rule, q := Rule("ip", "a/b", "input", 1, []), AddrQuery(a);
    var entries := [SetEntry(s1), SetEntry(s2)];
    assert ValidAddr(a) && Denotes(s1.elems[0].v, a) && InQuery(q, a);
    assert Meets(s1.elems[0].v, q) && Names(entries[0], rule, "c");
    assert KeyOf(s2) == SetKey("ip", "a/b", "c") == "ip/a/b/c";
    assert LastKeyed(entries, "ip/a/b/c") == Some(s2);
    IndexHolds(entries, q, "ip/a/b/c");
  }

  // ---- right-hand sides

  /** An anonymous set hits exactly when one of its bare members overlaps the query. */
  lemma {:induction false} FirstMemberSeen(members: seq<Elem>, q: LookupQuery)
    ensures FirstMember(members, q).Some? <==> SomeBare(members, q)
    decreases |members|
  {
    if |members| > 0 {
      var tail := members[1..];
      FirstMemberSeen(tail, q);
      if i :| 0 <= i < |tail| && tail[i].Bare? && ValueOverlaps(tail[i].v, q) {
        assert members[i + 1] == tail[i];
      }
      if i :| 0 <= i < |members| && members[i].Bare? && ValueOverlaps(members[i].v, q) {
        assert i > 0 ==> tail[i - 1] == members[i];
      }
    }
  }

  /** Exactly when an anonymous set is answered as it should be: a bare member overlaps the query,
      or no wrapped or compound one does. */
  lemma AnonSetAnsweredIff(members: seq<Elem>, q: LookupQuery, rule: Rule, sets: map<string, SetIndex>)
    requires ProperElems(members)
    ensures (EvaluateRight(AnonSet(members), q, rule, sets).Some? <==> SomeMeets(members, q))
            <==> SomeBare(members, q) || !SomeCovered(members, q)
    ensures EvaluateRight(AnonSet(members), q, rule, sets).Some? ==> SomeMeets(members, q)
  {
    FirstMemberSeen(members, q);
    SeenOrHidden(members, q);
  }

  /** A right-hand side hits only if it meets the query, and is missed exactly in a blind spot. */
  lemma RightExact(entries: seq<Entry>, rule: Rule, right: Right, q: LookupQuery)
    requires GoodSets(entries) && UniqueSets(entries) && GoodRight(entries, rule, right)
    ensures var hit := EvaluateRight(right, q, rule, IndexSets(entries, q)).Some?;
            && (hit ==> RightMeets(entries, rule, right, q))
            && ((hit <==> RightMeets(entries, rule, right, q)) <==> !Missed(entries, rule, right, q))
  {
    match right
    case SetRef(name) => RefExact(entries, rule, name, q);
    case Literal(v) => TouchIsMeeting(v, q);
    case AnonSet(members) => AnonSetAnsweredIff(members, q, rule, IndexSets(entries, q));
  }

  lemma SitesAppend(a: seq<RuleMatch>, b: seq<RuleMatch>)
    ensures Sites(a + b) == Sites(a) + Sites(b)
  {
  }

  /** `found` is `wanted`, unless something is missed: then it is shorter. */
  predicate FoundUnless<T(==)>(missed: bool, found: seq<T>, wanted: seq<T>) {
    if missed then |found| < |wanted| else found == wanted
  }

  lemma FoundAppend<T>(m: bool, found: seq<T>, wanted: seq<T>, m': bool, found': seq<T>, wanted': seq<T>)
    requires FoundUnless(m, found, wanted) && FoundUnless(m', found', wanted')
    ensures FoundUnless(m || m', found + found', wanted + wanted')
  {
  }

  lemma ExprExact(entries: seq<Entry>, rule: Rule, e: Expr, q: LookupQuery)
    requires GoodSets(entries) && UniqueSets(entries) && (e.Match? ==> GoodRight(entries, rule, e.right))
    ensures FoundUnless(MissedExpr(entries, rule, e, q), Sites(ExprMatch(rule, e, q, IndexSets(entries, q))),
                        NaiveExpr(entries, rule, e, q))
  {
    if e.Match? {
      RightExact(entries, rule, e.right, q);
    }
  }

  lemma {:induction false} RuleExact(entries: seq<Entry>, rule: Rule, exprs: seq<Expr>, q: LookupQuery)
    requires GoodSets(entries) && UniqueSets(entries)
    requires forall i :: 0 <= i < |exprs| && exprs[i].Match? ==> GoodRight(entries, rule, exprs[i].right)
    ensures FoundUnless(MissesIn(entries, rule, exprs, q), Sites(RuleMatches(rule, exprs, q, IndexSets(entries, q))),
                        NaiveRule(entries, rule, exprs, q))
    decreases |exprs|
  {
    if |exprs| > 0 {
      var n, sets := |exprs| - 1, IndexSets(entries, q);
      RuleExact(entries, rule, exprs[..n], q);
      SitesAppend(RuleMatches(rule, exprs[..n], q, sets), ExprMatch(rule, exprs[n], q, sets));
      ExprExact(entries, rule, exprs[n], q);
      FoundAppend(MissesIn(entries, rule, exprs[..n], q), Sites(RuleMatches(rule, exprs[..n], q, sets)),
                  NaiveRule(entries, rule, exprs[..n], q),
                  MissedExpr(entries, rule, exprs[n], q), Sites(ExprMatch(rule, exprs[n], q, sets)),
                  NaiveExpr(entries, rule, exprs[n], q));
      MissesInFront(entries, rule, exprs, q);
    }
  }

  lemma MissesInFront(entries: seq<Entry>, rule: Rule, exprs: seq<Expr>, q: LookupQuery)
    requires |exprs| > 0
    ensures MissesIn(entries, rule, exprs, q) <==>
            MissesIn(entries, rule, exprs[..|exprs| - 1], q) || MissedExpr(entries, rule, exprs[|exprs| - 1], q)
  {
    var front := exprs[..|exprs| - 1];
    if i :| 0 <= i < |front| && MissedExpr(entries, rule, front[i], q) {
      assert MissedExpr(entries, rule, exprs[i], q);
    }
    if i :| 0 <= i < |exprs| && MissedExpr(entries, rule, exprs[i], q) {
      assert i < |front| ==> MissedExpr(entries, rule, front[i], q);
    }
  }

  lemma MissesFront(all: seq<Entry>, entries: seq<Entry>, q: LookupQuery)
    requires |entries| > 0
    ensures Misses(all, entries, q) <==>
            Misses(all, entries[..|entries| - 1], q) || MissesRule(all, entries[|entries| - 1], q)
  {
    var front := entries[..|entries| - 1];
    if i :| 0 <= i < |front| && MissesRule(all, front[i], q) {
      assert MissesRule(all, entries[i], q);
    }
    if i :| 0 <= i < |entries| && MissesRule(all, entries[i], q) {
      assert i < |front| ==> MissesRule(all, front[i], q);
    }
  }

  lemma {:induction false} ScanExact(all: seq<Entry>, entries: seq<Entry>, q: LookupQuery)
    requires GoodSets(all) && UniqueSets(all) && GoodRules(all, entries)
    ensures FoundUnless(Misses(all, entries, q), Sites(AllMatches(entries, q, IndexSets(all, q))),
                        NaiveScan(all, entries, q))
    decreases |entries|
  {
    if |entries| > 0 {
      var n, sets := |entries| - 1, IndexSets(all, q);
      ScanExact(all, entries[..n], q);
      MissesFront(all, entries, q);
      if entries[n].RuleEntry? {
        var r := entries[n].rule;
        RuleExact(all, r, r.exprs, q);
        SitesAppend(AllMatches(entries[..n], q, sets), RuleMatches(r, r.exprs, q, sets));
        FoundAppend(Misses(all, entries[..n], q), Sites(AllMatches(entries[..n], q, sets)),
                    NaiveScan(all, entries[..n], q),
                    MissesIn(all, r, r.exprs, q), Sites(RuleMatches(r, r.exprs, q, sets)),
                    NaiveRule(all, r, r.exprs, q));
      }
    }
  }

  /** The two-pass lookup is the naive scan: a rule's address match is reported if and only if
      what it tests stands for a set of addresses that meets the query, in ruleset order. This
      holds exactly when no rule is in a blind spot. */
  lemma LookupIsTheNaiveScan(entries: seq<Entry>, q: LookupQuery)
    requires GoodRuleset(entries)
    ensures Sites(AllMatches(entries, q, IndexSets(entries, q))) == NaiveScan(entries, entries, q)
            <==> !Misses(entries, entries, q)
  {
    ScanExact(entries, entries, q);
  }

  /** A match called exact is one with the query address itself, and for an address query a
      matched address literal is always called exact. */
  ghost predicate KindIsRight(m: RuleMatch, q: LookupQuery) {
    && ((m.kind == SaddrExact || m.kind == DaddrExact) <==>
          q.AddrQuery? && m.matched.MatchedValue? && m.matched.v.AddrVal?)
    && ((m.kind == SaddrExact || m.kind == DaddrExact) ==> m.matched.v.a == q.a)
    && ((m.kind == RuleSetMember || m.kind == RuleSetOverlap) <==> m.matched.MatchedSet?)
    && (m.kind == RuleSetOverlap <==> m.matched.MatchedSet? && q.CidrQuery?)
    && ((m.kind == SaddrExact || m.kind == SaddrInSubnet) ==> m.expr.Match? && m.expr.field == Saddr)
    && ((m.kind == DaddrExact || m.kind == DaddrInSubnet) ==> m.expr.Match? && m.expr.field == Daddr)
    && m.expr.Match? && ComesFrom(m.matched, m.expr.right, q)
  }

  /** What is reported as matched stands on the right-hand side, and overlaps the query; of an
      anonymous set it is the first bare member that does. */
  ghost predicate ComesFrom(matched: Matched, right: Right, q: LookupQuery) {
    match right
    case SetRef(name) => matched == MatchedSet(name)
    case Literal(v) => matched == MatchedValue(v) && ValueOverlaps(v, q)
    case AnonSet(members) => matched.MatchedValue? && IsFirstBare(members, matched.v, q)
  }

  /** The value stands at a position of the list before which no bare member overlaps the query. */
  ghost predicate IsFirstBare(members: seq<Elem>, v: Value, q: LookupQuery) {
    exists i :: 0 <= i < |members| && members[i] == Bare(v) && ValueOverlaps(v, q) && NoBareBefore(members, q, i)
  }

  predicate NoBareBefore(members: seq<Elem>, q: LookupQuery, i: nat)
    requires i <= |members|
  {
    forall j :: 0 <= j < i ==> !(members[j].Bare? && ValueOverlaps(members[j].v, q))
  }

  lemma {:induction false} RuleKinds(rule: Rule, exprs: seq<Expr>, q: LookupQuery, sets: map<string, SetIndex>, m: RuleMatch)
    requires m in RuleMatches(rule, exprs, q, sets)
    ensures KindIsRight(m, q)
    decreases |exprs|
  {
    var n := |exprs| - 1;
    if m in RuleMatches(rule, exprs[..n], q, sets) {
      RuleKinds(rule, exprs[..n], q, sets, m);
    } else {
      var e := exprs[n];
      assert m in ExprMatch(rule, e, q, sets);
      if e.right.AnonSet? {
        FirstMemberOverlaps(e.right.members, q);
      }
    }
  }

  lemma {:induction false} FirstMemberOverlaps(members: seq<Elem>, q: LookupQuery)
    ensures FirstMember(members, q).Some? ==> IsFirstBare(members, FirstMember(members, q).value, q)
    decreases |members|
  {
    if |members| > 0 {
      var tail := members[1..];
      FirstMemberOverlaps(tail, q);
      if members[0].Bare? && ValueOverlaps(members[0].v, q) {
        assert NoBareBefore(members, q, 0);
      } else if FirstMember(tail, q).Some? {
        var v := FirstMember(tail, q).value;
        var i :| 0 <= i < |tail| && tail[i] == Bare(v) && ValueOverlaps(v, q) && NoBareBefore(tail, q, i);
        LaterBare(members, q, i);
        assert members[i + 1] == Bare(v);
      }
    }
  }

  lemma LaterBare(members: seq<Elem>, q: LookupQuery, i: nat)
    requires i < |members| && !(members[0].Bare? && ValueOverlaps(members[0].v, q)) && NoBareBefore(members[1..], q, i)
    ensures NoBareBefore(members, q, i + 1)
  {
    forall j | 0 <= j < i + 1 ensures !(members[j].Bare? && ValueOverlaps(members[j].v, q)) {
      assert j > 0 ==> members[1..][j - 1] == members[j];
    }
  }

  /** Every reported match carries the right kind, on any ruleset at all. */
  lemma {:induction false} KindsAreRight(entries: seq<Entry>, q: LookupQuery, sets: map<string, SetIndex>, m: RuleMatch)
    requires m in AllMatches(entries, q, sets)
    ensures KindIsRight(m, q)
    decreases |entries|
  {
    var n := |entries| - 1;
    if m in AllMatches(entries[..n], q, sets) {
      KindsAreRight(entries[..n], q, sets, m);
    } else {
      RuleKinds(entries[n].rule, entries[n].rule.exprs, q, sets, m);
    }
  }

  /** An element hit is listed exactly for the elements that meet the query and are not compound,
      and is called a member exactly when the element is the query address. */
  lemma {:induction false} SetHitsExact(s: NftSet, elems: seq<Elem>, q: LookupQuery, h: SetHit)
    requires ProperElems(elems)
    ensures h in HitsIn(s, elems, q) <==>
            && h.elem in elems && Meets(h.elem.v, q) && !h.elem.v.Compound? && h.nftSet == s
            && (h.kind == SetMember <==> q.AddrQuery? && h.elem.v == AddrVal(q.a))
    decreases |elems|
  {
    if |elems| > 0 {
      var n := |elems| - 1;
      SetHitsExact(s, elems[..n], q, h);
      TouchIsMeeting(elems[n].v, q);
      assert elems == elems[..n] + [elems[n]];
      assert h.elem in elems <==> h.elem in elems[..n] || h.elem == elems[n];
      if h.elem == elems[n] && Meets(elems[n].v, q) && !elems[n].v.Compound? {
        MemberKind(elems[n].v, q);
      }
    }
  }

  lemma MemberKind(v: Value, q: LookupQuery)
    requires Meets(v, q) && !v.Compound?
    ensures HitKind(v, q) == SetMember <==> q.AddrQuery? && v == AddrVal(q.a)
  {
  }

  /** An element of its set that meets the query and is not compound, called by the right name. */
  ghost predicate IsHit(h: SetHit, q: LookupQuery) {
    && h.elem in h.nftSet.elems && Meets(h.elem.v, q) && !h.elem.v.Compound?
    && (h.kind == SetMember <==> q.AddrQuery? && h.elem.v == AddrVal(q.a))
  }

  lemma IndexHits(s: NftSet, q: LookupQuery, h: SetHit)
    requires GoodSet(s)
    ensures h in IndexOfSet(s, q).matchedAt <==> h.nftSet == s && IsHit(h, q)
  {
    SetHitsExact(s, s.elems, q, h);
    if h.nftSet == s && IsHit(h, q) {
      var i :| 0 <= i < |s.elems| && s.elems[i] == h.elem;
      var x :| ValidAddr(x) && Denotes(s.elems[i].v, x) && InQuery(q, x);
      InQueryFamily(q, x);
    }
  }

  lemma {:induction false} HitsByKeyHolds(keys: seq<string>, sets: map<string, SetIndex>, h: SetHit)
    requires forall k :: k in keys ==> k in sets
    ensures h in HitsByKey(keys, sets) <==> exists k :: k in keys && h in sets[k].matchedAt
    decreases |keys|
  {
    if |keys| > 0 {
      var n := |keys| - 1;
      HitsByKeyHolds(keys[..n], sets, h);
      assert keys == keys[..n] + [keys[n]];
    }
  }

  /** The sets view, exactly: an element is listed if and only if it meets the query, is not
      compound, and its set is the last listed with its key; and it is called a member exactly
      when it is the query address. */
  lemma SetsViewIsExact(entries: seq<Entry>, q: LookupQuery, keys: seq<string>, h: SetHit)
    requires GoodSets(entries)
    requires Elements(keys) == IndexSets(entries, q).Keys && forall k :: k in keys ==> k in IndexSets(entries, q)
    ensures h in HitsByKey(keys, IndexSets(entries, q)) <==>
            LastKeyed(entries, KeyOf(h.nftSet)) == Some(h.nftSet) && IsHit(h, q)
  {
    var sets := IndexSets(entries, q);
    HitsByKeyHolds(keys, sets, h);
    if k :| k in keys && h in sets[k].matchedAt {
      ListedHit(entries, q, k, h);
    }
    var k := KeyOf(h.nftSet);
    if LastKeyed(entries, k) == Some(h.nftSet) && IsHit(h, q) {
      ListedHit(entries, q, k, h);
      assert k in Elements(keys);
    }
  }

  /** The hits the index holds under a key. */
  lemma ListedHit(entries: seq<Entry>, q: LookupQuery, k: string, h: SetHit)
    requires GoodSets(entries)
    ensures k in IndexSets(entries, q) && h in IndexSets(entries, q)[k].matchedAt <==>
            LastKeyed(entries, k) == Some(h.nftSet) && IsHit(h, q)
    ensures LastKeyed(entries, k).Some? ==> KeyOf(LastKeyed(entries, k).value) == k
  {
    IndexHolds(entries, q, k);
    LastKeyedIsListed(entries, k);
    if LastKeyed(entries, k).Some? {
      var i :| 0 <= i < |entries| && entries[i] == SetEntry(LastKeyed(entries, k).value);
      IndexHits(entries[i].set_, q, h);
    }
  }

  // ---------------------------------------------------------------- where the naive scan is missed

  /** A member of an anonymous set that nft lists inside an {"elem": ...} wrapper is never
      seen: the rule below accepts exactly the queried address and is not reported. */
  lemma WrappedMemberIsMissed(a: Address, rule: Rule, sets: map<string, SetIndex>)
    ensures var right := AnonSet([Wrapped(AddrVal(a), None, None)]);
            && RightMeets([], rule, right, AddrQuery(a))
            && EvaluateRight(right, AddrQuery(a), rule, sets).None?
  {
    var e := Wrapped(AddrVal(a), None, None);
    assert ValidAddr(a) && Denotes(e.v, a) && InQuery(AddrQuery(a), a);
    assert Meets([e][0].v, AddrQuery(a));
    assert FirstMember([e], AddrQuery(a)) == FirstMember([e][1..], AddrQuery(a)) == None;
  }

  /** So is a compound element of a named set: a reference to the set below, which holds exactly
      the queried address with a port, is not reported. */
  lemma CompoundElementIsMissed(a: Address, rule: Rule, name: string)
    ensures var set_ := NftSet(rule.family, rule.table, name, "ipv4_addr.inet_service", [Bare(Compound(AddrVal(a)))]);
            var entries := [SetEntry(set_)];
            && RightMeets(entries, rule, SetRef(name), AddrQuery(a))
            && !RefHits(entries, rule, name, AddrQuery(a))
  {
    var set_ := NftSet(rule.family, rule.table, name, "ipv4_addr.inet_service", [Bare(Compound(AddrVal(a)))]);
    var entries, q := [SetEntry(set_)], AddrQuery(a);
    var v := set_.elems[0].v;
    assert Denotes(v.first, a) && Denotes(v, a) && ValidAddr(a) && InQuery(q, a);
    assert Meets(set_.elems[0].v, q) && Names(entries[0], rule, name);
    HitsSeen(set_, set_.elems, q);
    IndexHolds(entries, q, KeyOf(set_));
    assert LastKeyed(entries, KeyOf(set_)) == Some(set_);
  }
}
