/** The sets view of a firewall lookup as a list: every hit once, in order. */
module FirewallListing {
  import opened Common
  import opened Addresses
  import opened Strings
  import opened FirewallLookup

  predicate StrictlyAscending(ps: seq<nat>) {
    forall i, j :: 0 <= i < j < |ps| ==> ps[i] < ps[j]
  }

  /** The positions of a list whose elements are to be listed. */
  ghost predicate Listable(elems: seq<Elem>, q: LookupQuery, i: nat) {
    i < |elems| && Meets(elems[i].v, q) && !elems[i].v.Compound?
  }

  /** The hits are those of these positions, one each, in order. */
  ghost predicate HitsAt(s: NftSet, hits: seq<SetHit>, ps: seq<nat>) {
    && |ps| == |hits| && StrictlyAscending(ps)
    && forall j :: 0 <= j < |hits| ==> ps[j] < |s.elems| && hits[j].elem == s.elems[ps[j]] && hits[j].nftSet == s
  }

  /** One element more is one hit more if it is to be listed. */
  lemma LastHit(s: NftSet, n: nat, q: LookupQuery)
    requires n < |s.elems| && ProperElems(s.elems)
    ensures Listable(s.elems, q, n) <==> ValueOverlaps(s.elems[n].v, q)
    ensures HitsIn(s, s.elems[..n + 1], q) == HitsIn(s, s.elems[..n], q) +
            if ValueOverlaps(s.elems[n].v, q) then [SetHit(HitKind(s.elems[n].v, q), s, s.elems[n])] else []
  {
    assert s.elems[..n + 1][..n] == s.elems[..n];
    TouchIsMeeting(s.elems[n].v, q);
  }

  lemma {:induction false} HitsOnce(s: NftSet, n: nat, q: LookupQuery) returns (ps: seq<nat>)
    requires n <= |s.elems| && ProperElems(s.elems)
    ensures HitsAt(s, HitsIn(s, s.elems[..n], q), ps) && forall p :: p in ps ==> p < n
    ensures forall i: nat :: i < n ==> (i in ps <==> Listable(s.elems, q, i))
    decreases n
  {
    if n == 0 {
      ps := [];
    } else {
      ps := HitsOnce(s, n - 1, q);
      LastHit(s, n - 1, q);
      if ValueOverlaps(s.elems[n - 1].v, q) {
        ps := OneMoreHit(s, HitsIn(s, s.elems[..n - 1], q), ps, n - 1, SetHit(HitKind(s.elems[n - 1].v, q), s, s.elems[n - 1]));
      }
    }
  }

  lemma OneMoreHit(s: NftSet, hits: seq<SetHit>, ps: seq<nat>, p: nat, h: SetHit) returns (more: seq<nat>)
    requires HitsAt(s, hits, ps) && p < |s.elems| && h.elem == s.elems[p] && h.nftSet == s
    requires forall i :: i in ps ==> i < p
    ensures more == ps + [p] && HitsAt(s, hits + [h], more)
  {
    more := ps + [p];
    forall i, j | 0 <= i < j < |more| ensures more[i] < more[j] {
      assert more[i] == ps[i] && ps[i] in ps;
    }
  }

  /** What is to be listed passes the family pre-filter. */
  lemma ListableAccepted(s: NftSet, q: LookupQuery, i: nat)
    requires GoodSet(s) && Listable(s.elems, q, i)
    ensures TypeAccepts(s.elemType, q.Width())
  {
    var x :| ValidAddr(x) && Denotes(s.elems[i].v, x) && InQuery(q, x);
    InQueryFamily(q, x);
  }

  /** A set's hits are its elements that meet the query and are not compound: each once, in the
      set's order. */
  lemma HitsAreListedOnce(s: NftSet, q: LookupQuery) returns (ps: seq<nat>)
    requires GoodSet(s)
    ensures HitsAt(s, IndexOfSet(s, q).matchedAt, ps)
    ensures forall i: nat :: i in ps <==> Listable(s.elems, q, i)
  {
    if TypeAccepts(s.elemType, q.Width()) {
      ps := HitsOnce(s, |s.elems|, q);
      assert s.elems[..|s.elems|] == s.elems;
    } else {
      ps := [];
      forall i: nat ensures !Listable(s.elems, q, i) {
        if Listable(s.elems, q, i) {
          ListableAccepted(s, q, i);
        }
      }
    }
  }

  /** A place in the sets view: a key, by its rank, and a position in its set. */
  datatype Place = Place(key: nat, elem: nat)

  predicate Before(a: Place, b: Place) {
    a.key < b.key || (a.key == b.key && a.elem < b.elem)
  }

  /** The set a key stands for. */
  ghost predicate StandsFor(entries: seq<Entry>, key: string, s: NftSet) {
    LastKeyed(entries, key) == Some(s)
  }

  /** The hits are those of these places, one each, in order. */
  ghost predicate ViewAt(entries: seq<Entry>, keys: seq<string>, hits: seq<SetHit>, places: seq<Place>) {
    && |places| == |hits| && (forall i, j :: 0 <= i < j < |places| ==> Before(places[i], places[j]))
    && forall j :: 0 <= j < |hits| ==> PlaceHolds(entries, keys, hits[j], places[j])
  }

  ghost predicate PlaceHolds(entries: seq<Entry>, keys: seq<string>, h: SetHit, p: Place) {
    && p.key < |keys| && StandsFor(entries, keys[p.key], h.nftSet)
    && p.elem < |h.nftSet.elems| && h.elem == h.nftSet.elems[p.elem]
  }

  /** What is to be in the view. */
  ghost predicate InView(entries: seq<Entry>, q: LookupQuery, keys: seq<string>, p: Place) {
    && p.key < |keys| && LastKeyed(entries, keys[p.key]).Some?
    && Listable(LastKeyed(entries, keys[p.key]).value.elems, q, p.elem)
  }

  lemma {:induction false} ViewUpTo(entries: seq<Entry>, q: LookupQuery, keys: seq<string>, n: nat) returns (places: seq<Place>)
    requires GoodSets(entries) && n <= |keys| && forall k :: k in keys ==> k in IndexSets(entries, q)
    ensures ViewAt(entries, keys, HitsByKey(keys[..n], IndexSets(entries, q)), places)
    ensures forall p :: p in places ==> p.key < n
    ensures forall p: Place :: p.key < n ==> (p in places <==> InView(entries, q, keys, p))
    decreases n
  {
    if n == 0 {
      places := [];
    } else {
      places := ViewUpTo(entries, q, keys, n - 1);
      assert keys[..n][..n - 1] == keys[..n - 1];
      places := ViewNext(entries, q, keys, n - 1, HitsByKey(keys[..n - 1], IndexSets(entries, q)), places);
    }
  }

  /** The hits of one key more. */
  lemma ViewNext(entries: seq<Entry>, q: LookupQuery, keys: seq<string>, n: nat, hits: seq<SetHit>, places: seq<Place>)
    returns (more: seq<Place>)
    requires GoodSets(entries) && n < |keys| && keys[n] in IndexSets(entries, q)
    requires ViewAt(entries, keys, hits, places) && forall p :: p in places ==> p.key < n
    ensures ViewAt(entries, keys, hits + IndexSets(entries, q)[keys[n]].matchedAt, more)
    ensures forall p :: p in more <==> p in places || (p.key == n && InView(entries, q, keys, p))
  {
    IndexHolds(entries, q, keys[n]);
    LastKeyedIsListed(entries, keys[n]);
    var s := LastKeyed(entries, keys[n]).value;
    var i :| 0 <= i < |entries| && entries[i] == SetEntry(s);
    assert GoodSet(entries[i].set_);
    var ps := HitsAreListedOnce(s, q);
    var own := seq(|ps|, j requires 0 <= j < |ps| => Place(n, ps[j]));
    OwnPlaces(ps, own, n);
    more := places + own;
    ViewJoin(entries, keys, hits, places, IndexOfSet(s, q).matchedAt, own, n);
  }

  lemma OwnPlaces(ps: seq<nat>, own: seq<Place>, n: nat)
    requires |own| == |ps| && StrictlyAscending(ps) && forall j :: 0 <= j < |ps| ==> own[j] == Place(n, ps[j])
    ensures forall i, j :: 0 <= i < j < |own| ==> Before(own[i], own[j])
    ensures forall p :: p in own <==> p.key == n && p.elem in ps
  {
    forall p: Place | p.key == n && p.elem in ps ensures p in own {
      var j :| 0 <= j < |ps| && ps[j] == p.elem;
      assert own[j] == p;
    }
  }

  lemma ViewJoin(entries: seq<Entry>, keys: seq<string>, hits: seq<SetHit>, places: seq<Place>,
                 hits': seq<SetHit>, own: seq<Place>, n: nat)
    requires ViewAt(entries, keys, hits, places) && forall p :: p in places ==> p.key < n
    requires |own| == |hits'| && (forall i, j :: 0 <= i < j < |own| ==> Before(own[i], own[j]))
    requires forall p :: p in own ==> p.key == n
    requires forall j :: 0 <= j < |hits'| ==> PlaceHolds(entries, keys, hits'[j], own[j])
    ensures ViewAt(entries, keys, hits + hits', places + own)
  {
    var all, hs := places + own, hits + hits';
    forall i, j | 0 <= i < j < |all| ensures Before(all[i], all[j]) {
      if i < |places| <= j {
        assert places[i] in places && own[j - |places|] in own;
      }
    }
    forall j | 0 <= j < |hs| ensures PlaceHolds(entries, keys, hs[j], all[j]) {
      if j >= |hits| {
        assert hs[j] == hits'[j - |hits|] && all[j] == own[j - |hits|];
      }
    }
  }

  /** The sets view across ascending keys: every element to be listed is, once, key by key and in
      the order of its set. */
  lemma ViewIsListedOnce(entries: seq<Entry>, q: LookupQuery, keys: seq<string>) returns (places: seq<Place>)
    requires GoodSets(entries) && Ascending(keys)
    requires Elements(keys) == IndexSets(entries, q).Keys && forall k :: k in keys ==> k in IndexSets(entries, q)
    ensures ViewAt(entries, keys, HitsByKey(keys, IndexSets(entries, q)), places)
    ensures forall p :: p in places <==> InView(entries, q, keys, p)
    ensures forall s: NftSet :: StandsFor(entries, KeyOf(s), s) ==> KeyOf(s) in keys
  {
    places := ViewUpTo(entries, q, keys, |keys|);
    assert keys[..|keys|] == keys;
    forall s: NftSet | StandsFor(entries, KeyOf(s), s) ensures KeyOf(s) in keys {
      IndexHolds(entries, q, KeyOf(s));
      assert KeyOf(s) in Elements(keys);
    }
  }
}
