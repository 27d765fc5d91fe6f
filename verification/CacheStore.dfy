/** The bounded entry map of the daemon's cache: `Lookup`, `Store` and `Sweep`.

    It is compared with an unbounded map that simply keeps the last entry stored under each
    key. Times are integers on a clock that never goes back. */
module CacheStore {
  import opened Common

  datatype Entry = Entry(data: string, warnings: seq<string>, builtAt: int, ttl: int)

  const MAX_ENTRIES := 4096

  predicate Expired(e: Entry, now: int) {
    now - e.builtAt > e.ttl
  }

  function Lookup(m: map<string, Entry>, k: string, now: int): Option<Entry> {
    if k !in m || Expired(m[k], now) then None else Some(m[k])
  }

  function Unexpired(m: map<string, Entry>, now: int): map<string, Entry> {
    map k | k in m && !Expired(m[k], now) :: m[k]
  }

  /** A store under a new key while a full house of unexpired entries is held. */
  predicate Refuses(m: map<string, Entry>, k: string, now: int) {
    k !in m && |m| >= MAX_ENTRIES && |Unexpired(m, now)| >= MAX_ENTRIES
  }

  function Store(m: map<string, Entry>, k: string, e: Entry, now: int): map<string, Entry> {
    if k in m || |m| < MAX_ENTRIES then m[k := e]
    else if |Unexpired(m, now)| >= MAX_ENTRIES then Unexpired(m, now)
    else Unexpired(m, now)[k := e]
  }

  /** The cache object. */
  class EntryCache {
    var m: map<string, Entry>

    constructor ()
      ensures m == map[]
    {
      m := map[];
    }

    method Find(k: string, now: int) returns (r: Option<Entry>)
      ensures r == Lookup(m, k, now)
    {
      if k !in m || Expired(m[k], now) {
        return None;
      }
      return Some(m[k]);
    }

    method SweepLocked(now: int)
      modifies this
      ensures m == Unexpired(old(m), now)
    {
      var todo := m.Keys;
      while todo != {}
        invariant todo <= old(m).Keys
        invariant m == map k | k in old(m) && (k in todo || !Expired(old(m)[k], now)) :: old(m)[k]
      {
        var k :| k in todo;
        if Expired(m[k], now) {
          m := m - {k};
        }
        todo := todo - {k};
      }
    }

    method Put(k: string, e: Entry, now: int)
      modifies this
      ensures m == Store(old(m), k, e, now)
    {
      if k !in m && |m| >= MAX_ENTRIES {
        SweepLocked(now);
        if |m| >= MAX_ENTRIES {
          return;
        }
      }
      m := m[k := e];
    }
  }

  // ---------------------------------------------------------------- runs

  datatype Op = StoreOp(key: string, entry: Entry, at: int) | SweepOp(at: int)

  function Apply(m: map<string, Entry>, op: Op): map<string, Entry> {
    match op
    case StoreOp(k, e, at) => Store(m, k, e, at)
    case SweepOp(at) => Unexpired(m, at)
  }

  function Run(ops: seq<Op>): map<string, Entry> {
    if |ops| == 0 then map[] else Apply(Run(Front(ops)), Last(ops))
  }

  /** Running on from a map that is already there. */
  function RunFrom(m: map<string, Entry>, ops: seq<Op>): map<string, Entry>
    decreases |ops|
  {
    if |ops| == 0 then m else RunFrom(Apply(m, ops[0]), ops[1..])
  }

  lemma {:induction false} RunFromJoin(m: map<string, Entry>, a: seq<Op>, b: seq<Op>)
    ensures RunFrom(m, a + b) == RunFrom(RunFrom(m, a), b)
    decreases |a|
  {
    if |a| == 0 {
      assert a + b == b;
    } else {
      assert (a + b)[1..] == a[1..] + b;
      RunFromJoin(Apply(m, a[0]), a[1..], b);
    }
  }

  lemma {:induction false} RunIsRunFrom(ops: seq<Op>)
    ensures Run(ops) == RunFrom(map[], ops)
    decreases |ops|
  {
    if |ops| > 0 {
      RunIsRunFrom(Front(ops));
      var one: seq<Op> := [Last(ops)];
      RunFromJoin(map[], Front(ops), one);
      assert one[1..] == [] && ops == Front(ops) + one;
    }
  }

  /** Times do not decrease, and the last one is not after `now`. */
  predicate Ordered(ops: seq<Op>, now: int) {
    |ops| == 0 || (Last(ops).at <= now && Ordered(Front(ops), Last(ops).at))
  }

  /** The unbounded reference: the last entry passed to Store, per key. */
  function Latest(ops: seq<Op>): map<string, Entry> {
    if |ops| == 0 then map[]
    else if Last(ops).StoreOp? then Latest(Front(ops))[Last(ops).key := Last(ops).entry]
    else Latest(Front(ops))
  }

  /** Whether the last Store of a key arrived for a new key at a full house. */
  predicate LastStoreRefused(ops: seq<Op>, k: string) {
    if |ops| == 0 then false
    else if Last(ops).StoreOp? && Last(ops).key == k then Refuses(Run(Front(ops)), k, Last(ops).at)
    else LastStoreRefused(Front(ops), k)
  }

  lemma UnexpiredSize(m: map<string, Entry>, now: int)
    ensures |Unexpired(m, now)| <= |m|
    ensures |Unexpired(m, now)| == |m| ==> Unexpired(m, now) == m
  {
    var u := Unexpired(m, now);
    SubsetSize(u.Keys, m.Keys);
    assert |u| == |u.Keys| && |m| == |m.Keys|;
  }

  lemma SubsetSize<T>(a: set<T>, b: set<T>)
    requires a <= b
    ensures |a| <= |b| && (|a| == |b| ==> a == b)
  {
    assert b == a + (b - a);
  }

  lemma StoreSize(m: map<string, Entry>, k: string, e: Entry, now: int)
    requires |m| <= MAX_ENTRIES
    ensures |Store(m, k, e, now)| <= MAX_ENTRIES
    ensures Refuses(m, k, now) ==> Store(m, k, e, now) == m
  {
    var u := Unexpired(m, now);
    UnexpiredSize(m, now);
    assert m[k := e].Keys == m.Keys + {k} && u[k := e].Keys == u.Keys + {k};
  }

  /** What every run keeps: the size bound; every held entry is the latest one stored; and a
      latest entry that is unexpired is missing exactly when its Store was refused. */
  lemma {:induction false} EveryRun(ops: seq<Op>, now: int)
    requires Ordered(ops, now)
    ensures |Run(ops)| <= MAX_ENTRIES
    ensures forall k :: k in Run(ops) ==> k in Latest(ops) && Run(ops)[k] == Latest(ops)[k]
    ensures forall k :: k in Latest(ops) && !Expired(Latest(ops)[k], now) ==>
              (k in Run(ops) <==> !LastStoreRefused(ops, k))
  {
    if |ops| != 0 {
      var m, op := Run(Front(ops)), Last(ops);
      EveryRun(Front(ops), op.at);
      UnexpiredSize(m, op.at);
      if op.StoreOp? {
        StoreSize(m, op.key, op.entry, op.at);
      }
      forall k | k in Latest(ops) && !Expired(Latest(ops)[k], now)
        ensures k in Run(ops) <==> !LastStoreRefused(ops, k)
      {
        if !(op.StoreOp? && op.key == k) {
          assert !Expired(Latest(Front(ops))[k], op.at);
        }
      }
    }
  }

  /** The bounded cache refines the unbounded one: a lookup hits if and only if the latest
      entry is unexpired and its Store was not refused, and then returns that very entry. */
  lemma LookupIsExact(ops: seq<Op>, k: string, now: int)
    requires Ordered(ops, now)
    ensures Lookup(Run(ops), k, now).Some? ==>
              now - Lookup(Run(ops), k, now).value.builtAt <= Lookup(Run(ops), k, now).value.ttl
    ensures k in Latest(ops) && now - Latest(ops)[k].builtAt > Latest(ops)[k].ttl ==> Lookup(Run(ops), k, now).None?
    ensures Lookup(Run(ops), k, now) ==
            if k in Latest(ops) && !Expired(Latest(ops)[k], now) && !LastStoreRefused(ops, k)
            then Some(Latest(ops)[k]) else None
  {
    EveryRun(ops, now);
  }

  /** The keys of the entries that are no older than their time to live. */
  function LiveKeys(m: map<string, Entry>, now: int): set<string> {
    set k | k in m && now - m[k].builtAt <= m[k].ttl
  }

  /** An entry is not stored only if its key is new and the map holds MAX_ENTRIES entries that are
      no older than their time to live; then the map stays as it is. */
  lemma SkippedOnlyWhenFull(m: map<string, Entry>, k: string, e: Entry, now: int)
    requires |m| <= MAX_ENTRIES
    ensures var t := Store(m, k, e, now);
            if k !in m && |LiveKeys(m, now)| == MAX_ENTRIES then t == m
            else k in t && t[k] == e && forall j :: j != k && j in LiveKeys(m, now) ==> j in t && t[j] == m[j]
  {
    UnexpiredSize(m, now);
    assert Unexpired(m, now).Keys == LiveKeys(m, now) && |Unexpired(m, now)| == |Unexpired(m, now).Keys|;
    SubsetSize(LiveKeys(m, now), m.Keys);
    assert |m| == |m.Keys|;
  }

  /** In every run a latest entry that is still alive and is missing was stored, as a new key, into a
      map that held MAX_ENTRIES live entries. */
  lemma {:induction false} MissingMeansFull(ops: seq<Op>, k: string, now: int) returns (i: nat)
    requires Ordered(ops, now) && k in Latest(ops) && now - Latest(ops)[k].builtAt <= Latest(ops)[k].ttl
    requires k !in Run(ops)
    ensures i < |ops| && ops[i].StoreOp? && ops[i].key == k && ops[i].entry == Latest(ops)[k]
    ensures k !in Run(ops[..i]) && |LiveKeys(Run(ops[..i]), ops[i].at)| == MAX_ENTRIES
    decreases |ops|
  {
    EveryRun(ops, now);
    var front, op := Front(ops), Last(ops);
    EveryRun(front, op.at);
    if op.StoreOp? && op.key == k {
      i := |ops| - 1;
      SkippedOnlyWhenFull(Run(front), k, op.entry, op.at);
    } else {
      StaysMissing(front, op, k, now);
      i := MissingMeansFull(front, k, op.at);
      assert front[..i] == ops[..i];
    }
  }

  /** A live latest entry that is missing was missing before an operation on something else. */
  lemma StaysMissing(front: seq<Op>, op: Op, k: string, now: int)
    requires Ordered(front, op.at) && op.at <= now && !(op.StoreOp? && op.key == k)
    requires k in Latest(front) && now - Latest(front)[k].builtAt <= Latest(front)[k].ttl && k !in Apply(Run(front), op)
    ensures k !in Run(front)
  {
    EveryRun(front, op.at);
    if op.StoreOp? {
      SkippedOnlyWhenFull(Run(front), op.key, op.entry, op.at);
    }
  }

  /** A sweep leaves just the entries that are no older than their time to live. */
  lemma SweepLeavesTheLive(ops: seq<Op>, at: int)
    ensures Run(ops + [SweepOp(at)]).Keys == LiveKeys(Run(ops), at)
    ensures forall k :: k in LiveKeys(Run(ops), at) ==> Run(ops + [SweepOp(at)])[k] == Run(ops)[k]
  {
    assert Front(ops + [SweepOp(at)]) == ops;
  }
}
