/** Byte-wise string order, the sorted sequence of a set of strings, and the
    "family/table/name" keys that nftables sets are filed under. */
module Strings {

  /** `a` comes before `b` in the order `sort.Strings` uses. */
  predicate Below(a: string, b: string) {
    if |b| == 0 then false
    else if |a| == 0 then true
    else a[0] < b[0] || (a[0] == b[0] && Below(a[1..], b[1..]))
  }

  lemma {:induction false} BelowTotal(a: string, b: string)
    ensures a == b || Below(a, b) || Below(b, a)
    ensures !(Below(a, b) && Below(b, a)) && !Below(a, a)
  {
    if |a| > 0 {
      BelowTotal(a[1..], a[1..]);
    }
    if |a| > 0 && |b| > 0 {
      BelowTotal(a[1..], b[1..]);
      assert a == [a[0]] + a[1..] && b == [b[0]] + b[1..];
    }
  }

  lemma {:induction false} BelowTransitive(a: string, b: string, c: string)
    requires Below(a, b) && Below(b, c)
    ensures Below(a, c)
  {
    if |a| > 0 && a[0] == b[0] && b[0] == c[0] {
      BelowTransitive(a[1..], b[1..], c[1..]);
    }
  }

  /** Strictly ascending: sorted and free of duplicates. */
  ghost predicate Ascending(s: seq<string>) {
    forall i, j :: 0 <= i < j < |s| ==> Below(s[i], s[j])
  }

  function Elements(s: seq<string>): set<string> {
    set x | x in s
  }

  /** A set of strings has only one ascending listing, so sorting erases map iteration order. */
  lemma {:induction false} AscendingUnique(a: seq<string>, b: seq<string>)
    requires Ascending(a) && Ascending(b) && Elements(a) == Elements(b)
    ensures a == b
  {
    if |b| > 0 {
      assert b[0] in Elements(b);
    }
    if |a| > 0 {
      assert a[0] in Elements(a) && a[0] in b;
      assert b[0] in Elements(b) && b[0] in a;
      BelowTotal(a[0], b[0]);
      assert a[0] == b[0];
      TailElements(a);
      TailElements(b);
      AscendingUnique(a[1..], b[1..]);
      assert a == [a[0]] + a[1..] && b == [b[0]] + b[1..];
    }
  }

  lemma TailElements(a: seq<string>)
    requires |a| > 0 && Ascending(a)
    ensures Elements(a[1..]) == Elements(a) - {a[0]} && Ascending(a[1..])
  {
    forall x | x in a[1..] ensures x != a[0] {
      var i :| 0 <= i < |a[1..]| && a[1..][i] == x;
      assert Below(a[0], a[i + 1]);
      BelowTotal(a[0], a[0]);
    }
    assert forall x :: x in a ==> x == a[0] || x in a[1..];
  }

  /** The ascending listing of a set. */
  method Sorted(s: set<string>) returns (r: seq<string>)
    ensures Ascending(r) && Elements(r) == s
  {
    r := [];
    var todo := s;
    while todo != {}
      invariant todo <= s && Ascending(r) && Elements(r) == s - todo
    {
      var x :| x in todo;
      r := Insert(r, x);
      todo := todo - {x};
    }
  }

  method Insert(s: seq<string>, x: string) returns (r: seq<string>)
    requires Ascending(s) && x !in s
    ensures Ascending(r) && Elements(r) == Elements(s) + {x}
  {
    var i := 0;
    while i < |s| && Below(s[i], x)
      invariant 0 <= i <= |s| && forall j :: 0 <= j < i ==> Below(s[j], x)
    {
      i := i + 1;
    }
    r := s[..i] + [x] + s[i..];
    InsertedAscending(s, x, i);
    assert s == s[..i] + s[i..];
  }

  lemma InsertedAscending(s: seq<string>, x: string, i: nat)
    requires Ascending(s) && x !in s && i <= |s| && (forall j :: 0 <= j < i ==> Below(s[j], x))
    requires i < |s| ==> !Below(s[i], x)
    ensures Ascending(s[..i] + [x] + s[i..])
  {
    forall j | i <= j < |s| ensures Below(x, s[j]) {
      BelowTotal(s[i], x);
      if j > i {
        BelowTransitive(x, s[i], s[j]);
      }
    }
    var r := s[..i] + [x] + s[i..];
    forall j, k | 0 <= j < k < |r| ensures Below(r[j], r[k]) {
      assert r[j] == if j < i then s[j] else if j == i then x else s[j - 1];
      assert r[k] == if k < i then s[k] else if k == i then x else s[k - 1];
    }
  }

  // ---------------------------------------------------------------- set keys

  function SetKey(family: string, table: string, name: string): string {
    family + "/" + table + "/" + name
  }

  /** The key names one (family, table, name), as long as family and table hold no slash. */
  lemma {:induction false} SetKeyInjective(f: string, t: string, n: string, f': string, t': string, n': string)
    requires SetKey(f, t, n) == SetKey(f', t', n')
    requires '/' !in f && '/' !in t && '/' !in f' && '/' !in t'
    ensures f == f' && t == t' && n == n'
  {
    assert SetKey(f, t, n) == f + "/" + (t + "/" + n) && SetKey(f', t', n') == f' + "/" + (t' + "/" + n');
    FirstSlash(f, t + "/" + n, f', t' + "/" + n');
    FirstSlash(t, n, t', n');
  }

  lemma FirstSlash(a: string, rest: string, a': string, rest': string)
    requires '/' !in a && '/' !in a'
    requires a + "/" + rest == a' + "/" + rest'
    ensures a == a' && rest == rest'
  {
    var k := a + "/" + rest;
    assert k[|a|] == '/' && k[|a'|] == '/';
    assert |a| == |a'|;
    assert a == k[..|a|] && a' == k[..|a'|];
    assert rest == k[|a| + 1..] && rest' == k[|a'| + 1..];
  }
}
