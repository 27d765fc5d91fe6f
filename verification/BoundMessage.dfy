/** `BoundMessage`: cutting an error message to 200 bytes without cutting a character. */
module BoundMessage {
  import opened Common

  const MAX_MESSAGE := 200

  /** The horizontal ellipsis, U+2026, in UTF-8. */
  const ELLIPSIS: seq<Byte> := [0xE2, 0x80, 0xA6]

  // ---------------------------------------------------------------- UTF-8, section 4 of RFC 3629

  predicate Tail(b: Byte) {
    0x80 <= b <= 0xBF
  }

  /** The length of the character a byte sequence starts with; 0 if it starts with none. */
  function CharLength(s: seq<Byte>): (n: nat)
    ensures n <= 4 && n <= |s|
  {
    if |s| == 0 then 0
    else if s[0] <= 0x7F then 1
    else if 0xC2 <= s[0] <= 0xDF then if |s| >= 2 && Tail(s[1]) then 2 else 0
    else if 0xE0 <= s[0] <= 0xEF then
      if |s| >= 3 && SecondOf3(s[0], s[1]) && Tail(s[2]) then 3 else 0
    else if 0xF0 <= s[0] <= 0xF4 then
      if |s| >= 4 && SecondOf4(s[0], s[1]) && Tail(s[2]) && Tail(s[3]) then 4 else 0
    else 0
  }

  predicate SecondOf3(first: Byte, second: Byte) {
    if first == 0xE0 then 0xA0 <= second <= 0xBF
    else if first == 0xED then 0x80 <= second <= 0x9F
    else Tail(second)
  }

  predicate SecondOf4(first: Byte, second: Byte) {
    if first == 0xF0 then 0x90 <= second <= 0xBF
    else if first == 0xF4 then 0x80 <= second <= 0x8F
    else Tail(second)
  }

  predicate Valid(s: seq<Byte>)
    decreases |s|
  {
    |s| == 0 || (CharLength(s) > 0 && Valid(s[CharLength(s)..]))
  }

  // ---- the characters are the encodings of the scalar values

  predicate Scalar(c: int) {
    0 <= c <= 0x10FFFF && !(0xD800 <= c <= 0xDFFF)
  }

  /** The encoding of a scalar value, six bits to a tail. */
  function Rune(c: int): seq<Byte>
    requires Scalar(c)
  {
    if c < 0x80 then [c]
    else if c < 0x800 then [0xC0 + c / 0x40, 0x80 + c % 0x40]
    else if c < 0x10000 then [0xE0 + c / 0x40 / 0x40, 0x80 + c / 0x40 % 0x40, 0x80 + c % 0x40]
    else [0xF0 + c / 0x40 / 0x40 / 0x40, 0x80 + c / 0x40 / 0x40 % 0x40, 0x80 + c / 0x40 % 0x40, 0x80 + c % 0x40]
  }

  lemma RuneIsCharacter(c: int, rest: seq<Byte>)
    requires Scalar(c)
    ensures CharLength(Rune(c) + rest) == |Rune(c)|
  {
  }

  /** Six bits more. */
  function With(c: int, tail: Byte): int {
    0x40 * c + (tail - 0x80)
  }

  lemma WithIsUndone(c: int, tail: Byte)
    requires Tail(tail)
    ensures With(c, tail) / 0x40 == c && 0x80 + With(c, tail) % 0x40 == tail
  {
  }

  lemma CharacterIsRune(s: seq<Byte>) returns (c: int)
    requires CharLength(s) > 0
    ensures Scalar(c) && Rune(c) == s[..CharLength(s)]
  {
    var n, first := CharLength(s), s[0] as int;
    if n == 1 {
      c := first;
    } else if n == 2 {
      c := With(first - 0xC0, s[1]);
      WithIsUndone(first - 0xC0, s[1]);
    } else {
      var lead := if n == 3 then first - 0xE0 else first - 0xF0;
      var two := With(lead, s[1]);
      var three := With(two, s[2]);
      WithIsUndone(lead, s[1]);
      WithIsUndone(two, s[2]);
      c := if n == 3 then three else With(three, s[3]);
      if n == 4 {
        WithIsUndone(three, s[3]);
      }
    }
  }

  function Encoded(text: seq<int>): seq<Byte>
    requires forall c :: c in text ==> Scalar(c)
  {
    if |text| == 0 then [] else Rune(text[0]) + Encoded(text[1..])
  }

  lemma {:induction false} EncodedIsValid(text: seq<int>)
    requires forall c :: c in text ==> Scalar(c)
    ensures Valid(Encoded(text))
  {
    if |text| > 0 {
      RuneIsCharacter(text[0], Encoded(text[1..]));
      EncodedIsValid(text[1..]);
      assert Encoded(text)[|Rune(text[0])|..] == Encoded(text[1..]);
    }
  }

  /** Bytes are valid if and only if they are the encoding of some scalar values. */
  lemma {:induction false} ValidIsEncoded(s: seq<Byte>) returns (text: seq<int>)
    requires Valid(s)
    ensures (forall c :: c in text ==> Scalar(c)) && Encoded(text) == s
    decreases |s|
  {
    text := [];
    if |s| > 0 {
      var n := CharLength(s);
      var c := CharacterIsRune(s);
      var rest := ValidIsEncoded(s[n..]);
      text := [c] + rest;
      assert text[1..] == rest && s == s[..n] + s[n..];
    }
  }

  /** `utf8.RuneStart`. */
  predicate RuneStart(b: Byte) {
    !Tail(b)
  }

  // ---------------------------------------------------------------- the cut

  /** The last position up to `from` that is not inside a character by the look of its byte. */
  function Cut(m: seq<Byte>, from: nat): (cut: nat)
    requires from < |m|
    ensures cut <= from
  {
    if from == 0 || RuneStart(m[from]) then from else Cut(m, from - 1)
  }

  function Bounded(m: seq<Byte>): seq<Byte> {
    if |m| <= MAX_MESSAGE then m else m[..Cut(m, MAX_MESSAGE - |ELLIPSIS|)] + ELLIPSIS
  }

  method BoundMessage(m: seq<Byte>) returns (r: seq<Byte>)
    ensures r == Bounded(m)
  {
    if |m| <= MAX_MESSAGE {
      return m;
    }
    var cut := MAX_MESSAGE - |ELLIPSIS|;
    while cut > 0 && !RuneStart(m[cut])
      invariant 0 <= cut <= MAX_MESSAGE - |ELLIPSIS|
      invariant Cut(m, cut) == Cut(m, MAX_MESSAGE - |ELLIPSIS|)
    {
      cut := cut - 1;
    }
    return m[..cut] + ELLIPSIS;
  }

  lemma {:induction false} CutLaw(m: seq<Byte>, from: nat)
    requires from < |m|
    ensures var cut := Cut(m, from);
            (cut == 0 || RuneStart(m[cut])) && forall i :: cut < i <= from ==> !RuneStart(m[i])
  {
    if from > 0 && !RuneStart(m[from]) {
      CutLaw(m, from - 1);
    }
  }

  // ---------------------------------------------------------------- characters and positions

  /** A character's length is decided by its own bytes. */
  lemma CharLengthLocal(s: seq<Byte>, t: seq<Byte>)
    requires CharLength(s) > 0 && CharLength(s) <= |t| && s[..CharLength(s)] == t[..CharLength(s)]
    ensures CharLength(t) == CharLength(s)
  {
    var n := CharLength(s);
    assert forall i :: 0 <= i < n ==> s[..n][i] == s[i] && t[..n][i] == t[i];
  }

  lemma CharLengthJoin(a: seq<Byte>, b: seq<Byte>)
    requires CharLength(a) > 0
    ensures CharLength(a + b) == CharLength(a) && (a + b)[CharLength(a)..] == a[CharLength(a)..] + b
  {
    assert (a + b)[..CharLength(a)] == a[..CharLength(a)];
    CharLengthLocal(a, a + b);
  }

  lemma {:induction false} ValidJoin(a: seq<Byte>, b: seq<Byte>)
    requires Valid(a) && Valid(b)
    ensures Valid(a + b)
    decreases |a|
  {
    if |a| == 0 {
      assert a + b == b;
    } else {
      CharLengthJoin(a, b);
      ValidJoin(a[CharLength(a)..], b);
    }
  }

  /** What lies inside a character is a tail. */
  lemma InsideIsTail(m: seq<Byte>, p: nat)
    requires 0 < p < |m|
    ensures p < CharLength(m) ==> Tail(m[p])
  {
  }

  /** Two cuts of one text. */
  lemma CutTwice(m: seq<Byte>, n: nat, p: nat)
    requires n <= p < |m|
    ensures m[..p][..n] == m[..n] && m[..p][n..] == m[n..][..p - n] && m[n..][p - n] == m[p]
  {
  }

  /** In valid text, cutting before any byte that starts a character leaves valid text. */
  lemma {:induction false} CutBeforeStart(m: seq<Byte>, p: nat)
    requires Valid(m) && p < |m| && RuneStart(m[p])
    ensures Valid(m[..p])
    decreases |m|
  {
    if p > 0 {
      var n := CharLength(m);
      InsideIsTail(m, p);
      CutTwice(m, n, p);
      CutBeforeStart(m[n..], p - n);
      CharLengthLocal(m, m[..p]);
    }
  }

  /** In valid text, a character starts within the last four bytes at any position. */
  lemma {:induction false} StartNearby(m: seq<Byte>, p: nat) returns (q: nat)
    requires Valid(m) && p < |m|
    ensures p - 3 <= q <= p && RuneStart(m[q])
    decreases |m|
  {
    var n := CharLength(m);
    if p < n {
      q := 0;
    } else {
      q := StartNearby(m[n..], p - n);
      assert m[n..][q] == m[q + n];
      q := q + n;
    }
  }

  // ---------------------------------------------------------------- what the bound promises

  lemma EllipsisValid()
    ensures Valid(ELLIPSIS)
  {
    assert CharLength(ELLIPSIS) == 3;
  }

  /** Every bounded message is at most 200 bytes, so bounding it again changes nothing. */
  lemma BoundFits(m: seq<Byte>)
    ensures |Bounded(m)| <= MAX_MESSAGE && Bounded(Bounded(m)) == Bounded(m)
  {
  }

  /** Bounding never loses validity: valid UTF-8 stays valid UTF-8. A message that is cut keeps
      194 to 197 of its bytes, as many as a cut between characters can keep. */
  lemma BoundKeepsText(m: seq<Byte>)
    requires Valid(m)
    ensures Valid(Bounded(m)) && (|m| <= MAX_MESSAGE ==> Bounded(m) == m)
    ensures |m| > MAX_MESSAGE ==>
              var kept := |Bounded(m)| - |ELLIPSIS|;
              && 194 <= kept <= 197 && Bounded(m) == m[..kept] + ELLIPSIS
              && Valid(m[..kept]) && forall p :: kept < p <= 197 ==> !Valid(m[..p])
  {
    if |m| > MAX_MESSAGE {
      var cut := Cut(m, 197);
      CutLaw(m, 197);
      var q := StartNearby(m, 197);
      CutBeforeStart(m, cut);
      EllipsisValid();
      ValidJoin(m[..cut], ELLIPSIS);
      forall p | cut < p <= 197 ensures !Valid(m[..p]) {
        NoCutInside(m, p);
      }
    }
  }

  /** In valid text, cutting inside a character leaves invalid text. */
  lemma {:induction false} NoCutInside(m: seq<Byte>, p: nat)
    requires Valid(m) && p < |m| && !RuneStart(m[p])
    ensures !Valid(m[..p])
    decreases |m|
  {
    var n := CharLength(m);
    var t := m[..p];
    if p >= n {
      CutTwice(m, n, p);
      NoCutInside(m[n..], p - n);
      CharLengthLocal(m, t);
    } else if p > 0 {
      CutCharacter(m, p);
    }
  }

  /** Part of a character is no character. */
  lemma CutCharacter(m: seq<Byte>, p: nat)
    requires 0 < p < CharLength(m)
    ensures CharLength(m[..p]) == 0
  {
    var t := m[..p];
    assert t[0] == m[0] && |t| == p;
  }

  /** On bytes that need not be text, the result is text exactly when what was kept is. */
  lemma BoundOfAnyBytes(m: seq<Byte>)
    ensures |m| > MAX_MESSAGE ==> (Valid(Bounded(m)) <==> Valid(m[..Cut(m, 197)]))
  {
    if |m| > MAX_MESSAGE {
      var r, cut := Bounded(m), Cut(m, 197);
      EllipsisValid();
      if Valid(m[..cut]) {
        ValidJoin(m[..cut], ELLIPSIS);
      }
      if Valid(r) {
        assert r[cut] == 0xE2;
        CutBeforeStart(r, cut);
        assert r[..cut] == m[..cut];
      }
    }
  }
}
