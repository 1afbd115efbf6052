/** Python values and string helpers shared by the three Lambda handlers. */
module Common {

  /** An optional value: a dictionary lookup with `.get` that may find nothing. */
  datatype Option<+T> = None | Some(value: T) {
    /** `d.get(key, default)`: the value when present, otherwise the default. */
    function GetOr(default: T): T {
      match this
      case Some(v) => v
      case None => default
    }
  }

  /** Python truthiness of an optional string (`if not s:` fails for None and for ""). */
  predicate Present(s: Option<string>) {
    s.Some? && s.value != ""
  }

  /** How an f-string renders an optional string: a missing value prints as `None`. */
  function PyStr(s: Option<string>): string {
    match s
    case Some(v) => v
    case None => "None"
  }

  function Digit(d: nat): (c: char)
    requires d < 10
    ensures '0' <= c <= '9'
    ensures c as int - '0' as int == d
  {
    (d + '0' as int) as char
  }

  /** `str(n)` for a non-negative integer: its decimal digits, without leading zeros. */
  function Decimal(n: nat): (s: string)
    ensures |s| >= 1
    ensures (|s| == 1) == (n < 10)
    ensures forall k :: 0 <= k < |s| ==> '0' <= s[k] <= '9'
    decreases n
  {
    if n < 10 then [Digit(n)] else Decimal(n / 10) + [Digit(n % 10)]
  }

  /** Distinct numbers have distinct decimal renderings. */
  lemma {:induction false} DecimalInjective(m: nat, n: nat)
    requires Decimal(m) == Decimal(n)
    ensures m == n
    decreases m
  {
    if m >= 10 && n >= 10 {
      var dm, dn := Decimal(m), Decimal(n);
      assert dm == Decimal(m / 10) + [Digit(m % 10)];
      assert dn == Decimal(n / 10) + [Digit(n % 10)];
      assert dm[..|dm| - 1] == Decimal(m / 10);
      assert dn[..|dn| - 1] == Decimal(n / 10);
      assert Digit(m % 10) == dm[|dm| - 1] == dn[|dn| - 1] == Digit(n % 10);
      DecimalInjective(m / 10, n / 10);
    } else {
      assert m < 10 && n < 10;
      assert Digit(m) == Decimal(m)[0] == Decimal(n)[0] == Digit(n);
    }
  }

  /** `s.replace(from, to)` for single characters: every occurrence of `from` becomes `to`. */
  function ReplaceAll(s: string, from: char, to: char): (r: string)
    ensures |r| == |s|
    ensures forall k :: 0 <= k < |s| ==> r[k] == if s[k] == from then to else s[k]
    ensures from != to ==> from !in r
  {
    if s == [] then []
    else [if s[0] == from then to else s[0]] + ReplaceAll(s[1..], from, to)
  }

  /** Replacing characters works position by position, so it splits over concatenation. */
  lemma ReplaceAllAppend(a: string, b: string, from: char, to: char)
    ensures ReplaceAll(a + b, from, to) == ReplaceAll(a, from, to) + ReplaceAll(b, from, to)
  {
    var l, r := ReplaceAll(a + b, from, to), ReplaceAll(a, from, to) + ReplaceAll(b, from, to);
    assert |l| == |r|;
    forall k | 0 <= k < |l| ensures l[k] == r[k] {
      if k < |a| {
        assert (a + b)[k] == a[k];
      } else {
        assert (a + b)[k] == b[k - |a|];
      }
    }
  }

  /** A string without `from` is left unchanged. */
  lemma ReplaceAllAbsent(s: string, from: char, to: char)
    requires from !in s
    ensures ReplaceAll(s, from, to) == s
  {
    var r := ReplaceAll(s, from, to);
    forall k | 0 <= k < |s| ensures r[k] == s[k] {
      assert s[k] != from;
    }
  }

  // ------------------------------------------------------------ concatenation

  /** The pieces joined end to end, in order: what a loop of `+=` or `append` builds. */
  function Concat<T>(parts: seq<seq<T>>): seq<T> {
    if parts == [] then [] else Concat(parts[..|parts| - 1]) + parts[|parts| - 1]
  }

  /** The sum of the pieces' lengths. */
  function TotalLength<T>(parts: seq<seq<T>>): nat {
    if parts == [] then 0 else TotalLength(parts[..|parts| - 1]) + |parts[|parts| - 1]|
  }

  lemma AppendAssociative<T>(a: seq<T>, b: seq<T>, c: seq<T>, d: seq<T>)
    ensures a + b + c + d == a + (b + c + d)
  {
  }

  lemma PrefixOfAppend<T>(a: seq<T>, b: seq<T>)
    ensures a <= a + b
  {
    assert (a + b)[..|a|] == a;
  }

  lemma ConcatSnoc<T>(parts: seq<seq<T>>, p: seq<T>)
    ensures Concat(parts + [p]) == Concat(parts) + p
  {
    assert (parts + [p])[..|parts|] == parts;
  }

  lemma {:induction false} ConcatAppend<T>(a: seq<seq<T>>, b: seq<seq<T>>)
    ensures Concat(a + b) == Concat(a) + Concat(b)
    decreases |b|
  {
    if b == [] {
      assert a + b == a;
    } else {
      var b', last := b[..|b| - 1], b[|b| - 1];
      var x, y := Concat(a), Concat(b');
      assert Concat(a + b) == Concat(a + b') + last by {
        assert a + b == (a + b') + [last];
        ConcatSnoc(a + b', last);
      }
      assert Concat(a + b') == x + y by { ConcatAppend(a, b'); }
      assert Concat(b) == y + last;
      assert (x + y) + last == x + (y + last);
    }
  }

  /** Piece `k` appears whole, after the pieces before it and before the pieces after it. */
  lemma ConcatAt<T>(parts: seq<seq<T>>, k: nat)
    requires k < |parts|
    ensures Concat(parts) == Concat(parts[..k]) + parts[k] + Concat(parts[k + 1..])
  {
    ConcatSplit(parts, k + 1);
    ConcatPrefix(parts, k);
  }

  lemma ConcatSplit<T>(parts: seq<seq<T>>, k: nat)
    requires k <= |parts|
    ensures Concat(parts) == Concat(parts[..k]) + Concat(parts[k..])
  {
    assert parts[..k] + parts[k..] == parts;
    ConcatAppend(parts[..k], parts[k..]);
  }

  lemma ConcatPrefix<T>(parts: seq<seq<T>>, k: nat)
    requires k < |parts|
    ensures Concat(parts[..k + 1]) == Concat(parts[..k]) + parts[k]
  {
    assert parts[..k + 1][..k] == parts[..k];
  }

  lemma {:induction false} ConcatLength<T>(parts: seq<seq<T>>)
    ensures |Concat(parts)| == TotalLength(parts)
    decreases |parts|
  {
    if parts != [] {
      ConcatLength(parts[..|parts| - 1]);
    }
  }

  /** An element of the concatenation is an element of some piece, and conversely. */
  lemma {:induction false} ConcatMembership<T>(parts: seq<seq<T>>, x: T)
    ensures x in Concat(parts) <==> exists k :: 0 <= k < |parts| && x in parts[k]
    decreases |parts|
  {
    if parts != [] {
      var init := parts[..|parts| - 1];
      ConcatMembership(init, x);
      if x in Concat(init) {
        var k :| 0 <= k < |init| && x in init[k];
        assert parts[k] == init[k];
      }
      if exists k :: 0 <= k < |parts| && x in parts[k] {
        var k :| 0 <= k < |parts| && x in parts[k];
        if k < |init| {
          assert init[k] == parts[k];
        }
      }
    }
  }
}
