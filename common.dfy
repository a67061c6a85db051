/** Value-level helpers shared by every part of the model: an Option type,
    JavaScript's Math.round, de-duplication in Set insertion order, filtering,
    ASCII whitespace and trimming, single-character replacement and joining. */
module Common {

  datatype Option<T> = None | Some(value: T)

  /** The outcome of a backend call: its result, or a rejected promise. */
  datatype Response<T> = Ok(value: T) | Failed

  /** A string-valued field of a backend JSON object: undefined, null or a
      string. */
  datatype JsString = Undef | Null | Str(s: string)

  /** A field is truthy when it holds a non-empty string. */
  predicate IsTruthy(v: JsString)
  {
    v.Str? && v.s != ""
  }

  /** String(v) in JavaScript. */
  function StringOf(v: JsString): string
  {
    match v
    case Undef => "undefined"
    case Null => "null"
    case Str(s) => s
  }

  /** `r.id || r.uuid || r.pk || String(r.id)`, the id both list pages
      read from a backend item. An item with none of the three gets
      "undefined", "null" or "" from String(r.id). */
  function PickId(id: JsString, uuid: JsString, pk: JsString): (r: string)
    ensures IsTruthy(id) ==> r == id.s
    ensures !IsTruthy(id) && IsTruthy(uuid) ==> r == uuid.s
    ensures !IsTruthy(id) && !IsTruthy(uuid) && IsTruthy(pk) ==> r == pk.s
    ensures !IsTruthy(id) && !IsTruthy(uuid) && !IsTruthy(pk) ==> r == StringOf(id)
  {
    if IsTruthy(id) then id.s
    else if IsTruthy(uuid) then uuid.s
    else if IsTruthy(pk) then pk.s
    else StringOf(id)
  }

  /** `a || b`, with b a string. */
  function TextOr(a: JsString, b: string): (r: string)
    ensures IsTruthy(a) ==> r == a.s
    ensures !IsTruthy(a) ==> r == b
  {
    if IsTruthy(a) then a.s else b
  }

  /** Math.round(x) over reals: floor(x + 1/2), so half-way values round up. */
  function Round(x: real): (r: int)
    ensures x - 0.5 < r as real <= x + 0.5
  {
    (x + 0.5).Floor
  }

  lemma RoundMonotonic(x: real, y: real)
    requires x <= y
    ensures Round(x) <= Round(y)
  {
  }

  lemma RoundOfInt(n: int)
    ensures Round(n as real) == n
  {
  }

  function MinReal(a: real, b: real): (r: real)
    ensures r <= a && r <= b && (r == a || r == b)
  {
    if a <= b then a else b
  }

  function MaxReal(a: real, b: real): (r: real)
    ensures r >= a && r >= b && (r == a || r == b)
  {
    if a >= b then a else b
  }

  function MinInt(a: int, b: int): (r: int)
    ensures r <= a && r <= b && (r == a || r == b)
  {
    if a <= b then a else b
  }

  /** Dividing by a positive n keeps the order of 0 <= c <= d <= n, and the
      quotient reaches 1 only at c == n. */
  lemma RatioBounds(c: real, d: real, n: real)
    requires 0.0 <= c <= d <= n && n > 0.0
    ensures 0.0 <= c / n <= d / n <= 1.0
    ensures c / n == 1.0 ==> c == n
  {
    var q := c / n;
    var r := d / n;
    assert q * n == c && r * n == d;
    assert (r - q) * n == d - c;
    assert (1.0 - r) * n == n - d;
  }

  // ---------------------------------------------------------------------
  // Sequences
  // ---------------------------------------------------------------------

  predicate NoDup<T(==)>(s: seq<T>)
  {
    forall i, j :: 0 <= i < j < |s| ==> s[i] != s[j]
  }

  /** Index of the first occurrence of x in s. */
  function FirstIndex<T(==)>(s: seq<T>, x: T): (k: nat)
    requires x in s
    ensures k < |s| && s[k] == x && x !in s[..k]
  {
    if s[0] == x then 0 else 1 + FirstIndex(s[1..], x)
  }

  /** Array.from(new Set(s)): each element once, at the place it was first
      inserted. Defined from the end, as the Set is filled left to right. */
  function Dedup<T(==,!new)>(s: seq<T>): (r: seq<T>)
    ensures forall x :: x in r <==> x in s
    ensures NoDup(r)
    ensures |r| <= |s|
  {
    if s == [] then []
    else
      var d := Dedup(s[..|s| - 1]);
      if s[|s| - 1] in d then d else d + [s[|s| - 1]]
  }

  lemma DedupSnoc<T(!new)>(s: seq<T>, x: T)
    ensures Dedup(s + [x]) == if x in Dedup(s) then Dedup(s) else Dedup(s) + [x]
  {
    assert (s + [x])[..|s + [x]| - 1] == s;
  }

  /** De-duplicating a sequence without duplicates changes nothing. */
  lemma {:induction false} DedupOfNoDup<T(!new)>(s: seq<T>)
    requires NoDup(s)
    ensures Dedup(s) == s
  {
    if s != [] {
      var p := s[..|s| - 1];
      assert NoDup(p);
      DedupOfNoDup(p);
      assert s[|s| - 1] !in p;
      assert p + [s[|s| - 1]] == s;
    }
  }

  /** The kept elements appear in the order of their first occurrence. */
  lemma {:induction false} DedupFirstOccurrenceOrder<T(!new)>(s: seq<T>, i: nat, j: nat)
    requires i < j < |Dedup(s)|
    ensures FirstIndex(s, Dedup(s)[i]) < FirstIndex(s, Dedup(s)[j])
  {
    var p := s[..|s| - 1];
    var x := s[|s| - 1];
    var d := Dedup(p);
    assert s == p + [x];
    forall y | y in p ensures FirstIndex(s, y) == FirstIndex(p, y) {
      FirstIndexPrefix(p, x, y);
    }
    if x in d {
      DedupFirstOccurrenceOrder(p, i, j);
    } else if j < |d| {
      DedupFirstOccurrenceOrder(p, i, j);
    } else {
      assert Dedup(s)[j] == x && x !in p;
      assert FirstIndex(s, x) == |p| by { FirstIndexLast(p, x); }
    }
  }

  lemma {:induction false} FirstIndexPrefix<T>(p: seq<T>, x: T, y: T)
    requires y in p
    ensures FirstIndex(p + [x], y) == FirstIndex(p, y)
  {
    if p[0] != y {
      assert (p + [x])[1..] == p[1..] + [x];
      FirstIndexPrefix(p[1..], x, y);
    }
  }

  lemma {:induction false} FirstIndexLast<T>(p: seq<T>, x: T)
    requires x !in p
    ensures FirstIndex(p + [x], x) == |p|
  {
    if p != [] {
      assert (p + [x])[1..] == p[1..] + [x];
      FirstIndexLast(p[1..], x);
    }
  }

  /** Array.prototype.filter. */
  function Filter<T(!new)>(s: seq<T>, keep: T -> bool): (r: seq<T>)
    ensures |r| <= |s|
    ensures forall x :: x in r <==> x in s && keep(x)
  {
    if s == [] then []
    else if keep(s[0]) then [s[0]] + Filter(s[1..], keep)
    else Filter(s[1..], keep)
  }

  lemma {:induction false} FilterAllKept<T(!new)>(s: seq<T>, keep: T -> bool)
    requires forall x :: x in s ==> keep(x)
    ensures Filter(s, keep) == s
  {
    if s != [] {
      FilterAllKept(s[1..], keep);
    }
  }

  lemma {:induction false} FilterAppend<T(!new)>(a: seq<T>, b: seq<T>, keep: T -> bool)
    ensures Filter(a + b, keep) == Filter(a, keep) + Filter(b, keep)
  {
    if a == [] {
      assert a + b == b;
    } else {
      assert (a + b)[1..] == a[1..] + b;
      FilterAppend(a[1..], b, keep);
    }
  }

  lemma {:induction false} FilterNoneKept<T(!new)>(s: seq<T>, keep: T -> bool)
    requires forall x :: x in s ==> !keep(x)
    ensures Filter(s, keep) == []
  {
    if s != [] {
      FilterNoneKept(s[1..], keep);
    }
  }

  /** Filtering twice by the same test is filtering once. */
  lemma {:induction false} FilterIdempotent<T(!new)>(s: seq<T>, keep: T -> bool)
    ensures Filter(Filter(s, keep), keep) == Filter(s, keep)
  {
    if s != [] {
      FilterIdempotent(s[1..], keep);
    }
  }

  /** What one test keeps and its negation keeps add up to the whole. */
  lemma {:induction false} FilterSplitLength<T(!new)>(s: seq<T>, keep: T -> bool)
    ensures |Filter(s, keep)| + |Filter(s, x => !keep(x))| == |s|
  {
    if s != [] {
      FilterSplitLength(s[1..], keep);
    }
  }

  /** Array.prototype.findIndex as an Option: the first index whose element
      passes the test, or None when none does. */
  function FindIndex<T>(s: seq<T>, p: T -> bool): (r: Option<nat>)
    ensures r.Some? ==> r.value < |s| && p(s[r.value]) && forall j :: 0 <= j < r.value ==> !p(s[j])
    ensures r.None? ==> forall j :: 0 <= j < |s| ==> !p(s[j])
  {
    if s == [] then None
    else if p(s[0]) then Some(0)
    else match FindIndex(s[1..], p)
      case None => None
      case Some(k) => Some(k + 1)
  }

  /** Number of occurrences of x in s. */
  function Count<T(==)>(s: seq<T>, x: T): (n: nat)
    ensures n <= |s|
    ensures n == 0 <==> x !in s
  {
    if s == [] then 0 else (if s[0] == x then 1 else 0) + Count(s[1..], x)
  }

  lemma {:induction false} CountAppend<T>(a: seq<T>, b: seq<T>, x: T)
    ensures Count(a + b, x) == Count(a, x) + Count(b, x)
  {
    if a == [] {
      assert a + b == b;
    } else {
      assert (a + b)[1..] == a[1..] + b;
      CountAppend(a[1..], b, x);
    }
  }

  /** Concatenation of a sequence of sequences (Array.prototype.flat). */
  function Flatten<T(!new)>(ss: seq<seq<T>>): (r: seq<T>)
    ensures forall x :: x in r <==> exists i :: 0 <= i < |ss| && x in ss[i]
  {
    if ss == [] then []
    else
      var r := Flatten(ss[..|ss| - 1]) + ss[|ss| - 1];
      assert forall i :: 0 <= i < |ss| - 1 ==> ss[..|ss| - 1][i] == ss[i];
      r
  }

  lemma FlattenSnoc<T(!new)>(ss: seq<seq<T>>, s: seq<T>)
    ensures Flatten(ss + [s]) == Flatten(ss) + s
  {
    assert (ss + [s])[..|ss|] == ss;
  }

  // ---------------------------------------------------------------------
  // Characters and strings
  // ---------------------------------------------------------------------

  predicate IsAscii(s: string)
  {
    forall i :: 0 <= i < |s| ==> s[i] < 128 as char
  }

  /** The ASCII members of JavaScript's whitespace class (\s and the set that
      String.prototype.trim removes): tab, line feed, vertical tab, form feed,
      carriage return and space. */
  predicate IsSpace(c: char)
  {
    c == ' ' || ('\t' <= c <= '\r')
  }

  predicate AllSpace(s: string)
  {
    forall i :: 0 <= i < |s| ==> IsSpace(s[i])
  }

  /** Length of the whitespace run at the start of s. */
  function LeadingSpaces(s: string): (n: nat)
    ensures n <= |s| && AllSpace(s[..n])
    ensures n < |s| ==> !IsSpace(s[n])
  {
    if s == [] || !IsSpace(s[0]) then 0 else 1 + LeadingSpaces(s[1..])
  }

  /** Length of s once its trailing whitespace run is dropped. */
  function TrailingStart(s: string): (n: nat)
    ensures n <= |s| && AllSpace(s[n..])
    ensures 0 < n ==> !IsSpace(s[n - 1])
  {
    if s == [] || !IsSpace(s[|s| - 1]) then |s| else TrailingStart(s[..|s| - 1])
  }

  /** String.prototype.trim over ASCII text. */
  function Trim(s: string): (r: string)
    ensures |r| <= |s|
    ensures r == [] || (!IsSpace(r[0]) && !IsSpace(r[|r| - 1]))
    ensures r == [] <==> AllSpace(s)
  {
    var a := LeadingSpaces(s);
    if a == |s| then []
    else
      var t := s[a..];
      var b := TrailingStart(t);
      assert !IsSpace(t[0]);
      t[..b]
  }

  /** The text without surrounding whitespace is kept as a contiguous piece. */
  lemma TrimIsInfix(s: string)
    ensures exists a: nat, b: nat :: a <= b <= |s| && Trim(s) == s[a..b] && AllSpace(s[..a]) && AllSpace(s[b..])
  {
    var a := LeadingSpaces(s);
    if a == |s| {
      assert Trim(s) == s[a..a];
    } else {
      var t := s[a..];
      var b := TrailingStart(t);
      assert Trim(s) == s[a..a + b];
      assert s[a + b..] == t[b..];
    }
  }

  /** `!s.trim()` in JavaScript: the string is empty after trimming. */
  predicate IsBlank(s: string)
  {
    Trim(s) == []
  }

  /** String.prototype.replace with a one-character string pattern: only the
      first occurrence is replaced. */
  function ReplaceFirst(s: string, a: char, b: char): (r: string)
    ensures |r| == |s|
    ensures forall i :: 0 <= i < |s| && a in s[..i] ==> r[i] == s[i]
    ensures forall i :: 0 <= i < |s| && a !in s[..i] ==> r[i] == (if s[i] == a then b else s[i])
  {
    if s == [] then []
    else if s[0] == a then [b] + s[1..]
    else
      var rest := ReplaceFirst(s[1..], a, b);
      assert forall i :: 1 <= i < |s| ==> (a in s[..i] <==> a in s[1..][..i - 1]);
      [s[0]] + rest
  }

  /** String.prototype.replace with a global one-character pattern. */
  function ReplaceAll(s: string, a: char, b: char): (r: string)
    ensures |r| == |s|
    ensures forall i :: 0 <= i < |s| ==> r[i] == (if s[i] == a then b else s[i])
  {
    if s == [] then [] else [if s[0] == a then b else s[0]] + ReplaceAll(s[1..], a, b)
  }

  /** Array.prototype.join. */
  function Join(xs: seq<string>, sep: string): string
  {
    if xs == [] then ""
    else if |xs| == 1 then xs[0]
    else xs[0] + sep + Join(xs[1..], sep)
  }
}
