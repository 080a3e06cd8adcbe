// The JavaScript built-ins the components rely on, stated over Dafny values:
// optional properties, numbers that may be NaN, parseInt, String(n),
// toLowerCase, String.prototype.includes and Array.prototype.filter.
module Js {

  datatype Option<T> = None | Some(value: T)

  /** A property of a JS object literal that may be absent (reads as `undefined`). */
  datatype Field<T> = Missing | Present(value: T)

  /** A JS number as the components produce it: an integer, or NaN. */
  datatype Number = Int(i: int) | NaN

  /** `x || 0` for a numeric property: the integer when it is truthy, 0 otherwise. */
  function OrZero(x: Field<Number>): (r: int)
    ensures r != 0 ==> x == Present(Int(r))
    ensures (x.Present? && x.value.Int? && x.value.i != 0) ==> r == x.value.i
  {
    match x
    case Present(Int(i)) => i
    case _ => 0
  }

  /** Truthiness of a numeric property: present, not NaN and not 0. */
  predicate Truthy(x: Field<Number>) {
    x.Present? && x.value.Int? && x.value.i != 0
  }

  /** JS `+` on two numbers: NaN is absorbing. */
  function Add(a: Number, b: Number): (r: Number)
    ensures r.Int? <==> a.Int? && b.Int?
    ensures r.Int? ==> r.i == a.i + b.i
  {
    if a.Int? && b.Int? then Int(a.i + b.i) else NaN
  }

  /** A number read from a possibly absent property (`undefined` behaves as NaN in arithmetic). */
  function Read(x: Field<Number>): (r: Number)
    ensures r.Int? <==> x.Present? && x.value.Int?
  {
    if x.Present? then x.value else NaN
  }

  // ---------------------------------------------------------------------------
  // Sums

  function Sum(s: seq<int>): int {
    if s == [] then 0 else Sum(s[..|s| - 1]) + s[|s| - 1]
  }

  lemma {:induction false} SumAppend(s: seq<int>, t: seq<int>)
    ensures Sum(s + t) == Sum(s) + Sum(t)
  {
    if t == [] {
      assert s + t == s;
    } else {
      assert (s + t)[..|s + t| - 1] == s + t[..|t| - 1];
      SumAppend(s, t[..|t| - 1]);
    }
  }

  // ---------------------------------------------------------------------------
  // Decimal digits, parseInt and String(n)

  predicate IsDigit(c: char) { '0' <= c <= '9' }

  predicate AllDigits(s: string) { forall i | 0 <= i < |s| :: IsDigit(s[i]) }

  function DigitValue(c: char): (d: nat)
    requires IsDigit(c)
    ensures d < 10
  {
    (c as int) - ('0' as int)
  }

  function DigitChar(d: nat): (c: char)
    requires d < 10
    ensures IsDigit(c) && DigitValue(c) == d
  {
    (('0' as int) + d) as char
  }

  /** The value of a string of decimal digits, most significant first. */
  function DecimalValue(s: string): nat
    requires AllDigits(s)
  {
    if s == [] then 0 else 10 * DecimalValue(s[..|s| - 1]) + DigitValue(s[|s| - 1])
  }

  /** The number of leading decimal digits of `s`. */
  function DigitRun(s: string): (n: nat)
    ensures n <= |s|
    ensures AllDigits(s[..n])
    ensures n < |s| ==> !IsDigit(s[n])
  {
    if s == [] || !IsDigit(s[0]) then 0
    else
      var k := DigitRun(s[1..]);
      assert s[..1 + k] == [s[0]] + s[1..][..k];
      1 + k
  }

  /** JS WhiteSpace and LineTerminator code points, which parseInt skips at the front. */
  predicate IsJsSpace(c: char) {
    c == ' ' || c == '\t' || c == '\n' || c == '\r' || c == '\U{000B}' || c == '\U{000C}'
    || c == '\U{00A0}' || c == '\U{1680}' || ('\U{2000}' <= c <= '\U{200A}') || c == '\U{2028}'
    || c == '\U{2029}' || c == '\U{202F}' || c == '\U{205F}' || c == '\U{3000}' || c == '\U{FEFF}'
  }

  function SpaceRun(s: string): (n: nat)
    ensures n <= |s|
    ensures forall i | 0 <= i < n :: IsJsSpace(s[i])
    ensures n < |s| ==> !IsJsSpace(s[n])
  {
    if s == [] || !IsJsSpace(s[0]) then 0 else 1 + SpaceRun(s[1..])
  }

  /**
   * `parseInt(s)` with no radix, for decimal text: leading white space is
   * skipped, one optional sign is read, then the longest run of decimal
   * digits; anything after that run is ignored. No digit gives NaN.
   */
  function ParseInt(s: string): (r: Number)
  {
    var t := s[SpaceRun(s)..];
    var negative := |t| > 0 && t[0] == '-';
    var u := if |t| > 0 && (t[0] == '-' || t[0] == '+') then t[1..] else t;
    var k := DigitRun(u);
    if k == 0 then NaN
    else if negative then Int(-(DecimalValue(u[..k]) as int))
    else Int(DecimalValue(u[..k]))
  }

  /** For text that starts with a digit, parseInt reads exactly the leading digit run. */
  lemma ParseIntDigitsPrefix(s: string)
    requires |s| > 0 && IsDigit(s[0])
    ensures ParseInt(s) == Int(DecimalValue(s[..DigitRun(s)]))
  {
    assert !IsJsSpace(s[0]);
    assert SpaceRun(s) == 0;
    assert s[0..] == s;
  }

  /** Text without any leading digit (after space and sign) is NaN. */
  lemma ParseIntNoDigit(s: string)
    requires |s| > 0 && !IsDigit(s[0]) && !IsJsSpace(s[0]) && s[0] != '-' && s[0] != '+'
    ensures ParseInt(s) == NaN
  {
    assert SpaceRun(s) == 0;
    assert s[0..] == s;
  }

  /** `String(n)` for a natural number: its decimal digits, no leading zeros. */
  function NatToString(n: nat): (s: string)
    ensures |s| > 0 && AllDigits(s)
  {
    if n < 10 then [DigitChar(n)] else NatToString(n / 10) + [DigitChar(n % 10)]
  }

  /** `String(i)`, which React also uses to render a number. */
  function IntToString(i: int): (s: string)
    ensures |s| > 0
  {
    if i < 0 then "-" + NatToString(-i) else NatToString(i)
  }

  lemma {:induction false} NatToStringValue(n: nat)
    ensures DecimalValue(NatToString(n)) == n
    ensures DigitRun(NatToString(n)) == |NatToString(n)|
  {
    var s := NatToString(n);
    if n >= 10 {
      NatToStringValue(n / 10);
      assert s[..|s| - 1] == NatToString(n / 10);
    }
    DigitRunAll(s);
  }

  lemma {:induction false} DigitRunAll(s: string)
    requires AllDigits(s)
    ensures DigitRun(s) == |s|
  {
    if s != [] {
      DigitRunAll(s[1..]);
    }
  }

  /** The digit run of `a + rest` is all of `a` when `rest` does not start with a digit. */
  lemma {:induction false} DigitRunStops(a: string, rest: string)
    requires AllDigits(a) && (rest == [] || !IsDigit(rest[0]))
    ensures DigitRun(a + rest) == |a|
  {
    if a != [] {
      DigitRunStops(a[1..], rest);
      assert (a + rest)[1..] == a[1..] + rest;
    } else {
      assert a + rest == rest;
    }
  }

  /** parseInt undoes String(i): the round trip the displayed labels rely on. */
  lemma ParseIntOfIntToString(i: int)
    ensures ParseInt(IntToString(i)) == Int(i)
  {
    var s := IntToString(i);
    var d := NatToString(if i < 0 then -i else i);
    NatToStringValue(if i < 0 then -i else i);
    assert !IsJsSpace(s[0]);
    assert SpaceRun(s) == 0;
    assert s[0..] == s;
    if i < 0 {
      assert s[1..] == d;
    } else {
      assert IsDigit(s[0]);
    }
    assert d[..|d|] == d;
  }

  /** A plus sign followed by nothing but digits reads as the digits' value. */
  lemma ParseIntPlus(d: string)
    requires |d| > 0 && DigitRun(d) == |d|
    ensures ParseInt("+" + d) == Int(DecimalValue(d))
  {
    var s := "+" + d;
    assert SpaceRun(s) == 0 by { assert s[0] == '+'; }
    assert s[0..] == s;
    assert s[1..] == d;
    assert d[..|d|] == d;
  }

  // ---------------------------------------------------------------------------
  // Strings

  /** `toLowerCase` on the ASCII letters. */
  function LowerChar(c: char): (r: char)
    ensures ('A' <= c <= 'Z') ==> r as int == c as int + 32
    ensures !('A' <= c <= 'Z') ==> r == c
  {
    if 'A' <= c <= 'Z' then ((c as int) + 32) as char else c
  }

  /** `toUpperCase` on the ASCII letters. */
  function UpperChar(c: char): (r: char)
    ensures ('a' <= c <= 'z') ==> r as int == c as int - 32
    ensures !('a' <= c <= 'z') ==> r == c
  {
    if 'a' <= c <= 'z' then ((c as int) - 32) as char else c
  }

  function ToLower(s: string): (r: string)
    ensures |r| == |s|
    ensures forall i | 0 <= i < |s| :: r[i] == LowerChar(s[i])
  {
    if s == [] then [] else [LowerChar(s[0])] + ToLower(s[1..])
  }

  /** `s.includes(q)`: `q` occurs in `s` as a contiguous block. */
  function Includes(s: string, q: string): bool
  {
    q <= s || (s != [] && Includes(s[1..], q))
  }

  predicate OccursAt(s: string, q: string, i: int) {
    0 <= i && i + |q| <= |s| && s[i..i + |q|] == q
  }

  lemma IncludesIff(s: string, q: string)
    ensures Includes(s, q) <==> exists i :: OccursAt(s, q, i)
  {
    if Includes(s, q) {
      IncludesGivesOccurrence(s, q);
    }
    forall i | OccursAt(s, q, i) ensures Includes(s, q) {
      OccurrenceGivesIncludes(s, q, i);
    }
  }

  lemma {:induction false} IncludesGivesOccurrence(s: string, q: string)
    requires Includes(s, q)
    ensures exists i :: OccursAt(s, q, i)
  {
    if q <= s {
      assert OccursAt(s, q, 0);
    } else {
      IncludesGivesOccurrence(s[1..], q);
      var i :| OccursAt(s[1..], q, i);
      assert s[1..][i..i + |q|] == s[i + 1..i + 1 + |q|];
      assert OccursAt(s, q, i + 1);
    }
  }

  lemma {:induction false} OccurrenceGivesIncludes(s: string, q: string, i: int)
    requires OccursAt(s, q, i)
    ensures Includes(s, q)
    decreases i
  {
    if i == 0 {
      assert q == s[..|q|];
    } else {
      assert s[1..][i - 1..i - 1 + |q|] == s[i..i + |q|];
      OccurrenceGivesIncludes(s[1..], q, i - 1);
    }
  }

  /** `s.replace(c, '')` with a one-character pattern: only the first occurrence goes. */
  function RemoveFirst(s: string, c: char): (r: string)
    ensures c !in s ==> r == s
    ensures c in s ==> |r| == |s| - 1
  {
    if s == [] then []
    else if s[0] == c then s[1..]
    else [s[0]] + RemoveFirst(s[1..], c)
  }

  /** `s.split(c)[0]`: the text before the first `c`, or all of `s`. */
  function BeforeFirst(s: string, c: char): (r: string)
    ensures r <= s && c !in r
    ensures |r| < |s| ==> s[|r|] == c
  {
    if s == [] || s[0] == c then [] else [s[0]] + BeforeFirst(s[1..], c)
  }

  /** Cut at the first c of `a + [c] + rest`, where `a` has no c: exactly `a`. */
  lemma {:induction false} BeforeFirstStops(a: string, c: char, rest: string)
    requires c !in a
    ensures BeforeFirst(a + [c] + rest, c) == a
  {
    var s := a + [c] + rest;
    if a == [] {
      assert s[0] == c;
    } else {
      BeforeFirstStops(a[1..], c, rest);
      assert s[0] == a[0] && s[1..] == a[1..] + [c] + rest;
      assert a == [a[0]] + a[1..];
    }
  }

  /** `s.charAt(0)`: the first character as a string, or '' for an empty string. */
  function CharAt0(s: string): (r: string)
    ensures |s| > 0 ==> r == [s[0]]
    ensures |s| == 0 ==> r == ""
  {
    if |s| > 0 then [s[0]] else ""
  }

  // ---------------------------------------------------------------------------
  // Array.prototype.find

  /** `s.find(test)`: the first element that passes, or undefined when none does. */
  function Find<T(==)>(s: seq<T>, test: T -> bool): (r: Option<T>)
    ensures r.None? <==> forall i | 0 <= i < |s| :: !test(s[i])
    ensures r.Some? ==>
      exists i | 0 <= i < |s| :: s[i] == r.value && test(s[i]) && forall j | 0 <= j < i :: !test(s[j])
  {
    if s == [] then None
    else if test(s[0]) then Some(s[0])
    else
      var r := Find(s[1..], test);
      if r.Some? then
        var i :| 0 <= i < |s[1..]| && s[1..][i] == r.value && test(s[1..][i])
          && forall j | 0 <= j < i :: !test(s[1..][j]);
        assert s[i + 1] == r.value && test(s[i + 1]);
        assert forall j | 0 <= j < i + 1 :: !test(s[j]) by {
          forall j | 0 <= j < i + 1 ensures !test(s[j]) {
            if j > 0 { assert s[j] == s[1..][j - 1]; }
          }
        }
        r
      else
        assert forall i | 0 <= i < |s| :: !test(s[i]) by {
          forall i | 0 <= i < |s| ensures !test(s[i]) {
            if i > 0 { assert s[i] == s[1..][i - 1]; }
          }
        }
        r
  }

  // ---------------------------------------------------------------------------
  // Array.prototype.filter and ordered subsequences

  function Filter<T>(s: seq<T>, keep: T -> bool): (r: seq<T>)
    ensures |r| <= |s|
  {
    if s == [] then [] else (if keep(s[0]) then [s[0]] else []) + Filter(s[1..], keep)
  }

  /** `a` is `b` with some elements dropped and the rest kept in order. */
  predicate IsSubsequence<T(==)>(a: seq<T>, b: seq<T>)
    decreases |b|
  {
    if a == [] then true
    else if b == [] then false
    else (a[0] == b[0] && IsSubsequence(a[1..], b[1..])) || IsSubsequence(a, b[1..])
  }

  lemma {:induction false} FilterIsSubsequence<T>(s: seq<T>, keep: T -> bool)
    ensures IsSubsequence(Filter(s, keep), s)
  {
    if s != [] {
      FilterIsSubsequence(s[1..], keep);
      var r := Filter(s, keep);
      if keep(s[0]) {
        assert r[0] == s[0] && r[1..] == Filter(s[1..], keep);
      } else {
        assert r == Filter(s[1..], keep);
      }
    }
  }

  lemma {:induction false} FilterMembers<T>(s: seq<T>, keep: T -> bool, x: T)
    ensures x in Filter(s, keep) <==> x in s && keep(x)
  {
    if s != [] {
      FilterMembers(s[1..], keep, x);
      assert s == [s[0]] + s[1..];
    }
  }

  lemma {:induction false} FilterKeepsAll<T>(s: seq<T>, keep: T -> bool)
    requires forall i | 0 <= i < |s| :: keep(s[i])
    ensures Filter(s, keep) == s
  {
    if s != [] {
      FilterKeepsAll(s[1..], keep);
      assert [s[0]] + s[1..] == s;
    }
  }

  /** Filters whose tests agree on every element of the list select the same elements. */
  lemma {:induction false} FiltersAgree<T>(s: seq<T>, p: T -> bool, q: T -> bool)
    requires forall i | 0 <= i < |s| :: p(s[i]) == q(s[i])
    ensures Filter(s, p) == Filter(s, q)
  {
    if s != [] {
      FiltersAgree(s[1..], p, q);
    }
  }

  /** Two filters whose tests never both hold select no common element. */
  lemma FiltersDisjoint<T>(s: seq<T>, p: T -> bool, q: T -> bool, x: T)
    requires forall y :: !(p(y) && q(y))
    ensures !(x in Filter(s, p) && x in Filter(s, q))
  {
    FilterMembers(s, p, x);
    FilterMembers(s, q, x);
  }

  /** Three filters of which exactly one holds of each element split the list. */
  lemma FiltersPartition<T>(s: seq<T>, p: T -> bool, q: T -> bool, u: T -> bool)
    requires forall y :: (p(y) || q(y) || u(y)) && !(p(y) && q(y)) && !(p(y) && u(y)) && !(q(y) && u(y))
    ensures multiset(Filter(s, p)) + multiset(Filter(s, q)) + multiset(Filter(s, u)) == multiset(s)
  {
    var all := (y: T) => true;
    FiltersSplit(s, p, q, u, all);
    FilterKeepsAll(s, all);
  }

  /** The head of the list goes to exactly one of three filters that split every element. */
  lemma PartitionHead<T>(s: seq<T>, p: T -> bool, q: T -> bool, u: T -> bool)
    requires s != []
    requires (p(s[0]) || q(s[0]) || u(s[0])) && !(p(s[0]) && q(s[0])) && !(p(s[0]) && u(s[0])) && !(q(s[0]) && u(s[0]))
    ensures multiset(Filter(s, p)) + multiset(Filter(s, q)) + multiset(Filter(s, u))
      == multiset{s[0]} + (multiset(Filter(s[1..], p)) + multiset(Filter(s[1..], q)) + multiset(Filter(s[1..], u)))
  {
    FilterStep(s, p);
    FilterStep(s, q);
    FilterStep(s, u);
  }

  /** Three filters that split the elements `all` keeps, and reject the rest, together keep what `all` keeps. */
  lemma {:induction false} FiltersSplit<T>(s: seq<T>, p: T -> bool, q: T -> bool, u: T -> bool, all: T -> bool)
    requires forall y :: (all(y) <==> p(y) || q(y) || u(y)) && !(p(y) && q(y)) && !(p(y) && u(y)) && !(q(y) && u(y))
    ensures multiset(Filter(s, p)) + multiset(Filter(s, q)) + multiset(Filter(s, u)) == multiset(Filter(s, all))
  {
    if s != [] {
      FiltersSplit(s[1..], p, q, u, all);
      var x := s[0];
      assert (all(x) <==> p(x) || q(x) || u(x)) && !(p(x) && q(x)) && !(p(x) && u(x)) && !(q(x) && u(x));
      FilterStep(s, all);
      if all(x) {
        PartitionHead(s, p, q, u);
      } else {
        FilterStep(s, p);
        FilterStep(s, q);
        FilterStep(s, u);
      }
    }
  }

  /** One step of the filter: the head is kept or dropped, then the tail is filtered. */
  lemma FilterStep<T>(s: seq<T>, keep: T -> bool)
    requires s != []
    ensures keep(s[0]) ==> Filter(s, keep) == [s[0]] + Filter(s[1..], keep)
    ensures !keep(s[0]) ==> Filter(s, keep) == Filter(s[1..], keep)
  {
  }

  /** Filtering a concatenation filters each part. */
  lemma {:induction false} FilterAppend<T>(s: seq<T>, t: seq<T>, keep: T -> bool)
    ensures Filter(s + t, keep) == Filter(s, keep) + Filter(t, keep)
  {
    if s == [] {
      assert s + t == t;
    } else {
      var u := s + t;
      assert u[0] == s[0] && u[1..] == s[1..] + t;
      FilterAppend(s[1..], t, keep);
      FilterStep(u, keep);
      FilterStep(s, keep);
      if keep(s[0]) {
        AppendAssoc([s[0]], Filter(s[1..], keep), Filter(t, keep));
      }
    }
  }

  lemma AppendAssoc<T>(a: seq<T>, b: seq<T>, c: seq<T>)
    ensures a + (b + c) == (a + b) + c
  {
  }
}
