/** Decimal numerals (Python's `str` of a natural number) and the ordering of
    file names (Python's comparison of strings, code point by code point). */
module Text {

  const DIGITS: string := "0123456789"

  /** `str(n)`. */
  function Decimal(n: nat): string {
    if n < 10 then [DIGITS[n]] else Decimal(n / 10) + [DIGITS[n % 10]]
  }

  function DigitValue(c: char): nat {
    if '0' <= c <= '9' then c as int - '0' as int else 0
  }

  /** The number a numeral stands for. */
  function NumberOf(s: string): nat {
    if s == [] then 0 else 10 * NumberOf(s[..|s| - 1]) + DigitValue(s[|s| - 1])
  }

  lemma DigitRoundTrip(n: nat)
    requires n < 10
    ensures NumberOf([DIGITS[n]]) == n && '0' <= DIGITS[n] <= '9' && (n > 0 ==> DIGITS[n] != '0')
  {
    assert [DIGITS[n]][..0] == [];
    assert NumberOf([DIGITS[n]]) == 10 * NumberOf([]) + DigitValue(DIGITS[n]);
  }

  lemma NumberOfMore(s: string, c: char)
    ensures NumberOf(s + [c]) == 10 * NumberOf(s) + DigitValue(c)
  {
    assert (s + [c])[..|s|] == s;
  }

  lemma {:induction false} DecimalRoundTrip(n: nat)
    ensures NumberOf(Decimal(n)) == n
    ensures forall c | c in Decimal(n) :: '0' <= c <= '9'
    ensures Decimal(n) != [] && (n > 0 ==> Decimal(n)[0] != '0')
  {
    DigitRoundTrip(n % 10);
    if n >= 10 {
      DecimalRoundTrip(n / 10);
      NumberOfMore(Decimal(n / 10), DIGITS[n % 10]);
    }
  }

  /** The last digit is the one of units. */
  lemma DecimalAppends(n: nat, d: nat)
    requires n > 0 && d < 10
    ensures Decimal(10 * n + d) == Decimal(n) + [('0' as int + d) as char]
  {
    assert DIGITS[d] == ('0' as int + d) as char;
  }

  /** Python's `a <= b` on strings. */
  predicate NameLeq(a: string, b: string) {
    a == [] || (b != [] && (a[0] < b[0] || (a[0] == b[0] && NameLeq(a[1..], b[1..]))))
  }

  /** Code point order: a prefix comes first, otherwise the first difference decides. */
  ghost predicate CodePointLeq(a: string, b: string) {
    a <= b || exists k: nat :: DiffersAt(a, b, k)
  }

  /** The first difference is at `k`, and `a` has the smaller character there. */
  predicate DiffersAt(a: string, b: string, k: nat) {
    k < |a| && k < |b| && a[..k] == b[..k] && a[k] < b[k]
  }

  lemma HeadsBefore(a: string, b: string, k: nat)
    requires DiffersAt(a, b, k)
    ensures k == 0 || a[0] == b[0]
  {
    if k > 0 {
      assert a[..k][0] == b[..k][0];
    }
  }

  lemma DiffersLater(a: string, b: string, k: nat)
    requires a != [] && b != [] && a[0] == b[0]
    ensures DiffersAt(a[1..], b[1..], k) <==> DiffersAt(a, b, k + 1)
  {
    if k < |a| - 1 && k < |b| - 1 {
      assert a[..k + 1] == [a[0]] + a[1..][..k] && b[..k + 1] == [b[0]] + b[1..][..k];
      assert a[..k + 1][1..] == a[1..][..k] && b[..k + 1][1..] == b[1..][..k];
    }
  }

  lemma PrefixLater(a: string, b: string)
    requires a != [] && b != [] && a[0] == b[0]
    ensures a[1..] <= b[1..] <==> a <= b
  {
    assert a == [a[0]] + a[1..] && b == [b[0]] + b[1..];
    if |a| <= |b| {
      assert b[..|a|] == [b[0]] + b[1..][..|a| - 1];
      assert b[..|a|][1..] == b[1..][..|a| - 1];
    }
  }

  /** The comparison is the order by code points. */
  lemma {:induction false} NameLeqIs(a: string, b: string)
    ensures NameLeq(a, b) <==> CodePointLeq(a, b)
  {
    if a == [] || b == [] {
      assert forall k: nat :: !DiffersAt(a, b, k);
    } else if a[0] != b[0] {
      assert a[..0] == b[..0];
      assert DiffersAt(a, b, 0) <==> a[0] < b[0];
      forall k: nat | DiffersAt(a, b, k) ensures k == 0 {
        HeadsBefore(a, b, k);
      }
      assert !(a <= b);
    } else {
      NameLeqIs(a[1..], b[1..]);
      PrefixLater(a, b);
      forall k: nat ensures DiffersAt(a[1..], b[1..], k) <==> DiffersAt(a, b, k + 1) {
        DiffersLater(a, b, k);
      }
      forall k: nat | DiffersAt(a, b, k) ensures k > 0 && DiffersAt(a[1..], b[1..], k - 1) {
        DiffersLater(a, b, k - 1);
      }
    }
  }

  lemma {:induction false} NameLeqTotal(a: string, b: string)
    ensures NameLeq(a, b) || NameLeq(b, a)
    ensures NameLeq(a, b) && NameLeq(b, a) ==> a == b
  {
    if a != [] && b != [] && a[0] == b[0] {
      NameLeqTotal(a[1..], b[1..]);
      assert a == [a[0]] + a[1..] && b == [b[0]] + b[1..];
    }
  }

  lemma {:induction false} NameLeqTransitive(a: string, b: string, c: string)
    requires NameLeq(a, b) && NameLeq(b, c)
    ensures NameLeq(a, c)
  {
    if a != [] && a[0] == b[0] == c[0] {
      NameLeqTransitive(a[1..], b[1..], c[1..]);
    }
  }

  /** `sorted(names)[0]`: every nonempty finite set of names has exactly one first name. */
  function FirstName(names: set<string>): (first: string)
    requires names != {}
    ensures first in names
    ensures forall x | x in names :: NameLeq(first, x) && CodePointLeq(first, x)
  {
    forall x, y ensures NameLeq(x, y) <==> CodePointLeq(x, y) { NameLeqIs(x, y); }
    SomeFirstName(names);
    var first :| IsFirst(names, first);
    first
  }

  predicate IsFirst(names: set<string>, first: string) {
    first in names && forall x | x in names :: NameLeq(first, x)
  }

  lemma FirstOfOneMore(rest: set<string>, low: string, pick: string) returns (first: string)
    requires IsFirst(rest, low)
    ensures IsFirst(rest + {pick}, first)
  {
    NameLeqTotal(pick, low);
    NameLeqTotal(pick, pick);
    first := if NameLeq(pick, low) then pick else low;
    forall x | x in rest ensures NameLeq(first, x) {
      if NameLeq(pick, low) { NameLeqTransitive(pick, low, x); }
    }
  }

  lemma {:induction false} FirstNameExists(names: set<string>) returns (first: string)
    requires names != {}
    ensures IsFirst(names, first)
    decreases |names|
  {
    var pick :| pick in names;
    var rest := names - {pick};
    assert names == rest + {pick};
    if rest == {} {
      NameLeqTotal(pick, pick);
      first := pick;
    } else {
      var low := FirstNameExists(rest);
      first := FirstOfOneMore(rest, low, pick);
    }
  }

  lemma SomeFirstName(names: set<string>)
    requires names != {}
    ensures exists first :: IsFirst(names, first)
    ensures forall a, b | IsFirst(names, a) && IsFirst(names, b) :: a == b
  {
    var first := FirstNameExists(names);
    forall a, b | IsFirst(names, a) && IsFirst(names, b) ensures a == b {
      NameLeqTotal(a, b);
    }
  }

  /** The first name is determined by being below every other one. */
  lemma FirstNameUnique(names: set<string>, low: string)
    requires low in names && forall x | x in names :: NameLeq(low, x)
    ensures FirstName(names) == low
  {
    NameLeqTotal(FirstName(names), low);
  }
}
