/** String helpers standing in for the JavaScript string operations the lead
    pipeline uses: `toLowerCase`, `includes`, `replace(/[^a-z0-9]/g, '')`,
    template-literal number rendering, `Array.prototype.join` and the
    relational operators on strings. */
module Text {
  import opened Collections

  /** `toLowerCase` on one character (ASCII letters only). */
  function LowerChar(c: char): (r: char)
    ensures 'A' <= c <= 'Z' ==> 'a' <= r <= 'z' && r as int == c as int + 32
    ensures !('A' <= c <= 'Z') ==> r == c
  {
    if 'A' <= c <= 'Z' then (c as int + 32) as char else c
  }

  predicate IsUpper(c: char) { 'A' <= c <= 'Z' }

  /** `s.toLowerCase()`, ASCII letters only. */
  function ToLower(s: string): (r: string)
    ensures |r| == |s|
    ensures forall i :: 0 <= i < |s| ==> r[i] == LowerChar(s[i])
    ensures forall i :: 0 <= i < |r| ==> !IsUpper(r[i])
  {
    seq(|s|, i requires 0 <= i < |s| => LowerChar(s[i]))
  }

  /** Lower-casing twice is lower-casing once. */
  lemma ToLowerIdempotent(s: string)
    ensures ToLower(ToLower(s)) == ToLower(s)
  {
    var once := ToLower(s);
    var twice := ToLower(once);
    assert |twice| == |once|;
    forall i | 0 <= i < |once| ensures twice[i] == once[i] {
      assert !IsUpper(once[i]);
    }
  }

  /** Lower-casing works character by character. */
  lemma ToLowerAppend(a: string, b: string)
    ensures ToLower(a + b) == ToLower(a) + ToLower(b)
  {
    var l, r := ToLower(a + b), ToLower(a) + ToLower(b);
    assert |l| == |r|;
    forall i | 0 <= i < |l| ensures l[i] == r[i] {
      if i < |a| {
        assert (a + b)[i] == a[i];
      } else {
        assert (a + b)[i] == b[i - |a|];
      }
    }
  }

  /** The characters kept by `replace(/[^a-z0-9]/g, '')`. */
  predicate IsLowerAlnum(c: char) { 'a' <= c <= 'z' || '0' <= c <= '9' }

  /** `s.replace(/[^a-z0-9]/g, '')`: every character outside [a-z0-9] removed. */
  function KeepLowerAlnum(s: string): (r: string)
    ensures |r| <= |s|
    ensures forall i :: 0 <= i < |r| ==> IsLowerAlnum(r[i])
    ensures forall i :: 0 <= i < |r| ==> r[i] in s
    ensures forall c :: multiset(r)[c] == if IsLowerAlnum(c) then multiset(s)[c] else 0
  {
    if s == [] then []
    else
      assert s == [s[0]] + s[1..];
      (if IsLowerAlnum(s[0]) then [s[0]] else []) + KeepLowerAlnum(s[1..])
  }

  /** The removal works piece by piece, so the kept characters stay in their
      input order. */
  lemma KeepLowerAlnumAppend(a: string, b: string)
    ensures KeepLowerAlnum(a + b) == KeepLowerAlnum(a) + KeepLowerAlnum(b)
  {
    KeepLowerAlnumIsFilter(a + b);
    KeepLowerAlnumIsFilter(a);
    KeepLowerAlnumIsFilter(b);
    FilterAppend(a, b, IsLowerAlnum);
  }

  /** The removal is the filter by the admissible characters. */
  lemma {:induction false} KeepLowerAlnumIsFilter(s: string)
    ensures KeepLowerAlnum(s) == Filter(s, IsLowerAlnum)
  {
    if s != [] {
      KeepLowerAlnumIsFilter(s[1..]);
    }
  }

  /** Removal keeps every admissible character, in order: on a string that is
      already lower-case alphanumeric nothing is removed. */
  lemma {:induction false} KeepLowerAlnumIdentity(s: string)
    requires forall i :: 0 <= i < |s| ==> IsLowerAlnum(s[i])
    ensures KeepLowerAlnum(s) == s
  {
    if s != [] {
      KeepLowerAlnumIdentity(s[1..]);
    }
  }

  /** The removal is idempotent. */
  lemma KeepLowerAlnumIdempotent(s: string)
    ensures KeepLowerAlnum(KeepLowerAlnum(s)) == KeepLowerAlnum(s)
  {
    KeepLowerAlnumIdentity(KeepLowerAlnum(s));
  }

  /** `t` occurs in `s` starting at index `i`. */
  predicate OccursAt(s: string, t: string, i: nat)
  {
    i + |t| <= |s| && s[i..i + |t|] == t
  }

  /** `s.includes(t)`. */
  function Contains(s: string, t: string): bool
    decreases |s|
  {
    t <= s || (|s| > 0 && Contains(s[1..], t))
  }

  /** Dropping the first character shifts every occurrence left by one. */
  lemma OccursShift(s: string, t: string, i: nat)
    requires i > 0 && |s| > 0
    ensures OccursAt(s, t, i) <==> OccursAt(s[1..], t, i - 1)
  {
    if i + |t| <= |s| {
      assert s[1..][i - 1..i - 1 + |t|] == s[i..i + |t|];
    }
  }

  /** `Contains` holds exactly when `t` occurs somewhere in `s`. */
  lemma {:induction false} ContainsIffOccurs(s: string, t: string)
    ensures Contains(s, t) <==> exists i: nat :: OccursAt(s, t, i)
    decreases |s|
  {
    if t <= s {
      assert OccursAt(s, t, 0);
    } else if |s| > 0 {
      ContainsIffOccurs(s[1..], t);
      if Contains(s[1..], t) {
        var i: nat :| OccursAt(s[1..], t, i);
        OccursShift(s, t, i + 1);
      } else {
        forall i: nat ensures !OccursAt(s, t, i) {
          if i > 0 {
            OccursShift(s, t, i);
          }
        }
      }
    } else {
      forall i: nat ensures !OccursAt(s, t, i) {
      }
    }
  }

  /** A string contains its own prefixes. */
  lemma ContainsPrefix(t: string, b: string)
    ensures Contains(t + b, t)
  {
    assert t <= t + b;
  }

  /** Text put in front keeps what a string contains. */
  lemma {:induction false} ContainsExtend(a: string, s: string, t: string)
    requires Contains(s, t)
    ensures Contains(a + s, t)
    decreases |a|
  {
    if a != [] {
      ContainsExtend(a[1..], s, t);
      assert (a + s)[1..] == a[1..] + s;
    } else {
      assert a + s == s;
    }
  }

  /** Text put behind keeps what a string contains. */
  lemma ContainsAppend(s: string, b: string, t: string)
    requires Contains(s, t)
    ensures Contains(s + b, t)
  {
    ContainsIffOccurs(s, t);
    var i: nat :| OccursAt(s, t, i);
    assert (s + b)[i..i + |t|] == s[i..i + |t|];
    assert OccursAt(s + b, t, i);
    ContainsIffOccurs(s + b, t);
  }

  /** A string contains every part it is built around. */
  lemma ContainsInside(a: string, t: string, b: string)
    ensures Contains(a + (t + b), t)
  {
    ContainsPrefix(t, b);
    ContainsExtend(a, t + b, t);
  }

  /** Every string includes the empty string. */
  lemma ContainsEmpty(s: string)
    ensures Contains(s, "")
  {
  }

  function DigitChar(d: nat): (c: char)
    requires d < 10
    ensures '0' <= c <= '9'
  {
    ('0' as int + d) as char
  }

  /** The value a string of decimal digits denotes (reference for `Decimal`). */
  function DigitsValue(s: string): int
  {
    if s == [] then 0 else DigitsValue(s[..|s| - 1]) * 10 + (s[|s| - 1] as int - '0' as int)
  }

  /** Template-literal rendering `${n}` of a non-negative integer. */
  function Decimal(n: nat): (r: string)
    ensures |r| >= 1
    ensures forall i :: 0 <= i < |r| ==> '0' <= r[i] <= '9'
  {
    if n < 10 then [DigitChar(n)] else Decimal(n / 10) + [DigitChar(n % 10)]
  }

  /** Reading the rendered digits back gives the number. */
  lemma {:induction false} DecimalRoundTrip(n: nat)
    ensures DigitsValue(Decimal(n)) == n
  {
    if n >= 10 {
      DecimalRoundTrip(n / 10);
      var r := Decimal(n);
      assert r[..|r| - 1] == Decimal(n / 10);
    }
  }

  /** Numbers in [10^(k-1), 10^k) render with k digits; the two cases used by
      the phone-number format. */
  lemma DecimalLength(n: nat)
    ensures 100 <= n <= 999 ==> |Decimal(n)| == 3
    ensures 1000 <= n <= 9999 ==> |Decimal(n)| == 4
  {
    if 100 <= n <= 999 {
      assert |Decimal(n / 10)| == 2 by {
        assert 10 <= n / 10 <= 99;
        assert |Decimal(n / 100)| == 1;
      }
    }
    if 1000 <= n <= 9999 {
      assert |Decimal(n / 10)| == 3 by {
        assert 100 <= n / 10 <= 999;
        assert |Decimal(n / 100)| == 2 by {
          assert |Decimal(n / 1000)| == 1;
        }
      }
    }
  }

  /** Template-literal rendering of any integer (a minus sign for negatives). */
  function IntDecimal(i: int): string
  {
    if i < 0 then "-" + Decimal(-i) else Decimal(i)
  }

  /** `xs.join(sep)`. */
  function Join(xs: seq<string>, sep: string): (r: string)
  {
    if xs == [] then ""
    else if |xs| == 1 then xs[0]
    else xs[0] + sep + Join(xs[1..], sep)
  }

  /** A non-empty join ends with its last part, preceded by a separator when
      there is more than one part. */
  lemma {:induction false} JoinEndsWithLast(xs: seq<string>, sep: string)
    requires |xs| >= 1
    ensures |xs| == 1 ==> Join(xs, sep) == xs[0]
    ensures |xs| > 1 ==> Join(xs, sep) == Join(xs[..|xs| - 1], sep) + sep + xs[|xs| - 1]
  {
    if |xs| > 2 {
      JoinEndsWithLast(xs[1..], sep);
      assert xs[1..][..|xs[1..]| - 1] == xs[..|xs| - 1][1..];
    } else if |xs| == 2 {
      assert xs[..1] == [xs[0]];
    }
  }

  /** A join contains what its first part contains. */
  lemma JoinContainsFirst(xs: seq<string>, sep: string, t: string)
    requires |xs| >= 1 && Contains(xs[0], t)
    ensures Contains(Join(xs, sep), t)
  {
    if |xs| > 1 {
      ContainsAppend(xs[0], sep, t);
      ContainsAppend(xs[0] + sep, Join(xs[1..], sep), t);
    }
  }

  /** A join contains what its last part contains. */
  lemma JoinContainsLast(xs: seq<string>, sep: string, t: string)
    requires |xs| >= 1 && Contains(xs[|xs| - 1], t)
    ensures Contains(Join(xs, sep), t)
  {
    JoinEndsWithLast(xs, sep);
    if |xs| > 1 {
      ContainsExtend(Join(xs[..|xs| - 1], sep) + sep, xs[|xs| - 1], t);
    }
  }

  /** The JavaScript `<` on strings: lexicographic by character code. */
  predicate StrLt(a: string, b: string)
  {
    if a == [] then b != []
    else if b == [] then false
    else if a[0] != b[0] then a[0] < b[0]
    else StrLt(a[1..], b[1..])
  }

  lemma {:induction false} StrLtIrreflexive(a: string)
    ensures !StrLt(a, a)
  {
    if a != [] {
      StrLtIrreflexive(a[1..]);
    }
  }

  lemma {:induction false} StrLtTransitive(a: string, b: string, c: string)
    requires StrLt(a, b) && StrLt(b, c)
    ensures StrLt(a, c)
  {
    if a != [] && b != [] && c != [] && a[0] == b[0] && b[0] == c[0] {
      StrLtTransitive(a[1..], b[1..], c[1..]);
    }
  }

  /** Two different strings are ordered one way or the other. */
  lemma {:induction false} StrLtTrichotomy(a: string, b: string)
    ensures a == b || StrLt(a, b) || StrLt(b, a)
  {
    if a != [] && b != [] && a[0] == b[0] {
      StrLtTrichotomy(a[1..], b[1..]);
      if a[1..] == b[1..] {
        assert a == [a[0]] + a[1..] && b == [b[0]] + b[1..];
      }
    }
  }
}
