/** String helpers with the semantics of the Rust standard library calls the
    source makes: `starts_with`, `ends_with`, `join`, `split`, integer
    `Display`, and the byte-wise ordering `sort` uses on `String`. */
module Strings {

  predicate StartsWith(s: string, prefix: string) {
    |prefix| <= |s| && s[..|prefix|] == prefix
  }

  predicate EndsWith(s: string, suffix: string) {
    |suffix| <= |s| && s[|s| - |suffix|..] == suffix
  }

  /** `parts.join(sep)`. */
  function Join(parts: seq<string>, sep: string): string {
    if |parts| == 0 then ""
    else if |parts| == 1 then parts[0]
    else parts[0] + sep + Join(parts[1..], sep)
  }

  /** Joining one more part appends the separator and that part. */
  lemma {:induction false} JoinAppend(parts: seq<string>, sep: string, p: string)
    requires |parts| >= 1
    ensures Join(parts + [p], sep) == Join(parts, sep) + sep + p
  {
    if |parts| == 1 {
      assert (parts + [p])[1..] == [p];
    } else {
      assert (parts + [p])[1..] == parts[1..] + [p];
      JoinAppend(parts[1..], sep, p);
    }
  }

  /** `s.split(d)`: always at least one piece; "" splits into [""]. */
  function Split(s: string, d: char): (r: seq<string>)
    ensures |r| >= 1
  {
    if s == [] then [""]
    else
      var rest := Split(s[1..], d);
      if s[0] == d then [""] + rest
      else [[s[0]] + rest[0]] + rest[1..]
  }

  /** Splitting and joining back with the delimiter gives the input, and no
      piece contains the delimiter. */
  lemma {:induction false} SplitJoin(s: string, d: char)
    ensures Join(Split(s, d), [d]) == s
    ensures forall i :: 0 <= i < |Split(s, d)| ==> d !in Split(s, d)[i]
  {
    if s != [] {
      var rest := Split(s[1..], d);
      SplitJoin(s[1..], d);
      if s[0] == d {
        assert Split(s, d) == [""] + rest;
        if |rest| == 1 {
          assert Join([""] + rest, [d]) == "" + [d] + rest[0];
        } else {
          assert ([""] + rest)[1..] == rest;
        }
      } else {
        var r := Split(s, d);
        assert r == [[s[0]] + rest[0]] + rest[1..];
        if |rest| == 1 {
          assert Join(r, [d]) == [s[0]] + rest[0];
        } else {
          assert r[1..] == rest[1..];
          assert Join(rest, [d]) == rest[0] + [d] + Join(rest[1..], [d]);
          assert Join(r, [d]) == [s[0]] + rest[0] + [d] + Join(rest[1..], [d]);
        }
        forall i | 0 <= i < |r| ensures d !in r[i] {
          if i == 0 {
            assert d !in rest[0];
          } else {
            assert r[i] == rest[i];
          }
        }
      }
    }
  }

  /** Number of occurrences of `c` in `s`. */
  function CountChar(s: string, c: char): nat {
    if s == [] then 0 else (if s[0] == c then 1 else 0) + CountChar(s[1..], c)
  }

  lemma {:induction false} CountCharConcat(a: string, b: string, c: char)
    ensures CountChar(a + b, c) == CountChar(a, c) + CountChar(b, c)
  {
    if a == [] {
      assert a + b == b;
    } else {
      assert (a + b)[0] == a[0];
      assert (a + b)[1..] == a[1..] + b;
      CountCharConcat(a[1..], b, c);
    }
  }

  lemma {:induction false} CountCharAbsent(s: string, c: char)
    requires c !in s
    ensures CountChar(s, c) == 0
  {
    if s != [] {
      assert s[0] != c;
      assert forall k :: 0 <= k < |s[1..]| ==> s[1..][k] == s[k + 1];
      CountCharAbsent(s[1..], c);
    }
  }

  lemma AppendAbsent(a: string, b: string, c: char)
    requires c !in b
    ensures CountChar(a + b, c) == CountChar(a, c)
  {
    CountCharConcat(a, b, c);
    CountCharAbsent(b, c);
  }

  lemma PrependAbsent(a: string, b: string, c: char)
    requires c !in a
    ensures CountChar(a + b, c) == CountChar(b, c)
  {
    CountCharConcat(a, b, c);
    CountCharAbsent(a, c);
  }

  /** Total occurrences of `c` over all parts. */
  function SumCount(parts: seq<string>, c: char): nat {
    if parts == [] then 0 else CountChar(parts[0], c) + SumCount(parts[1..], c)
  }

  lemma {:induction false} SumCountAppend(parts: seq<string>, p: string, c: char)
    ensures SumCount(parts + [p], c) == SumCount(parts, c) + CountChar(p, c)
  {
    if parts != [] {
      assert (parts + [p])[1..] == parts[1..] + [p];
      SumCountAppend(parts[1..], p, c);
    }
  }

  /** A separator free of `c` adds no occurrence of `c` to a join. */
  lemma {:induction false} CountJoin(parts: seq<string>, sep: string, c: char)
    requires c !in sep
    ensures CountChar(Join(parts, sep), c) == SumCount(parts, c)
  {
    CountCharAbsent(sep, c);
    if |parts| == 1 {
      assert parts[1..] == [];
    } else if |parts| > 1 {
      CountJoin(parts[1..], sep, c);
      CountCharConcat(parts[0], sep, c);
      CountCharConcat(parts[0] + sep, Join(parts[1..], sep), c);
    }
  }

  // ---------------------------------------------------------------------
  // Decimal rendering, as Rust's `Display` for integers.

  function DigitChar(d: nat): (c: char)
    requires d < 10
    ensures '0' <= c <= '9'
  {
    "0123456789"[d]
  }

  predicate IsDigit(c: char) { '0' <= c <= '9' }

  function NatToString(n: nat): (s: string)
    decreases n
  {
    if n < 10 then [DigitChar(n)] else NatToString(n / 10) + [DigitChar(n % 10)]
  }

  /** `n.to_string()` for a signed integer. */
  function IntToString(i: int): string {
    if i < 0 then "-" + NatToString(-i) else NatToString(i)
  }

  /** Value of a string of decimal digits (the inverse of NatToString). */
  function DigitsValue(s: string): int {
    if s == [] then 0 else DigitsValue(s[..|s| - 1]) * 10 + (s[|s| - 1] as int - '0' as int)
  }

  /** Parses what IntToString produces. */
  function ParseInt(s: string): int {
    if |s| > 0 && s[0] == '-' then -DigitsValue(s[1..]) else DigitsValue(s)
  }

  lemma {:induction false} NatToStringDigits(n: nat)
    ensures |NatToString(n)| >= 1
    ensures forall k :: 0 <= k < |NatToString(n)| ==> IsDigit(NatToString(n)[k])
    ensures DigitsValue(NatToString(n)) == n
    decreases n
  {
    var s := NatToString(n);
    if n >= 10 {
      NatToStringDigits(n / 10);
      var p := NatToString(n / 10);
      assert s == p + [DigitChar(n % 10)];
      assert s[..|s| - 1] == p;
      assert forall k :: 0 <= k < |s| ==> s[k] == if k < |p| then p[k] else DigitChar(n % 10);
    } else {
      assert s[..|s| - 1] == [];
    }
  }

  /** The decimal rendering of an integer reads back as that integer, and
      holds nothing but digits and a leading minus sign. */
  lemma IntToStringRoundTrip(i: int)
    ensures ParseInt(IntToString(i)) == i
    ensures forall k :: 0 <= k < |IntToString(i)| ==>
              IsDigit(IntToString(i)[k]) || (k == 0 && i < 0 && IntToString(i)[k] == '-')
  {
    if i < 0 {
      NatToStringDigits(-i);
      var s := IntToString(i);
      assert s[1..] == NatToString(-i);
      assert forall k :: 1 <= k < |s| ==> s[k] == NatToString(-i)[k - 1];
    } else {
      NatToStringDigits(i);
    }
  }

  /** No integer rendering contains `c` unless `c` is a digit or the sign. */
  lemma IntToStringAvoids(i: int, c: char)
    requires !IsDigit(c) && c != '-'
    ensures c !in IntToString(i)
    ensures CountChar(IntToString(i), c) == 0
  {
    IntToStringRoundTrip(i);
    CountCharAbsent(IntToString(i), c);
  }

  // ---------------------------------------------------------------------
  // Lexicographic order on code points; for valid text it coincides with
  // the byte-wise order Rust's `Ord for String` uses on UTF-8.

  predicate Less(a: string, b: string) {
    if |a| == 0 then |b| > 0
    else if |b| == 0 then false
    else if a[0] != b[0] then a[0] < b[0]
    else Less(a[1..], b[1..])
  }

  lemma {:induction false} LessIrreflexive(a: string)
    ensures !Less(a, a)
  {
    if |a| > 0 { LessIrreflexive(a[1..]); }
  }

  lemma {:induction false} LessTransitive(a: string, b: string, c: string)
    requires Less(a, b) && Less(b, c)
    ensures Less(a, c)
  {
    if |a| > 0 && |b| > 0 && |c| > 0 && a[0] == b[0] && b[0] == c[0] {
      LessTransitive(a[1..], b[1..], c[1..]);
    }
  }

  lemma {:induction false} LessTotal(a: string, b: string)
    requires a != b
    ensures Less(a, b) || Less(b, a)
  {
    if |a| > 0 && |b| > 0 && a[0] == b[0] {
      assert a == [a[0]] + a[1..] && b == [b[0]] + b[1..];
      LessTotal(a[1..], b[1..]);
    }
  }

  lemma {:induction false} LessAsymmetric(a: string, b: string)
    requires Less(a, b)
    ensures !Less(b, a)
  {
    if |a| > 0 && |b| > 0 && a[0] == b[0] {
      LessAsymmetric(a[1..], b[1..]);
    }
  }

  ghost predicate StrictlySorted(s: seq<string>) {
    forall i, j :: 0 <= i < j < |s| ==> Less(s[i], s[j])
  }

  /** Places `x` into a strictly sorted list that does not hold it yet. */
  function InsertSorted(s: seq<string>, x: string): (r: seq<string>)
    requires StrictlySorted(s) && x !in s
    ensures StrictlySorted(r)
    ensures |r| == |s| + 1
    ensures forall y :: y in r <==> y in s || y == x
  {
    if s == [] then [x]
    else if Less(x, s[0]) then
      assert forall j :: 0 < j < |s| ==> Less(x, s[j]) by {
        forall j | 0 < j < |s| ensures Less(x, s[j]) { LessTransitive(x, s[0], s[j]); }
      }
      [x] + s
    else
      var tail := InsertSorted(s[1..], x);
      assert Less(s[0], x) by { LessTotal(x, s[0]); }
      assert forall y :: y in tail ==> Less(s[0], y);
      [s[0]] + tail
  }
}
