/** Byte strings: searching, splitting and decimal numbers. A char stands for a byte. */
module Text {
  import opened Words

  const TAB: char := '\t'

  /** The first index of `c` at or after i, or |s| when there is none. */
  function IndexFrom(s: string, c: char, i: nat): (r: nat)
    requires i <= |s|
    ensures i <= r <= |s|
    ensures forall j | i <= j < r :: s[j] != c
    ensures r < |s| ==> s[r] == c
    decreases |s| - i
  {
    if i == |s| || s[i] == c then i else IndexFrom(s, c, i + 1)
  }

  function IndexOf(s: string, c: char): nat {
    IndexFrom(s, c, 0)
  }

  /** The last index of `c` in front of n, or -1 when there is none. */
  function LastIndexBefore(s: string, c: char, n: nat): (r: int)
    requires n <= |s|
    ensures -1 <= r < n
    ensures forall j | r < j < n :: s[j] != c
    ensures 0 <= r ==> s[r] == c
  {
    if n == 0 then -1 else if s[n - 1] == c then n - 1 else LastIndexBefore(s, c, n - 1)
  }

  /** strings.LastIndex for one byte. */
  function LastIndexOf(s: string, c: char): (r: int)
    ensures -1 <= r < |s|
  {
    LastIndexBefore(s, c, |s|)
  }

  function Count(s: string, c: char): nat {
    multiset(s)[c]
  }

  /** bytes.SplitN with a one-byte separator: at most n pieces, the last one unsplit. */
  function SplitN(s: string, sep: char, n: nat): (r: seq<string>)
    requires n > 0
    ensures 1 <= |r| <= n
  {
    var i := IndexOf(s, sep);
    if n == 1 || i == |s| then [s] else [s[..i]] + SplitN(s[i + 1..], sep, n - 1)
  }

  function Join(parts: seq<string>, sep: char): string
    requires parts != []
  {
    if |parts| == 1 then parts[0] else parts[0] + [sep] + Join(parts[1..], sep)
  }

  lemma FirstAt(a: string, c: char, b: string)
    requires c !in a
    ensures IndexOf(a + [c] + b, c) == |a|
  {
    var s := a + [c] + b;
    assert s[|a|] == c;
    assert forall j | 0 <= j < |a| :: s[j] == a[j];
  }

  lemma LastAt(a: string, c: char, b: string)
    requires c !in b
    ensures LastIndexOf(a + [c] + b, c) == |a|
  {
    var s := a + [c] + b;
    assert s[|a|] == c;
    assert forall j | |a| < j < |s| :: s[j] == b[j - |a| - 1];
  }

  lemma JoinMore(part: string, rest: seq<string>, sep: char)
    requires rest != []
    ensures Join([part] + rest, sep) == part + [sep] + Join(rest, sep)
  {
    assert ([part] + rest)[1..] == rest;
  }

  lemma IndexOfPrefix(s: string, c: char)
    ensures c !in s[..IndexOf(s, c)]
    ensures IndexOf(s, c) < |s| ==> s == s[..IndexOf(s, c)] + [c] + s[IndexOf(s, c) + 1..]
  {
  }

  /** Every split joins back to its input, and only the last piece can hold a separator. */
  lemma {:induction false} JoinSplit(s: string, sep: char, n: nat)
    requires n > 0
    ensures Join(SplitN(s, sep, n), sep) == s
    ensures forall k | 0 <= k < |SplitN(s, sep, n)| - 1 :: sep !in SplitN(s, sep, n)[k]
  {
    var i := IndexOf(s, sep);
    if n > 1 && i < |s| {
      var part, tail := s[..i], s[i + 1..];
      var rest := SplitN(tail, sep, n - 1);
      JoinSplit(tail, sep, n - 1);
      JoinMore(part, rest, sep);
      IndexOfPrefix(s, sep);
      var parts := [part] + rest;
      forall k | 0 <= k < |parts| - 1
        ensures sep !in parts[k]
      {
        if k > 0 {
          assert parts[k] == rest[k - 1];
        }
      }
    }
  }

  /** A join of separator-free parts splits back to the parts; the last part may hold anything. */
  lemma {:induction false} SplitJoin(parts: seq<string>, sep: char)
    requires parts != []
    requires forall k | 0 <= k < |parts| - 1 :: sep !in parts[k]
    ensures SplitN(Join(parts, sep), sep, |parts|) == parts
  {
    if |parts| > 1 {
      var head, rest := parts[0], Join(parts[1..], sep);
      SplitHead(head, sep, rest, |parts|);
      SplitJoin(parts[1..], sep);
      assert parts == [head] + parts[1..];
    }
  }

  lemma SplitHead(head: string, sep: char, rest: string, n: nat)
    requires n > 1 && sep !in head
    ensures SplitN(head + [sep] + rest, sep, n) == [head] + SplitN(rest, sep, n - 1)
  {
    var s := head + [sep] + rest;
    FirstAt(head, sep, rest);
    assert s[..|head|] == head;
    assert s[|head| + 1..] == rest;
  }

  lemma CountAround(s: string, c: char, i: nat)
    requires i < |s| && s[i] == c && c !in s[..i]
    ensures Count(s, c) == 1 + Count(s[i + 1..], c)
  {
    assert s == s[..i] + [c] + s[i + 1..];
    assert multiset(s) == multiset(s[..i]) + multiset([c]) + multiset(s[i + 1..]);
  }

  /** The split reaches n pieces exactly when there are n - 1 separators. */
  lemma {:induction false} SplitLength(s: string, sep: char, n: nat)
    requires n > 0
    ensures |SplitN(s, sep, n)| == Min(n, Count(s, sep) + 1)
  {
    var i := IndexOf(s, sep);
    if i < |s| {
      CountAround(s, sep, i);
      if n > 1 {
        SplitLength(s[i + 1..], sep, n - 1);
      }
    } else {
      assert sep !in s;
    }
  }

  // Decimal numbers

  predicate IsDigit(c: char) {
    '0' <= c <= '9'
  }

  predicate AllDigits(s: string) {
    forall k | 0 <= k < |s| :: IsDigit(s[k])
  }

  function DigitValue(c: char): nat
    requires IsDigit(c)
  {
    c as int - '0' as int
  }

  /** fmt's `%d` on a non-negative number. */
  function Decimal(n: nat): (s: string)
    ensures s != []
    ensures AllDigits(s)
    ensures '@' !in s
  {
    var last := ('0' as int + n % 10) as char;
    if n < 10 then [last] else Decimal(n / 10) + [last]
  }

  /** The number a string of digits denotes. */
  function Number(s: string): nat
    requires AllDigits(s)
  {
    if s == [] then 0 else 10 * Number(s[..|s| - 1]) + DigitValue(s[|s| - 1])
  }

  /** The scan of strconv.ParseUint(s, 10, 64): the value returned and whether there was no error so far. */
  function Scan(s: string): (r: (uint64, bool))
    ensures r.1 <==> AllDigits(s) && Number(s) < TWO64
    ensures r.1 ==> r.0 == Number(s)
  {
    if s == [] then (0, true)
    else
      var init, c := s[..|s| - 1], s[|s| - 1];
      var (n, ok) := Scan(init);
      assert s == init + [c];
      if !ok then (n, false)
      else if !IsDigit(c) then (0, false)
      else if 10 * n + DigitValue(c) < TWO64 then (10 * n + DigitValue(c), true)
      else (TWO64 - 1, false)
  }

  /** The digits in front of place k denote a number that fits, and with what stands there they do not. */
  predicate StopsAt(s: string, k: nat)
    requires k < |s|
  {
    && AllDigits(s[..k]) && Number(s[..k]) < TWO64
    && (IsDigit(s[k]) ==> 10 * Number(s[..k]) + DigitValue(s[k]) >= TWO64)
  }

  /** The scan fails at the first such place: with 0 at something that is no digit, else with the largest number. */
  lemma {:induction false} ScanFails(s: string) returns (k: nat)
    requires !Scan(s).1
    ensures k < |s| && StopsAt(s, k)
    ensures Scan(s).0 == if IsDigit(s[k]) then 0xFFFF_FFFF_FFFF_FFFF else 0
  {
    var n := |s| - 1;
    assert s == s[..n] + [s[n]];
    if !Scan(s[..n]).1 {
      k := ScanFails(s[..n]);
      assert s[..n][..k] == s[..k];
    } else {
      k := n;
    }
  }

  function ParseUint(s: string): (uint64, bool) {
    if s == [] then (0, false) else Scan(s)
  }

  lemma {:induction false} NumberOfDecimal(n: nat)
    ensures Number(Decimal(n)) == n
  {
    if n >= 10 {
      NumberOfDecimal(n / 10);
      assert Decimal(n)[..|Decimal(n)| - 1] == Decimal(n / 10);
    }
  }

  /** No zero is printed in front of a number other than 0. */
  lemma {:induction false} NoLeadingZero(n: nat)
    ensures Decimal(n)[0] == '0' <==> n == 0
    ensures Decimal(0) == "0"
  {
    if n >= 10 {
      NoLeadingZero(n / 10);
    }
  }

  lemma ParseDecimal(n: uint64)
    ensures ParseUint(Decimal(n)) == (n, true)
  {
    NumberOfDecimal(n);
  }
}
