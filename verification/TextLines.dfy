/** Text made of lines, and the pieces the canonical encodings are put together from. */
module TextLines {
  import opened Prelude
  import opened Lexicographic

  /** What a scalar must be so that it stays on its line. */
  predicate Safe(s: string) {
    '\n' !in s && '\r' !in s
  }

  predicate AllSafe(lines: seq<string>) {
    forall i | 0 <= i < |lines| :: Safe(lines[i])
  }

  function Join(lines: seq<string>): string
    requires lines != []
  {
    if |lines| == 1 then lines[0] else lines[0] + "\n" + Join(lines[1..])
  }

  // ------------------------------------------------------------- joining lines

  lemma SameFirstLine(x: string, p: string, y: string, q: string)
    requires '\n' !in x && '\n' !in y && x + "\n" + p == y + "\n" + q
    ensures x == y && p == q
  {
    var s, t := x + "\n" + p, y + "\n" + q;
    assert forall k | 0 <= k < |x| :: s[k] == x[k];
    assert forall k | 0 <= k < |y| :: t[k] == y[k];
    assert s[|x|] == '\n' && t[|y|] == '\n';
    assert x == s[..|x|] && y == t[..|y|];
    assert p == s[|x| + 1..] && q == t[|y| + 1..];
  }

  lemma {:induction false} OneLineHasNoBreak(lines: seq<string>)
    requires lines != [] && AllSafe(lines)
    ensures '\n' in Join(lines) <==> |lines| > 1
  {
    if |lines| > 1 {
      assert (lines[0] + "\n" + Join(lines[1..]))[|lines[0]|] == '\n';
    }
  }

  /** Lines can be read back from their text. */
  lemma {:induction false} JoinInjective(a: seq<string>, b: seq<string>)
    requires a != [] && b != [] && AllSafe(a) && AllSafe(b) && Join(a) == Join(b)
    ensures a == b
    decreases |a|
  {
    OneLineHasNoBreak(a);
    OneLineHasNoBreak(b);
    assert a == [a[0]] + a[1..] && b == [b[0]] + b[1..];
    if |a| > 1 {
      SameFirstLine(a[0], Join(a[1..]), b[0], Join(b[1..]));
      JoinInjective(a[1..], b[1..]);
    }
  }

  // ------------------------------------------------------------------ integers

  function Digit(d: nat): char
    requires d < 10
  {
    ['0', '1', '2', '3', '4', '5', '6', '7', '8', '9'][d]
  }

  function DigitValue(c: char): nat {
    if '0' <= c <= '9' then (c as int) - ('0' as int) else 0
  }

  function Digits(n: nat): (s: string)
    ensures s != "" && Safe(s) && forall i | 0 <= i < |s| :: '0' <= s[i] <= '9'
  {
    if n < 10 then [Digit(n)] else Digits(n / 10) + [Digit(n % 10)]
  }

  function Decimal(n: int): (s: string)
    ensures Safe(s)
  {
    if n < 0 then "-" + Digits(-n) else Digits(n)
  }

  function Value(s: string): nat {
    if s == "" then 0 else 10 * Value(s[..|s| - 1]) + DigitValue(s[|s| - 1])
  }

  lemma DigitValues(d: nat)
    requires d < 10
    ensures DigitValue(Digit(d)) == d
  {
  }

  lemma {:induction false} ValueOfDigits(n: nat)
    ensures Value(Digits(n)) == n
  {
    var s := Digits(n);
    DigitValues(n % 10);
    assert Value(s) == 10 * Value(s[..|s| - 1]) + DigitValue(s[|s| - 1]);
    if n >= 10 {
      ValueOfDigits(n / 10);
      assert s[..|s| - 1] == Digits(n / 10);
    } else {
      assert s == [Digit(n % 10)] && s[..0] == "";
    }
  }

  lemma DecimalInjective(m: int, n: int)
    requires Decimal(m) == Decimal(n)
    ensures m == n
  {
    ValueOfDigits(if m < 0 then -m else m);
    ValueOfDigits(if n < 0 then -n else n);
    var s := Decimal(m);
    assert (s[0] == '-' <==> m < 0) && (s[0] == '-' <==> n < 0);
    if m < 0 && n < 0 {
      assert s[1..] == Digits(-m) && s[1..] == Digits(-n);
    }
  }

  // -------------------------------------------------------------- line pieces

  function Bit(b: bool): string {
    if b then "1" else "0"
  }

  function OptionalLines(x: Option<string>): seq<string> {
    if x.None? then ["0"] else ["1", x.value]
  }

  function OptionalInteger(x: Option<int>): Option<string> {
    if x.None? then None else Some(Decimal(x.value))
  }

  function ListLines(items: seq<string>): seq<string> {
    [Decimal(|items|)] + items
  }

  predicate SafeOptional(x: Option<string>) {
    x.Some? ==> Safe(x.value)
  }

  /** Pieces of one length line up, and so do the rests. */
  lemma PeelFixed(a: seq<string>, r: seq<string>, b: seq<string>, s: seq<string>)
    requires |a| == |b| && a + r == b + s
    ensures a == b && r == s
  {
    assert a == (a + r)[..|a|] && b == (b + s)[..|b|];
    assert r == (a + r)[|a|..] && s == (b + s)[|b|..];
  }

  /** An optional scalar announces whether it is there. */
  lemma PeelOptional(x: Option<string>, r: seq<string>, y: Option<string>, s: seq<string>)
    requires OptionalLines(x) + r == OptionalLines(y) + s
    ensures x == y && r == s
  {
    assert (OptionalLines(x) + r)[0] == (OptionalLines(y) + s)[0];
    assert (OptionalLines(x) + r)[0] == if x.None? then "0" else "1";
    assert (OptionalLines(y) + s)[0] == if y.None? then "0" else "1";
    assert "0"[0] != "1"[0];
    PeelFixed(OptionalLines(x), r, OptionalLines(y), s);
    if x.Some? {
      assert OptionalLines(x)[1] == x.value && OptionalLines(y)[1] == y.value;
    }
  }

  lemma PeelOptionalInteger(x: Option<int>, r: seq<string>, y: Option<int>, s: seq<string>)
    requires OptionalLines(OptionalInteger(x)) + r == OptionalLines(OptionalInteger(y)) + s
    ensures x == y && r == s
  {
    PeelOptional(OptionalInteger(x), r, OptionalInteger(y), s);
    if x.Some? {
      DecimalInjective(x.value, y.value);
    }
  }

  /** A list announces its length. */
  lemma PeelList(a: seq<string>, r: seq<string>, b: seq<string>, s: seq<string>)
    requires ListLines(a) + r == ListLines(b) + s
    ensures a == b && r == s
  {
    assert (ListLines(a) + r)[0] == Decimal(|a|) && (ListLines(b) + s)[0] == Decimal(|b|);
    DecimalInjective(|a|, |b|);
    PeelFixed(ListLines(a), r, ListLines(b), s);
    assert a == ListLines(a)[1..] && b == ListLines(b)[1..];
  }

  // -------------------------------------------------------------- sorted texts

  ghost function Least(s: set<string>): (t: string)
    requires s != {}
    ensures t in s && forall k | k in s && k != t :: Less(t, k)
    decreases |s|
  {
    var k :| k in s;
    if s == {k} then k else
      assert s - {k} != {};
      var t := Least(s - {k});
      LessTotal(k, t);
      if Less(k, t) then
        assert forall j | j in s && j != k :: Less(k, j) by {
          forall j | j in s && j != k && j != t ensures Less(k, j) { LessTransitive(k, t, j); }
        }
        k
      else t
  }

  /** The members of a set of texts in ascending order: sorted(set(...)). */
  ghost function Ascending(s: set<string>): (r: seq<string>)
    ensures |r| == |s|
    ensures forall k :: k in r <==> k in s
    decreases |s|
  {
    if s == {} then [] else
      var t := Least(s);
      var rest := Ascending(s - {t});
      assert forall k :: k in [t] + rest <==> k == t || k in rest;
      [t] + rest
  }

  /** Ascending order picks one list per set. */
  lemma AscendingInjective(s: set<string>, t: set<string>)
    requires Ascending(s) == Ascending(t)
    ensures s == t
  {
    assert forall k :: k in s <==> k in Ascending(s);
    assert forall k :: k in t <==> k in Ascending(t);
  }

  predicate Sorted(r: seq<string>) {
    forall i, j | 0 <= i < j < |r| :: Less(r[i], r[j])
  }

  lemma {:induction false} AscendingSorted(s: set<string>)
    ensures Sorted(Ascending(s))
    decreases |s|
  {
    if s != {} {
      AscendingSorted(s - {Least(s)});
      var r := Ascending(s);
      forall j | 0 < j < |r| ensures Less(r[0], r[j]) {
        assert r[j] in Ascending(s - {Least(s)});
      }
    }
  }

  lemma EmptyHasNone(s: seq<string>)
    ensures s == [] <==> forall k :: k !in s
  {
    if s != [] {
      assert s[0] in s;
    }
  }

  /** A strictly ascending list is determined by its members. */
  lemma {:induction false} SortedDetermined(r: seq<string>, s: seq<string>)
    requires Sorted(r) && Sorted(s) && forall k :: k in r <==> k in s
    ensures r == s
    decreases |r|
  {
    EmptyHasNone(r);
    EmptyHasNone(s);
    if r != [] {
      assert r[0] in s && s[0] in r;
      SortedHeads(r, s);
      forall k ensures k in r[1..] <==> k in s[1..] {
        InTail(r, k);
        InTail(s, k);
      }
      SortedDetermined(r[1..], s[1..]);
      assert r == [r[0]] + r[1..] && s == [s[0]] + s[1..];
    }
  }

  lemma SortedHeads(r: seq<string>, s: seq<string>)
    requires Sorted(r) && Sorted(s) && r != [] && s != [] && r[0] in s && s[0] in r
    ensures r[0] == s[0]
  {
    if r[0] != s[0] {
      var i :| 0 <= i < |s| && s[i] == r[0];
      var j :| 0 <= j < |r| && r[j] == s[0];
      assert Less(s[0], r[0]) && Less(r[0], s[0]);
      LessTransitive(r[0], s[0], r[0]);
      LessIrreflexive(r[0]);
    }
  }

  lemma InTail(r: seq<string>, k: string)
    requires Sorted(r) && r != []
    ensures k in r[1..] <==> k in r && k != r[0]
  {
    LessIrreflexive(r[0]);
    if k in r && k != r[0] {
      var i :| 0 <= i < |r| && r[i] == k;
      assert r[1..][i - 1] == k;
    }
  }

  /** So a list is what sorting its members gives exactly if it ascends strictly. */
  lemma SortedIffAscending(r: seq<string>, s: set<string>)
    requires forall k :: k in r <==> k in s
    ensures Sorted(r) <==> r == Ascending(s)
  {
    AscendingSorted(s);
    if Sorted(r) {
      SortedDetermined(r, Ascending(s));
    }
  }

  /** The least text of a set, found by looking at each. */
  method FindLeast(s: set<string>) returns (t: string)
    requires s != {}
    ensures t == Least(s)
  {
    t :| t in s;
    var left := s - {t};
    while left != {}
      invariant left <= s && t in s
      invariant forall k | k in s - left && k != t :: Less(t, k)
      decreases |left|
    {
      var k :| k in left;
      left := left - {k};
      LessTotal(k, t);
      if Less(k, t) {
        forall j | j in s - left && j != k ensures Less(k, j) {
          if j != t {
            LessTransitive(k, t, j);
          }
        }
        t := k;
      }
    }
    if t != Least(s) {
      LessTransitive(t, Least(s), t);
      LessIrreflexive(t);
    }
  }

  lemma LeastFirst(r: seq<string>, left: set<string>)
    requires left != {}
    ensures r + Ascending(left) == (r + [Least(left)]) + Ascending(left - {Least(left)})
  {
    assert Ascending(left) == [Least(left)] + Ascending(left - {Least(left)});
  }

  method Sort(s: set<string>) returns (r: seq<string>)
    ensures r == Ascending(s)
  {
    r := [];
    var left := s;
    while left != {}
      invariant left <= s
      invariant Ascending(s) == r + Ascending(left)
      decreases |left|
    {
      var t := FindLeast(left);
      LeastFirst(r, left);
      r := r + [t];
      left := left - {t};
    }
  }
}
