/** The order on version strings, which the engine and the terminal client each implement: the engine
    splits at '.', '+' and '-', the client drops everything from the first '+' on, splits at '.' and
    '-', and skips empty fields. */
module Versions {

  const I64_LIMIT := 0x8000_0000_0000_0000

  predicate Digit(c: char) {
    '0' <= c <= '9'
  }

  function DigitValue(c: char): int {
    c as int - '0' as int
  }

  predicate Digits(p: string) {
    forall i :: 0 <= i < |p| ==> Digit(p[i])
  }

  function Number(p: string): nat
    requires Digits(p)
  {
    if p == "" then 0
    else
      assert Digit(p[|p| - 1]);
      Number(p[..|p| - 1]) * 10 + DigitValue(p[|p| - 1])
  }

  /** A field as a 64-bit integer; -1 for what is none. A field contains no sign. */
  function Value(p: string): int {
    if p != "" && Digits(p) && Number(p) < I64_LIMIT then Number(p) else -1
  }

  /** The first place where the two differ is smaller in `p`. */
  predicate Below(p: string, q: string)
    requires |p| == |q|
  {
    exists i :: 0 <= i < |p| && p[i] < q[i] && forall j :: 0 <= j < i ==> p[j] == q[j]
  }

  lemma BelowStep(p: string, q: string)
    requires |p| == |q| > 0
    ensures var n := |p| - 1; Below(p, q) <==> Below(p[..n], q[..n]) || (p[..n] == q[..n] && p[n] < q[n])
  {
    var n := |p| - 1;
    var u, v := p[..n], q[..n];
    assert forall i :: 0 <= i < n ==> u[i] == p[i] && v[i] == q[i];
    if Below(u, v) {
      var i :| 0 <= i < n && u[i] < v[i] && forall j :: 0 <= j < i ==> u[j] == v[j];
      assert p[i] < q[i] && forall j :: 0 <= j < i ==> p[j] == q[j];
    }
    if Below(p, q) {
      var i :| 0 <= i < |p| && p[i] < q[i] && forall j :: 0 <= j < i ==> p[j] == q[j];
      if i < n {
        assert u[i] < v[i] && forall j :: 0 <= j < i ==> u[j] == v[j];
      } else {
        assert u == v;
      }
    }
  }

  lemma LastDigit(p: string)
    requires Digits(p) && p != ""
    ensures var n := |p| - 1;
            && Digits(p[..n]) && 0 <= DigitValue(p[n]) < 10
            && Number(p) == Number(p[..n]) * 10 + DigitValue(p[n])
  {
    assert Digit(p[|p| - 1]);
  }

  lemma DigitsCompare(c: char, d: char)
    ensures c < d <==> DigitValue(c) < DigitValue(d)
    ensures c == d <==> DigitValue(c) == DigitValue(d)
  {
  }

  lemma TensFirst(a: nat, b: nat, d: int, e: int)
    requires 0 <= d < 10 && 0 <= e < 10
    ensures a * 10 + d < b * 10 + e <==> a < b || (a == b && d < e)
    ensures a * 10 + d == b * 10 + e <==> a == b && d == e
  {
  }

  lemma SameEnds(p: string, q: string)
    requires |p| == |q| > 0
    ensures var n := |p| - 1; p == q <==> p[..n] == q[..n] && p[n] == q[n]
  {
    var n := |p| - 1;
    assert p == p[..n] + [p[n]] && q == q[..n] + [q[n]];
  }

  /** Numbers of equal width compare digit by digit, the leading one first. */
  lemma {:induction false} NumbersCompare(p: string, q: string)
    requires |p| == |q| && Digits(p) && Digits(q)
    ensures Number(p) < Number(q) <==> Below(p, q)
    ensures Number(p) == Number(q) <==> p == q
  {
    if p != "" {
      hide Below, Number, Digits, DigitValue;
      var n := |p| - 1;
      LastDigit(p);
      LastDigit(q);
      NumbersCompare(p[..n], q[..n]);
      BelowStep(p, q);
      SameEnds(p, q);
      DigitsCompare(p[n], q[n]);
      TensFirst(Number(p[..n]), Number(q[..n]), DigitValue(p[n]), DigitValue(q[n]));
    }
  }

  /** Leading zeros do not matter. */
  lemma {:induction false} LeadingZero(p: string)
    requires Digits(p)
    ensures Digits(['0'] + p) && Number(['0'] + p) == Number(p)
  {
    if p != "" {
      LeadingZero(p[..|p| - 1]);
      assert (['0'] + p)[..|p|] == ['0'] + p[..|p| - 1];
    }
  }

  function Tens(n: nat): nat {
    if n == 0 then 1 else Tens(n - 1) * 10
  }

  /** Decimal notation: what stands before counts ten times more for every digit after it. */
  lemma {:induction false} NumberConcat(p: string, q: string)
    requires Digits(p) && Digits(q)
    ensures Digits(p + q) && Number(p + q) == Number(p) * Tens(|q|) + Number(q)
  {
    if q == "" {
      assert p + q == p;
    } else {
      hide Number;
      var front := q[..|q| - 1];
      assert Digits(front) && Digits(p + q) by { DigitsConcat(p, q); }
      assert (p + q)[..|p + q| - 1] == p + front;
      NumberConcat(p, front);
      LastDigit(p + q);
      LastDigit(q);
      TenTimes(Number(p), Tens(|front|));
      hide Number, Digits, DigitValue;
    }
  }

  lemma DigitsConcat(p: string, q: string)
    requires Digits(p) && Digits(q)
    ensures Digits(p + q) && (q != "" ==> Digits(q[..|q| - 1]))
  {
  }

  lemma TenTimes(a: nat, b: nat)
    ensures a * (b * 10) == a * b * 10
  {
  }

  /** A field reads as its number below 2^63; everything else, the empty field included, as -1. */
  lemma FieldReads(p: string)
    ensures Value(p) == if p != "" && (forall i :: 0 <= i < |p| ==> '0' <= p[i] <= '9') && Number(p) < 9_223_372_036_854_775_808
                        then Number(p) else -1
  {
    assert Digits(p) <==> forall i :: 0 <= i < |p| ==> '0' <= p[i] <= '9';
  }

  function Values(ps: seq<string>): seq<int> {
    seq(|ps|, i requires 0 <= i < |ps| => Value(ps[i]))
  }

  /** The separators; '+' is one for the engine only. */
  predicate Separator(c: char, plus: bool) {
    c == '.' || c == '-' || (plus && c == '+')
  }

  /** The last field grows by a character. */
  function Extend(fs: seq<string>, c: char): (r: seq<string>)
    requires |fs| > 0
    ensures |r| == |fs|
  {
    fs[..|fs| - 1] + [fs[|fs| - 1] + [c]]
  }

  /** The fields of a string, empty ones included: always one more than there are separators. */
  function Fields(s: string, plus: bool): (fs: seq<string>)
    ensures |fs| > 0
  {
    if s == "" then [""]
    else
      var fs, c := Fields(s[..|s| - 1], plus), s[|s| - 1];
      if Separator(c, plus) then fs + [""] else Extend(fs, c)
  }

  function NonEmpty(fs: seq<string>): seq<string> {
    if fs == [] then [] else NonEmpty(fs[..|fs| - 1]) + if fs[|fs| - 1] == "" then [] else [fs[|fs| - 1]]
  }

  /** The position of the first '+', or the length. */
  function FirstPlus(s: string): (i: nat)
    ensures i <= |s| && (i < |s| ==> s[i] == '+') && forall j :: 0 <= j < i ==> s[j] != '+'
  {
    if s == "" then 0
    else
      var i := FirstPlus(s[..|s| - 1]);
      if i < |s| - 1 then i else if s[|s| - 1] == '+' then |s| - 1 else |s|
  }

  /** What the engine reads. */
  function Parse(s: string): seq<int> {
    Values(Fields(s, true))
  }

  /** What the client reads. */
  function ParseVer(s: string): seq<int> {
    Values(NonEmpty(Fields(s[..FirstPlus(s)], false)))
  }

  // ---- The order ----

  /** Missing places count as zero. */
  function At(v: seq<int>, i: nat): int {
    if i < |v| then v[i] else 0
  }

  /** The first place where the two differ is larger in `x`. */
  ghost predicate Newer(x: seq<int>, y: seq<int>) {
    exists i: nat :: At(x, i) > At(y, i) && forall j: nat :: j < i ==> At(x, j) == At(y, j)
  }

  ghost predicate Same(x: seq<int>, y: seq<int>) {
    forall i: nat :: At(x, i) == At(y, i)
  }

  lemma SmallerOrSame(x: seq<int>, y: seq<int>, n: nat)
    requires forall j: nat :: j < n ==> At(x, j) == At(y, j)
    ensures Newer(x, y) || Newer(y, x) || Same(x, y)
    decreases |x| + |y| - n
  {
    if n >= |x| && n >= |y| {
      assert Same(x, y);
    } else if At(x, n) == At(y, n) {
      SmallerOrSame(x, y, n + 1);
    }
  }

  /** Exactly one of newer, older and same holds. */
  lemma Trichotomy(x: seq<int>, y: seq<int>)
    ensures Newer(x, y) || Newer(y, x) || Same(x, y)
    ensures !(Newer(x, y) && Newer(y, x)) && !(Newer(x, y) && Same(x, y))
  {
    SmallerOrSame(x, y, 0);
    if Newer(x, y) {
      var i: nat :| At(x, i) > At(y, i) && forall j: nat :: j < i ==> At(x, j) == At(y, j);
      forall k: nat | At(y, k) > At(x, k) ensures exists j: nat :: j < k && At(y, j) != At(x, j) {
        assert At(y, i) != At(x, i);
      }
    }
  }

  lemma NewerTransitive(x: seq<int>, y: seq<int>, z: seq<int>)
    requires Newer(x, y) && Newer(y, z)
    ensures Newer(x, z)
  {
    var i: nat :| At(x, i) > At(y, i) && forall j: nat :: j < i ==> At(x, j) == At(y, j);
    var k: nat :| At(y, k) > At(z, k) && forall j: nat :: j < k ==> At(y, j) == At(z, j);
    var m := if i < k then i else k;
    assert At(x, m) > At(z, m) && forall j: nat :: j < m ==> At(x, j) == At(z, j);
  }

  lemma SameSubstitutes(x: seq<int>, y: seq<int>, u: seq<int>, v: seq<int>)
    requires Same(x, u) && Same(y, v)
    ensures Newer(x, y) <==> Newer(u, v)
  {
    if Newer(x, y) {
      var i: nat :| At(x, i) > At(y, i) && forall j: nat :: j < i ==> At(x, j) == At(y, j);
      assert At(u, i) > At(v, i) && forall j: nat :: j < i ==> At(u, j) == At(v, j);
    }
    if Newer(u, v) {
      var i: nat :| At(u, i) > At(v, i) && forall j: nat :: j < i ==> At(u, j) == At(v, j);
      assert At(x, i) > At(y, i) && forall j: nat :: j < i ==> At(x, j) == At(y, j);
    }
  }

  /** Both implementations compare place by place. */
  method Compare(x: seq<int>, y: seq<int>) returns (newer: bool)
    ensures newer <==> Newer(x, y)
  {
    var n := if |y| > |x| then |y| else |x|;
    for i := 0 to n
      invariant forall j: nat :: j < i ==> At(x, j) == At(y, j)
    {
      var a := if i < |x| then x[i] else 0;
      var b := if i < |y| then y[i] else 0;
      if a != b {
        assert At(x, i) == a && At(y, i) == b;
        Trichotomy(x, y);
        return a > b;
      }
    }
    assert Same(x, y);
    Trichotomy(x, y);
    return false;
  }

  method IsNewer(a: string, b: string) returns (newer: bool)
    ensures newer <==> Newer(Parse(a), Parse(b))
  {
    newer := Compare(Parse(a), Parse(b));
  }

  /** The client's parser: a field at a time, empty ones skipped. */
  method ParseFields(s: string) returns (out: seq<int>)
    ensures out == ParseVer(s)
  {
    var parts := Fields(s[..FirstPlus(s)], false);
    out := [];
    for i := 0 to |parts|
      invariant out == Values(NonEmpty(parts[..i]))
    {
      assert parts[..i + 1][..i] == parts[..i];
      if parts[i] != "" { out := out + [Value(parts[i])]; }
    }
    assert parts[..|parts|] == parts;
  }

  method IsNewerVersion(a: string, b: string) returns (newer: bool)
    ensures newer <==> Newer(ParseVer(a), ParseVer(b))
  {
    var pa := ParseFields(a);
    var pb := ParseFields(b);
    newer := Compare(pa, pb);
  }

  /** On all strings the engine's order is a strict weak order: irreflexive, transitive, and what is
      neither newer nor older is interchangeable. */
  lemma StrictWeakOrder(a: string, b: string, c: string)
    ensures !Newer(Parse(a), Parse(a))
    ensures Newer(Parse(a), Parse(b)) && Newer(Parse(b), Parse(c)) ==> Newer(Parse(a), Parse(c))
    ensures !Newer(Parse(a), Parse(b)) && !Newer(Parse(b), Parse(a)) ==>
              && (Newer(Parse(a), Parse(c)) <==> Newer(Parse(b), Parse(c)))
              && (Newer(Parse(c), Parse(a)) <==> Newer(Parse(c), Parse(b)))
  {
    hide Parse, Newer;
    var x, y, z := Parse(a), Parse(b), Parse(c);
    Trichotomy(x, x);
    Trichotomy(x, y);
    if Newer(x, y) && Newer(y, z) { NewerTransitive(x, y, z); }
    if Same(x, y) {
      SameSubstitutes(x, z, y, z);
      SameSubstitutes(z, x, z, y);
    }
  }

  // ---- Splitting ----

  lemma FieldsStep(s: string, c: char, plus: bool)
    ensures Fields(s + [c], plus) == if Separator(c, plus) then Fields(s, plus) + [""] else Extend(Fields(s, plus), c)
  {
    hide Extend;
    assert (s + [c])[..|s|] == s;
  }

  lemma ExtendConcat(a: seq<string>, b: seq<string>, c: char)
    requires b != []
    ensures Extend(a + b, c) == a + Extend(b, c)
  {
  }

  lemma {:induction false} FieldsConcat(a: string, sep: char, b: string, plus: bool)
    requires Separator(sep, plus)
    ensures Fields(a + [sep] + b, plus) == Fields(a, plus) + Fields(b, plus)
  {
    hide Extend;
    if b == "" {
      assert a + [sep] + b == a + [sep];
      FieldsStep(a, sep, plus);
    } else {
      hide Fields;
      var front, c := b[..|b| - 1], b[|b| - 1];
      FieldsConcat(a, sep, front, plus);
      assert a + [sep] + b == a + [sep] + front + [c] && b == front + [c];
      FieldsStep(a + [sep] + front, c, plus);
      FieldsStep(front, c, plus);
      ExtendConcat(Fields(a, plus), Fields(front, plus), c);
      assert Fields(a, plus) + Fields(front, plus) + [""] == Fields(a, plus) + (Fields(front, plus) + [""]);
    }
  }

  lemma {:induction false} FieldsWithoutPlus(s: string)
    requires '+' !in s
    ensures Fields(s, true) == Fields(s, false)
  {
    if s != "" {
      assert s[|s| - 1] in s;
      FieldsWithoutPlus(s[..|s| - 1]);
    }
  }

  lemma {:induction false} OneField(s: string, plus: bool)
    requires forall i :: 0 <= i < |s| ==> !Separator(s[i], plus)
    ensures Fields(s, plus) == [s]
  {
    if s != "" {
      OneField(s[..|s| - 1], plus);
      assert s == s[..|s| - 1] + [s[|s| - 1]];
    }
  }

  lemma {:induction false} AnyCharacter(s: string, c: char, t: string)
    requires c != '.' && c != '-' && c != '+'
    ensures |Fields(s + [c] + t, true)| + 1 == |Fields(s, true)| + |Fields(t, true)|
  {
    if t == "" {
      assert s + [c] + t == s + [c];
      FieldsStep(s, c, true);
    } else {
      var front, d := t[..|t| - 1], t[|t| - 1];
      AnyCharacter(s, c, front);
      assert s + [c] + t == (s + [c] + front) + [d] && t == front + [d];
      FieldsStep(s + [c] + front, d, true);
      FieldsStep(front, d, true);
    }
  }

  /** Dots, dashes and plus signs separate for the engine, and nothing else does. */
  lemma EngineSeparates(s: string, t: string)
    ensures Parse(s + "." + t) == Parse(s) + Parse(t)
    ensures Parse(s + "-" + t) == Parse(s) + Parse(t)
    ensures Parse(s + "+" + t) == Parse(s) + Parse(t)
    ensures forall c :: c != '.' && c != '-' && c != '+' ==> |Parse(s + [c] + t)| == |Parse(s)| + |Parse(t)| - 1
  {
    hide Parse;
    EngineSeparatesAt(s, '.', t);
    EngineSeparatesAt(s, '-', t);
    EngineSeparatesAt(s, '+', t);
    forall c | c != '.' && c != '-' && c != '+' ensures |Parse(s + [c] + t)| == |Parse(s)| + |Parse(t)| - 1 {
      EngineReadsOn(s, c, t);
    }
  }

  lemma EngineSeparatesAt(s: string, sep: char, t: string)
    requires sep == '.' || sep == '-' || sep == '+'
    ensures Parse(s + [sep] + t) == Parse(s) + Parse(t)
  {
    hide Fields, Value, Values;
    FieldsConcat(s, sep, t, true);
    ValuesConcat(Fields(s, true), Fields(t, true));
  }

  lemma EngineReadsOn(s: string, c: char, t: string)
    requires c != '.' && c != '-' && c != '+'
    ensures |Parse(s + [c] + t)| == |Parse(s)| + |Parse(t)| - 1
  {
    hide Fields, Value;
    AnyCharacter(s, c, t);
  }

  lemma FirstPlusIs(s: string, i: nat)
    requires i <= |s| && (i < |s| ==> s[i] == '+') && forall j :: 0 <= j < i ==> s[j] != '+'
    ensures FirstPlus(s) == i
  {
    hide FirstPlus;
    var k := FirstPlus(s);
  }

  /** Dots and dashes separate for the client, and the first plus sign ends what it reads. */
  lemma ClientSeparates(s: string, t: string)
    requires '+' !in s
    ensures ParseVer(s + "." + t) == ParseVer(s) + ParseVer(t)
    ensures ParseVer(s + "-" + t) == ParseVer(s) + ParseVer(t)
    ensures ParseVer(s + "+" + t) == ParseVer(s)
  {
    FirstPlusIs(s, |s|);
    ClientSeparatesAt(s, '.', t);
    ClientSeparatesAt(s, '-', t);
    FirstPlusIs(s + "+" + t, |s|);
    assert (s + "+" + t)[..|s|] == s[..|s|];
    hide Fields, NonEmpty, FirstPlus;
  }

  lemma ClientSeparatesAt(s: string, sep: char, t: string)
    requires '+' !in s && (sep == '.' || sep == '-')
    ensures ParseVer(s + [sep] + t) == ParseVer(s) + ParseVer(t)
  {
    hide Fields, FirstPlus, NonEmpty, Value;
    var w, i := s + [sep] + t, FirstPlus(t);
    assert forall j :: 0 <= j < i ==> w[|s| + 1 + j] == t[j];
    assert forall j :: |s| < j < |s| + 1 + i ==> w[j] == t[j - |s| - 1];
    FirstPlusIs(s, |s|);
    FirstPlusIs(w, |s| + 1 + i);
    assert w[..|s| + 1 + i] == s + [sep] + t[..i] && s[..|s|] == s;
    FieldsConcat(s, sep, t[..i], false);
    NonEmptyConcat(Fields(s, false), Fields(t[..i], false));
    ValuesConcat(NonEmpty(Fields(s, false)), NonEmpty(Fields(t[..i], false)));
  }

  lemma {:induction false} NonEmptyConcat(a: seq<string>, b: seq<string>)
    ensures NonEmpty(a + b) == NonEmpty(a) + NonEmpty(b)
  {
    if b == [] {
      assert a + b == a && NonEmpty(a) + [] == NonEmpty(a);
    } else {
      assert (a + b)[..|a + b| - 1] == a + b[..|b| - 1];
      NonEmptyConcat(a, b[..|b| - 1]);
    }
  }

  predicate Clean(p: string) {
    forall i :: 0 <= i < |p| ==> !Separator(p[i], true)
  }

  /** A field contains no separator. */
  lemma {:induction false} FieldsAreClean(s: string)
    requires '+' !in s
    ensures forall k :: 0 <= k < |Fields(s, false)| ==> Clean(Fields(s, false)[k])
  {
    if s == "" {
      assert Clean("");
    } else {
      var front, c := s[..|s| - 1], s[|s| - 1];
      FieldsAreClean(front);
      var fs := Fields(front, false);
      assert c in s;
      assert Clean(fs[|fs| - 1]) && !Separator(c, false) ==> Clean(fs[|fs| - 1] + [c]);
      assert Clean("");
      hide Clean;
    }
  }

  lemma ZeroReads()
    ensures Value("0") == 0
  {
    assert "0"[..0] == "";
  }

  lemma NonEmptyStep(fs: seq<string>, p: string)
    ensures NonEmpty(fs + [p]) == if p == "" then NonEmpty(fs) else NonEmpty(fs) + [p]
  {
    assert (fs + [p])[..|fs|] == fs;
    assert NonEmpty(fs) + [] == NonEmpty(fs);
  }

  lemma ZeroAppended(x: seq<int>)
    ensures Same(x + [0], x)
  {
  }

  lemma ZeroField(fs: seq<string>)
    ensures Values(fs + ["0"]) == Values(fs) + [0]
  {
    ZeroReads();
    hide Value;
  }

  lemma PlusOfAppended(s: string, t: string)
    requires '+' !in t
    ensures FirstPlus(s + t) == if FirstPlus(s) < |s| then FirstPlus(s) else |s + t|
  {
    hide FirstPlus;
    var i, k := FirstPlus(s), FirstPlus(s + t);
    assert forall j :: 0 <= j < |s| ==> (s + t)[j] == s[j];
    assert forall j :: |s| <= j < |s + t| ==> (s + t)[j] in t;
    assert i < |s| ==> (s + t)[i] == '+';
    assert k < |s + t| ==> (s + t)[k] == '+';
  }

  /** Appending ".0" changes nothing, for either reader. */
  lemma TrailingZero(s: string)
    ensures Same(Parse(s + ".0"), Parse(s)) && Same(ParseVer(s + ".0"), ParseVer(s))
  {
    hide Fields, Values, NonEmpty, FirstPlus, Same;
    var t := s + ".0";
    assert t == s + ['.'] + "0";
    OneField("0", true);
    OneField("0", false);
    FieldsConcat(s, '.', "0", true);
    ZeroField(Fields(s, true));
    ZeroAppended(Parse(s));
    PlusOfAppended(s, ".0");
    if FirstPlus(s) < |s| {
      assert t[..FirstPlus(t)] == s[..FirstPlus(s)];
      SameItself(ParseVer(s));
    } else {
      assert t[..FirstPlus(t)] == t && s[..FirstPlus(s)] == s;
      FieldsConcat(s, '.', "0", false);
      NonEmptyStep(Fields(s, false), "0");
      ZeroField(NonEmpty(Fields(s, false)));
      ZeroAppended(ParseVer(s));
    }
  }

  lemma SameItself(x: seq<int>)
    ensures Same(x, x)
  {
  }

  // ---- Fields that are no numbers ----

  predicate IsNumber(p: string) {
    Value(p) >= 0
  }

  /** Up to place `i` the two are the same. */
  predicate SameUpTo(p: string, q: string, i: nat)
    requires i <= |p| && i <= |q|
  {
    forall j :: 0 <= j < i ==> p[j] == q[j]
  }

  /** Alphabetical order, by code points. */
  predicate LexBelow(p: string, q: string) {
    exists i :: 0 <= i <= |p| && i < |q| && SameUpTo(p, q, i) && (i == |p| || p[i] < q[i])
  }

  lemma LexTotal(p: string, q: string)
    ensures !(LexBelow(p, q) && LexBelow(q, p)) && !LexBelow(p, p)
    ensures p == q || LexBelow(p, q) || LexBelow(q, p)
  {
    LexReaches(p, q, 0);
  }

  lemma LexReaches(p: string, q: string, n: nat)
    requires n <= |p| && n <= |q| && SameUpTo(p, q, n)
    ensures p == q || LexBelow(p, q) || LexBelow(q, p)
    decreases |p| - n
  {
    if n < |p| && n < |q| && p[n] == q[n] {
      LexReaches(p, q, n + 1);
    } else {
      assert SameUpTo(q, p, n);
      assert n == |p| == |q| ==> p == q;
    }
  }

  /** A field is read as itself, and two fields compare as their values. */
  lemma FieldsCompareAsValues(p: string, q: string)
    requires Clean(p) && Clean(q)
    ensures Newer(Parse(p), Parse(q)) <==> Value(p) > Value(q)
    ensures Same(Parse(p), Parse(q)) <==> Value(p) == Value(q)
  {
    OneField(p, true);
    OneField(q, true);
    hide Fields, Value;
    var x, y := Parse(p), Parse(q);
    assert x == [Value(p)] && y == [Value(q)];
    assert At(x, 0) == Value(p) && At(y, 0) == Value(q);
    if Value(p) > Value(q) {
      assert At(x, 0) > At(y, 0) && forall j: nat :: j < 0 ==> At(x, j) == At(y, j);
    }
  }

  /** What the comment on the order promises for two fields: numbers by value, anything else by alphabet. */
  predicate CommentNewer(p: string, q: string) {
    if IsNumber(p) && IsNumber(q) then Value(p) > Value(q) else LexBelow(q, p)
  }

  ghost predicate FollowsComment(p: string, q: string) {
    && (Newer(Parse(p), Parse(q)) <==> CommentNewer(p, q))
    && (Newer(Parse(q), Parse(p)) <==> CommentNewer(q, p))
  }

  /** For which fields the order is the one of the comment: two numbers, one field twice, or a number and
      a field that comes before it in the alphabet. Two different fields that are no numbers always tie. */
  lemma CommentHoldsIff(p: string, q: string)
    requires Clean(p) && Clean(q)
    ensures FollowsComment(p, q)
            <==> || (IsNumber(p) && IsNumber(q)) || p == q
                 || (IsNumber(p) && !IsNumber(q) && LexBelow(q, p)) || (IsNumber(q) && !IsNumber(p) && LexBelow(p, q))
    ensures !IsNumber(p) && !IsNumber(q) ==> Same(Parse(p), Parse(q))
  {
    ValueIsAtLeast(p);
    ValueIsAtLeast(q);
    FieldsCompareAsValues(p, q);
    FieldsCompareAsValues(q, p);
    LexTotal(p, q);
    hide Newer, Parse, LexBelow, Value, Same;
  }

  lemma ValueIsAtLeast(p: string)
    ensures Value(p) >= -1
  {
  }

  /** "b" comes after "a" in the alphabet and is not newer. */
  lemma CommentFails()
    ensures Clean("a") && Clean("b") && LexBelow("a", "b") && !Newer(Parse("b"), Parse("a")) && !FollowsComment("b", "a")
  {
    assert SameUpTo("a", "b", 0);
    assert !Digit("a"[0]) && !Digit("b"[0]);
    CommentHoldsIff("b", "a");
    FieldsCompareAsValues("b", "a");
  }

  // ---- Where the two readers agree ----

  /** No field before the first '+' is empty, and every field after it reads as zero. */
  predicate Aligned(s: string) {
    && "" !in Fields(s[..FirstPlus(s)], false)
    && (FirstPlus(s) < |s| ==> forall p :: p in Fields(s[FirstPlus(s) + 1..], true) ==> Value(p) == 0)
  }

  function NonZeros(v: seq<int>): nat {
    if v == [] then 0 else NonZeros(v[..|v| - 1]) + if v[|v| - 1] == 0 then 0 else 1
  }

  lemma {:induction false} SameNonZeros(x: seq<int>, y: seq<int>)
    requires Same(x, y)
    ensures NonZeros(x) == NonZeros(y)
    decreases |x| + |y|, |y|
  {
    if |x| > |y| {
      assert At(x, |x| - 1) == At(y, |x| - 1) == 0;
      assert forall i: nat :: At(x[..|x| - 1], i) == At(x, i);
      SameNonZeros(x[..|x| - 1], y);
    } else if |y| > |x| {
      SameNonZeros(y, x);
    } else if x != [] {
      assert At(x, |x| - 1) == At(y, |x| - 1);
      var u, v := x[..|x| - 1], y[..|y| - 1];
      forall i: nat ensures At(u, i) == At(v, i) { assert At(x, i) == At(y, i); }
      SameNonZeros(u, v);
    }
  }

  lemma {:induction false} NonZerosConcat(x: seq<int>, y: seq<int>)
    ensures NonZeros(x + y) == NonZeros(x) + NonZeros(y)
  {
    if y == [] {
      assert x + y == x;
    } else {
      assert (x + y)[..|x + y| - 1] == x + y[..|y| - 1];
      NonZerosConcat(x, y[..|y| - 1]);
    }
  }

  lemma {:induction false} NonZerosOf(ps: seq<string>)
    ensures NonZeros(Values(ps)) == 0 <==> forall p :: p in ps ==> Value(p) == 0
  {
    if ps != [] {
      NonZerosOf(ps[..|ps| - 1]);
      assert Values(ps)[..|ps| - 1] == Values(ps[..|ps| - 1]);
      assert ps == ps[..|ps| - 1] + [ps[|ps| - 1]];
    }
  }

  /** Every empty field dropped is a -1 dropped. */
  lemma NonZerosStep(ps: seq<string>, p: string)
    ensures NonZeros(Values(ps + [p])) == NonZeros(Values(ps)) + if Value(p) == 0 then 0 else 1
  {
    hide Value;
    assert Values(ps + [p])[..|ps|] == Values(ps);
  }

  lemma {:induction false} DroppedFields(fs: seq<string>)
    ensures NonZeros(Values(NonEmpty(fs))) <= NonZeros(Values(fs))
    ensures NonZeros(Values(NonEmpty(fs))) == NonZeros(Values(fs)) <==> "" !in fs
    ensures "" !in fs ==> NonEmpty(fs) == fs
  {
    if fs != [] {
      var front, last := fs[..|fs| - 1], fs[|fs| - 1];
      DroppedFields(front);
      assert fs == front + [last];
      NonEmptyStep(front, last);
      NonZerosStep(front, last);
      NonZerosStep(NonEmpty(front), last);
      assert Value("") == -1;
      hide NonZeros, Values, NonEmpty, Value;
    }
  }

  lemma ValuesConcat(a: seq<string>, b: seq<string>)
    ensures Values(a + b) == Values(a) + Values(b)
  {
  }

  /** The engine's reading: the fields before the first '+', then those after it. */
  lemma ParseSplits(s: string)
    ensures FirstPlus(s) == |s| ==> Parse(s) == Values(Fields(s[..FirstPlus(s)], false))
    ensures FirstPlus(s) < |s| ==>
              Parse(s) == Values(Fields(s[..FirstPlus(s)], false)) + Values(Fields(s[FirstPlus(s) + 1..], true))
  {
    hide Fields, Values, FirstPlus;
    var i := FirstPlus(s);
    FieldsWithoutPlus(s[..i]);
    if i < |s| {
      ValuesConcat(Fields(s[..i], false), Fields(s[i + 1..], true));
      assert s == s[..i] + ['+'] + s[i + 1..];
      FieldsConcat(s[..i], '+', s[i + 1..], true);
    } else {
      assert s[..i] == s;
    }
  }

  /** The two readers see the same version, trailing zeros aside, exactly for aligned strings. */
  lemma SameIffAligned(s: string)
    ensures Same(Parse(s), ParseVer(s)) <==> Aligned(s)
  {
    hide Fields, NonZeros, NonEmpty, Parse;
    var i := FirstPlus(s);
    var fs := Fields(s[..i], false);
    var rest: seq<string> := if i < |s| then Fields(s[i + 1..], true) else [];
    ParseSplits(s);
    assert Values(rest) == [] || i < |s|;
    assert Parse(s) == Values(fs) + Values(rest);
    DroppedFields(fs);
    NonZerosOf(rest);
    NonZerosConcat(Values(fs), Values(rest));
    if Same(Parse(s), ParseVer(s)) {
      SameNonZeros(Parse(s), ParseVer(s));
    }
  }

  /** On aligned strings, whatever their number of fields, both implementations answer alike. */
  lemma AlignedAgree(a: string, b: string)
    requires Aligned(a) && Aligned(b)
    ensures Newer(Parse(a), Parse(b)) <==> Newer(ParseVer(a), ParseVer(b))
  {
    hide Aligned, Parse, ParseVer;
    SameIffAligned(a);
    SameIffAligned(b);
    SameSubstitutes(Parse(a), Parse(b), ParseVer(a), ParseVer(b));
  }

  function Join(fs: seq<string>): string
    requires fs != []
  {
    if |fs| == 1 then fs[0] else Join(fs[..|fs| - 1]) + ['.'] + fs[|fs| - 1]
  }

  predicate CleanFields(fs: seq<string>) {
    forall k :: 0 <= k < |fs| ==> fs[k] != "" && Clean(fs[k])
  }

  lemma {:induction false} JoinSplits(fs: seq<string>, plus: bool)
    requires fs != [] && CleanFields(fs)
    ensures Fields(Join(fs), plus) == fs && '+' !in Join(fs)
  {
    hide Fields;
    var last := fs[|fs| - 1];
    OneField(last, plus);
    if |fs| > 1 {
      JoinSplits(fs[..|fs| - 1], plus);
      FieldsConcat(Join(fs[..|fs| - 1]), '.', last, plus);
      assert fs == fs[..|fs| - 1] + [last];
    }
  }

  lemma {:induction false} NonEmptyAreClean(fs: seq<string>)
    requires forall k :: 0 <= k < |fs| ==> Clean(fs[k])
    ensures CleanFields(NonEmpty(fs))
  {
    if fs != [] { NonEmptyAreClean(fs[..|fs| - 1]); }
  }

  /** The version the client reads, written without '+' and empty fields. */
  function Normal(s: string): string {
    var fs := NonEmpty(Fields(s[..FirstPlus(s)], false));
    if fs == [] then "0" else Join(fs)
  }

  lemma ZeroIsAligned()
    ensures Aligned("0") && ParseVer("0") == [0]
  {
    OneField("0", false);
    assert "0"[..FirstPlus("0")] == "0";
    ZeroReads();
    DroppedFields(["0"]);
  }

  lemma NormalIsAligned(s: string)
    ensures Aligned(Normal(s)) && Same(ParseVer(Normal(s)), ParseVer(s))
  {
    hide Fields, NonEmpty, NonZeros, Value;
    var pre := s[..FirstPlus(s)];
    var parts := Fields(pre, false);
    var fs := NonEmpty(parts);
    if fs == [] {
      ZeroIsAligned();
    } else {
      FieldsAreClean(pre);
      NonEmptyAreClean(parts);
      JoinSplits(fs, false);
      var w := Normal(s);
      assert FirstPlus(w) == |w| && w[..|w|] == w;
      DroppedFields(fs);
    }
  }

  ghost predicate AgreeOn(a: string, b: string) {
    && (Newer(Parse(a), Parse(b)) <==> Newer(ParseVer(a), ParseVer(b)))
    && (Newer(Parse(b), Parse(a)) <==> Newer(ParseVer(b), ParseVer(a)))
  }

  /** A string is ordered alike by both, against all aligned strings, exactly if it is aligned itself. */
  lemma AgreementIffAligned(a: string)
    ensures (forall b :: Aligned(b) ==> AgreeOn(a, b)) <==> Aligned(a)
  {
    hide Aligned, Parse, ParseVer, Newer, Normal;
    forall b | Aligned(a) && Aligned(b) ensures AgreeOn(a, b) {
      AlignedAgree(a, b);
      AlignedAgree(b, a);
    }
    if !Aligned(a) {
      var b := Normal(a);
      NormalIsAligned(a);
      SameIffAligned(a);
      SameIffAligned(b);
      Trichotomy(Parse(a), Parse(b));
      Trichotomy(ParseVer(a), ParseVer(b));
      Trichotomy(ParseVer(b), ParseVer(a));
      assert !Same(Parse(a), Parse(b));
      assert !AgreeOn(a, b);
    }
  }

  /** A build suffix is enough: the engine takes "1+d" for older than "1", the client for the same. */
  lemma BuildSuffixDisagrees()
    ensures !AgreeOn("1+d", "1")
  {
    assert "1+d" == "1" + ['+'] + "d";
    FieldsConcat("1", '+', "d", true);
    OneField("1", true);
    OneField("d", true);
    OneField("1", false);
    assert FirstPlus("1+d") == 1 && "1+d"[..1] == "1";
    assert FirstPlus("1") == 1 && "1"[..1] == "1";
    assert Fields("1+d", true) == ["1", "d"];
    assert !Digit("d"[0]);
    var x, y := Parse("1+d"), Parse("1");
    assert x == [Value("1"), -1] && y == [Value("1")];
    assert At(y, 1) > At(x, 1) && forall j: nat :: j < 1 ==> At(y, j) == At(x, j);
    Trichotomy(ParseVer("1"), ParseVer("1+d"));
  }
}
