/** What the relay and the client ask of strings. */
module Text {

  /** A username as it travels; it need not be registered, nor well formed. */
  datatype Username = Username(text: string)

  predicate Alphanumeric(c: char) {
    '0' <= c <= '9' || 'a' <= c <= 'z' || 'A' <= c <= 'Z'
  }

  /** Bytes of one character in UTF-8 (section 3 of RFC 3629). */
  function CharBytes(c: char): nat {
    if c < '\U{80}' then 1 else if c < '\U{800}' then 2 else if c < '\U{10000}' then 3 else 4
  }

  /** Rust's `str::len`: the bytes of the UTF-8 form. */
  function Bytes(s: string): nat {
    if s == "" then 0 else Bytes(s[..|s| - 1]) + CharBytes(s[|s| - 1])
  }

  /** The UTF-8 form of a character. */
  function Utf8(c: char): seq<int> {
    var v := c as int;
    if v < 0x80 then [v]
    else if v < 0x800 then [0xC0 + v / 0x40, 0x80 + v % 0x40]
    else if v < 0x1_0000 then [0xE0 + v / 0x1000, 0x80 + v / 0x40 % 0x40, 0x80 + v % 0x40]
    else [0xF0 + v / 0x4_0000, 0x80 + v / 0x1000 % 0x40, 0x80 + v / 0x40 % 0x40, 0x80 + v % 0x40]
  }

  /** As many bytes as counted, the leading one below, at or above 0xC0, 0xE0 and 0xF0 by their number, and
      all following ones between 0x80 and 0xBF. */
  lemma CharBytesIsUtf8(c: char)
    ensures |Utf8(c)| == CharBytes(c)
    ensures var b := Utf8(c);
            && (if |b| == 1 then b[0] < 0x80 else if |b| == 2 then 0xC2 <= b[0] < 0xE0 else if |b| == 3 then 0xE0 <= b[0] < 0xF0 else 0xF0 <= b[0] < 0xF8)
            && forall i :: 1 <= i < |b| ==> 0x80 <= b[i] < 0xC0
  {
  }

  predicate Ascii(s: string) {
    forall i :: 0 <= i < |s| ==> s[i] < '\U{80}'
  }

  lemma {:induction false} BytesBetween(s: string)
    ensures |s| <= Bytes(s) <= 4 * |s|
    ensures Bytes(s) == |s| <==> Ascii(s)
  {
    if s != "" {
      var front, last := s[..|s| - 1], s[|s| - 1];
      BytesBetween(front);
      assert forall i :: 0 <= i < |front| ==> front[i] == s[i];
      assert Ascii(s) <==> Ascii(front) && last < '\U{80}';
    }
  }

  /** The six bits a Base64 digit stands for (section 4 of RFC 4648), or -1. */
  function Base64Value(c: char): int {
    if 'A' <= c <= 'Z' then c as int - 'A' as int
    else if 'a' <= c <= 'z' then c as int - 'a' as int + 26
    else if '0' <= c <= '9' then c as int - '0' as int + 52
    else if c == '+' then 62
    else if c == '/' then 63
    else -1
  }

  /** Base64 of exactly 32 bytes: 43 digits, the two spare bits of the last one clear, and one `=`. */
  predicate ValidPubkey(s: string) {
    && |s| == 44 && (forall i :: 0 <= i < 43 ==> Base64Value(s[i]) >= 0)
    && Base64Value(s[42]) % 4 == 0 && s[43] == '='
  }

  // ---- What the key check amounts to ----

  /** The Base64 digit of six bits. */
  function Base64Digit(v: int): char
    requires 0 <= v < 64
  {
    if v < 26 then 'A' + v as char
    else if v < 52 then 'a' + (v - 26) as char
    else if v < 62 then '0' + (v - 52) as char
    else if v == 62 then '+' else '/'
  }

  predicate Is32Bytes(b: seq<int>) {
    |b| == 32 && forall i :: 0 <= i < 32 ==> 0 <= b[i] < 256
  }

  /** The `r`-th six bits of three bytes. */
  function SixBits(a: int, b: int, c: int, r: int): int {
    if r == 0 then a / 4 else if r == 1 then (a % 4) * 16 + b / 16 else if r == 2 then (b % 16) * 4 + c / 64 else c % 64
  }

  /** The `r`-th six bits of the `g`-th three bytes, the last ones padded with zeros. */
  function Sextet(b: seq<int>, g: int, r: int): (v: int)
    requires Is32Bytes(b) && 0 <= g <= 10 && 0 <= r < 4
    ensures 0 <= v < 64
  {
    SixBits(b[3 * g], b[3 * g + 1], if g < 10 then b[3 * g + 2] else 0, r)
  }

  /** The Base64 form of 32 bytes (section 4 of RFC 4648). */
  function Base64Of(b: seq<int>): string
    requires Is32Bytes(b)
  {
    seq(44, i requires 0 <= i < 44 => if i < 43 then Base64Digit(Sextet(b, i / 4, i % 4)) else '=')
  }

  lemma DigitsAreValues(v: int, c: char)
    ensures 0 <= v < 64 ==> Base64Value(Base64Digit(v)) == v
    ensures Base64Value(c) >= 0 ==> Base64Value(c) < 64 && Base64Digit(Base64Value(c)) == c
  {
  }

  /** The byte that the digits hold at place `j`. */
  function ByteAt(s: string, j: int): int
    requires |s| == 44 && 0 <= j < 32
  {
    var i := j / 3 * 4 + j % 3;
    var u, v := Base64Value(s[i]), Base64Value(s[i + 1]);
    if j % 3 == 0 then u * 4 + v / 16 else if j % 3 == 1 then (u % 16) * 16 + v / 4 else (u % 4) * 64 + v
  }

  function BytesOf(s: string): seq<int>
    requires |s| == 44
  {
    seq(32, j requires 0 <= j < 32 => ByteAt(s, j))
  }

  /** Four groups of six bits make three bytes and are read back from them. */
  lemma Regroup(u: int, v: int, w: int, x: int)
    requires 0 <= u < 64 && 0 <= v < 64 && 0 <= w < 64 && 0 <= x < 64
    ensures var a, b, c := u * 4 + v / 16, (v % 16) * 16 + w / 4, (w % 4) * 64 + x;
            SixBits(a, b, c, 0) == u && SixBits(a, b, c, 1) == v && SixBits(a, b, c, 2) == w && SixBits(a, b, c, 3) == x
  {
  }

  /** The three bytes of the `g`-th four digits. */
  lemma BytesOfGroup(s: string, g: int)
    requires |s| == 44 && 0 <= g <= 10
    ensures ByteAt(s, 3 * g) == Base64Value(s[4 * g]) * 4 + Base64Value(s[4 * g + 1]) / 16
    ensures ByteAt(s, 3 * g + 1) == (Base64Value(s[4 * g + 1]) % 16) * 16 + Base64Value(s[4 * g + 2]) / 4
    ensures g < 10 ==> ByteAt(s, 3 * g + 2) == (Base64Value(s[4 * g + 2]) % 4) * 64 + Base64Value(s[4 * g + 3])
  {
    hide Base64Value;
  }

  lemma GroupIsRead(s: string, g: int)
    requires ValidPubkey(s) && 0 <= g <= 10 && Is32Bytes(BytesOf(s))
    ensures var b := BytesOf(s);
            && Sextet(b, g, 0) == Base64Value(s[4 * g]) && Sextet(b, g, 1) == Base64Value(s[4 * g + 1])
            && Sextet(b, g, 2) == Base64Value(s[4 * g + 2]) && (g < 10 ==> Sextet(b, g, 3) == Base64Value(s[4 * g + 3]))
  {
    DigitsAreValues(0, s[4 * g]);
    DigitsAreValues(0, s[4 * g + 1]);
    DigitsAreValues(0, s[4 * g + 2]);
    if g < 10 { DigitsAreValues(0, s[4 * g + 3]); }
    BytesOfGroup(s, g);
    hide Base64Value, Base64Digit, ByteAt;
    Regroup(Base64Value(s[4 * g]), Base64Value(s[4 * g + 1]), Base64Value(s[4 * g + 2]), if g < 10 then Base64Value(s[4 * g + 3]) else 0);
  }

  lemma SextetIsRead(s: string, g: int, r: int)
    requires ValidPubkey(s) && 0 <= g <= 10 && 0 <= r < 4 && (g == 10 ==> r < 3) && Is32Bytes(BytesOf(s))
    ensures Base64Digit(Sextet(BytesOf(s), g, r)) == s[4 * g + r]
  {
    GroupIsRead(s, g);
    DigitsAreValues(0, s[4 * g + r]);
    assert Base64Value(s[4 * g + r]) >= 0;
    hide Base64Value, Base64Digit, Sextet, SixBits, BytesOf, ByteAt, ValidPubkey, Is32Bytes;
    match r {
      case 0 =>
      case 1 =>
      case 2 =>
      case _ =>
    }
  }

  lemma Quarters(i: int)
    requires 0 <= i < 43
    ensures i == 4 * (i / 4) + i % 4 && 0 <= i / 4 <= 10 && 0 <= i % 4 < 4 && (i / 4 == 10 ==> i % 4 < 3)
  {
  }

  lemma BytesInRange(s: string)
    requires ValidPubkey(s)
    ensures Is32Bytes(BytesOf(s))
  {
    forall j | 0 <= j < 32 ensures 0 <= ByteAt(s, j) < 256 {
      var i := j / 3 * 4 + j % 3;
      DigitsAreValues(0, s[i]);
      DigitsAreValues(0, s[i + 1]);
    }
  }

  lemma KeyIsRead(s: string)
    requires ValidPubkey(s)
    ensures Is32Bytes(BytesOf(s)) && s == Base64Of(BytesOf(s))
  {
    BytesInRange(s);
    LastIsPadding(s);
    hide ValidPubkey, Sextet, BytesOf, Base64Digit, Is32Bytes;
    forall i | 0 <= i < 43 ensures Base64Digit(Sextet(BytesOf(s), i / 4, i % 4)) == s[i] {
      Quarters(i);
      SextetIsRead(s, i / 4, i % 4);
    }
    var form := Base64Of(BytesOf(s));
    assert |form| == 44 && form[43] == s[43] && forall i :: 0 <= i < 43 ==> form[i] == s[i];
  }

  lemma FormIsValid(b: seq<int>)
    requires Is32Bytes(b)
    ensures ValidPubkey(Base64Of(b))
  {
    var s := Base64Of(b);
    forall i | 0 <= i < 43 ensures Base64Value(s[i]) == Sextet(b, i / 4, i % 4) { DigitsAreValues(Sextet(b, i / 4, i % 4), s[i]); }
    hide Base64Value, Base64Digit;
    assert Base64Value(s[42]) == Sextet(b, 10, 2);
  }

  /** A well-formed key is the Base64 form of 32 bytes, and nothing else is. */
  lemma PubkeyIsBase64(s: string)
    ensures ValidPubkey(s) <==> exists b: seq<int> :: Is32Bytes(b) && s == Base64Of(b)
  {
    hide ValidPubkey, Base64Of, BytesOf;
    if ValidPubkey(s) {
      LastIsPadding(s);
      KeyIsRead(s);
    }
    if b: seq<int> :| Is32Bytes(b) && s == Base64Of(b) { FormIsValid(b); }
  }

  lemma LastIsPadding(s: string)
    requires ValidPubkey(s)
    ensures |s| == 44 && s[43] == '='
  {
  }
}
