/** The text the handshake is made of: decimal numbers, separated fields, blanks, booleans and
    base64 (sections 3.2 and 4 of RFC 4648, without padding). */
module Text {
  import opened Basics

  // ---------------------------------------------------------------- decimal numbers

  const MIN_INT := -0x8000_0000_0000_0000
  const MAX_INT := 0x7fff_ffff_ffff_ffff

  /** A Go int on a 64-bit platform. */
  type Int = n: int | MIN_INT <= n <= MAX_INT

  predicate IsDigit(c: char)
  {
    '0' <= c <= '9'
  }

  function Digit(d: nat): (c: char)
    requires d < 10
    ensures IsDigit(c) && Value(c) == d
  {
    ('0' as int + d) as char
  }

  function Value(c: char): (d: nat)
    requires IsDigit(c)
    ensures d < 10
  {
    c as int - '0' as int
  }

  predicate AllDigits(s: string)
  {
    forall i :: 0 <= i < |s| ==> IsDigit(s[i])
  }

  function Digits(n: nat): (s: string)
    ensures s != [] && AllDigits(s) && (|s| > 1 ==> s[0] != '0') && (n > 0 ==> s[0] != '0')
  {
    if n < 10 then [Digit(n)] else Digits(n / 10) + [Digit(n % 10)]
  }

  function DigitsValue(s: string): nat
    requires AllDigits(s)
  {
    if s == [] then 0 else 10 * DigitsValue(s[..|s| - 1]) + Value(s[|s| - 1])
  }

  /** strconv.Itoa */
  function Itoa(n: int): (s: string)
    ensures s != []
    ensures forall i :: 0 <= i < |s| ==> IsDigit(s[i]) || s[i] == '-'
  {
    if n < 0 then "-" + Digits(-n) else Digits(n)
  }

  /** strconv.Atoi: an optional sign, digits, and the range of an int. */
  function Atoi(s: string): (r: Option<Int>)
  {
    var digits := if s != [] && (s[0] == '-' || s[0] == '+') then s[1..] else s;
    if digits == [] || !AllDigits(digits) then None
    else
      var n: int := if s[0] == '-' then 0 - DigitsValue(digits) else DigitsValue(digits);
      if MIN_INT <= n <= MAX_INT then Some(n) else None
  }

  lemma {:induction false} DigitsRoundTrip(n: nat)
    ensures DigitsValue(Digits(n)) == n
  {
    var s := Digits(n);
    if n >= 10 {
      DigitsRoundTrip(n / 10);
      assert s[..|s| - 1] == Digits(n / 10);
    } else {
      assert s[..0] == [];
    }
  }

  /** Every int survives being written and read. */
  lemma {:induction false} AtoiItoa(n: Int)
    ensures Atoi(Itoa(n)) == Some(n)
  {
    var s := Itoa(n);
    var m: int := n;
    if n < 0 {
      DigitsRoundTrip(-m);
      assert s[1..] == Digits(-m);
    } else {
      DigitsRoundTrip(n);
      assert IsDigit(s[0]);
    }
  }

  /** `s` is a number in decimal, with or without a sign. */
  ghost predicate Spells(s: string, n: int)
  {
    exists digits :: digits != [] && AllDigits(digits) &&
      ((s == digits && n == DigitsValue(digits)) || (s == "+" + digits && n == DigitsValue(digits)) ||
       (s == "-" + digits && n == 0 - DigitsValue(digits)))
  }

  /** Atoi reads exactly the decimal numbers that fit an int. */
  lemma {:induction false} AtoiExactly(s: string, n: Int)
    ensures Atoi(s) == Some(n) <==> Spells(s, n)
  {
    if s != [] && (s[0] == '-' || s[0] == '+') {
      assert s == [s[0]] + s[1..];
    }
    if Spells(s, n) {
      var digits :| digits != [] && AllDigits(digits) &&
        ((s == digits && n == DigitsValue(digits)) || (s == "+" + digits && n == DigitsValue(digits)) ||
         (s == "-" + digits && n == 0 - DigitsValue(digits)));
      assert IsDigit(digits[0]) && (s != digits ==> s[1..] == digits);
    }
  }

  // ---------------------------------------------------------------- separated fields

  /** strings.Split with a one-character separator. */
  function Split(s: string, sep: char): (r: seq<string>)
    ensures r != []
    ensures forall i :: 0 <= i < |r| ==> sep !in r[i]
  {
    if s == [] then [[]]
    else if s[0] == sep then [[]] + Split(s[1..], sep)
    else
      var rest := Split(s[1..], sep);
      [[s[0]] + rest[0]] + rest[1..]
  }

  /** strings.Join */
  function Join(fields: seq<string>, sep: char): string
  {
    if fields == [] then [] else if |fields| == 1 then fields[0] else fields[0] + [sep] + Join(fields[1..], sep)
  }

  lemma {:induction false} SplitField(f: string, rest: string, sep: char)
    requires sep !in f
    ensures Split(f + [sep] + rest, sep) == [f] + Split(rest, sep)
  {
    var s := f + [sep] + rest;
    if f == [] {
      assert s == [sep] + rest && s[1..] == rest;
    } else {
      assert s[0] == f[0] && s[1..] == f[1..] + [sep] + rest;
      SplitField(f[1..], rest, sep);
      assert [f[0]] + f[1..] == f;
    }
  }

  lemma {:induction false} SplitPlain(f: string, sep: char)
    requires sep !in f
    ensures Split(f, sep) == [f]
  {
    if f != [] {
      SplitPlain(f[1..], sep);
      assert [f[0]] + f[1..] == f;
    }
  }

  /** What comes before the first separator stays in front. */
  lemma {:induction false} SplitHead(p: string, s: string, sep: char)
    requires sep !in p
    ensures Split(p + s, sep)[0] == p + Split(s, sep)[0]
  {
    if p == [] {
      assert p + s == s;
    } else {
      assert (p + s)[1..] == p[1..] + s && p == [p[0]] + p[1..];
      SplitHead(p[1..], s, sep);
    }
  }

  /** Fields free of the separator come back exactly. */
  lemma {:induction false} SplitJoin(fields: seq<string>, sep: char)
    requires fields != [] && forall i :: 0 <= i < |fields| ==> sep !in fields[i]
    ensures Split(Join(fields, sep), sep) == fields
  {
    if |fields| == 1 {
      SplitPlain(fields[0], sep);
    } else {
      SplitField(fields[0], Join(fields[1..], sep), sep);
      SplitJoin(fields[1..], sep);
    }
  }

  /** Splitting loses nothing: the fields, none of which has the separator, join to the whole again. */
  lemma {:induction false} JoinSplit(s: string, sep: char)
    ensures Join(Split(s, sep), sep) == s
  {
    if s != [] {
      var rest := Split(s[1..], sep);
      JoinSplit(s[1..], sep);
      if s[0] == sep {
        assert ([[]] + rest)[1..] == rest;
      } else {
        var fields := [[s[0]] + rest[0]] + rest[1..];
        assert fields[1..] == rest[1..];
        assert Join(fields, sep) == [s[0]] + Join(rest, sep);
      }
    }
  }

  // ---------------------------------------------------------------- blanks and booleans

  /** unicode.IsSpace */
  predicate IsSpace(c: char)
  {
    var n := c as int;
    || 0x09 <= n <= 0x0d || n in {0x20, 0x85, 0xa0, 0x1680, 0x2028, 0x2029, 0x202f, 0x205f, 0x3000}
    || 0x2000 <= n <= 0x200a
  }

  function TrimLeft(s: string): string
  {
    if s != [] && IsSpace(s[0]) then TrimLeft(s[1..]) else s
  }

  function TrimRight(s: string): string
  {
    if s != [] && IsSpace(s[|s| - 1]) then TrimRight(s[..|s| - 1]) else s
  }

  /** Trimming stops at a character that is no blank. */
  lemma {:induction false} TrimRightKeeps(p: string, s: string) returns (x: string)
    requires p != [] && !IsSpace(p[|p| - 1])
    ensures TrimRight(p + s) == p + x
  {
    if s != [] && IsSpace(s[|s| - 1]) {
      assert (p + s)[..|p + s| - 1] == p + s[..|s| - 1];
      x := TrimRightKeeps(p, s[..|s| - 1]);
    } else {
      x := s;
    }
  }

  predicate AllSpaces(s: string)
  {
    forall i :: 0 <= i < |s| ==> IsSpace(s[i])
  }

  lemma {:induction false} TrimLeftDrops(s: string) returns (a: string)
    ensures AllSpaces(a) && s == a + TrimLeft(s) && (TrimLeft(s) != [] ==> !IsSpace(TrimLeft(s)[0]))
  {
    a := [];
    if s != [] && IsSpace(s[0]) {
      a := TrimLeftDrops(s[1..]);
      a := [s[0]] + a;
    }
  }

  lemma {:induction false} TrimRightDrops(s: string) returns (b: string)
    ensures AllSpaces(b) && s == TrimRight(s) + b && TrimRight(s) <= s
    ensures TrimRight(s) != [] ==> !IsSpace(TrimRight(s)[|TrimRight(s)| - 1])
  {
    b := [];
    if s != [] && IsSpace(s[|s| - 1]) {
      b := TrimRightDrops(s[..|s| - 1]);
      b := b + [s[|s| - 1]];
    }
  }

  /** What is trimmed is the blanks at both ends, and all of them. */
  lemma {:induction false} TrimSpaceExactly(s: string) returns (a: string, b: string)
    ensures AllSpaces(a) && AllSpaces(b) && s == a + TrimSpace(s) + b
    ensures TrimSpace(s) != [] ==> !IsSpace(TrimSpace(s)[0]) && !IsSpace(TrimSpace(s)[|TrimSpace(s)| - 1])
  {
    a := TrimLeftDrops(s);
    b := TrimRightDrops(TrimLeft(s));
  }

  /** strings.TrimSpace */
  function TrimSpace(s: string): string
  {
    TrimRight(TrimLeft(s))
  }

  /** strconv.ParseBool */
  function ParseBool(s: string): Option<bool>
  {
    if s in ["1", "t", "T", "TRUE", "true", "True"] then Some(true)
    else if s in ["0", "f", "F", "FALSE", "false", "False"] then Some(false)
    else None
  }

  // ---------------------------------------------------------------- base64

  /** The alphabet of section 4 of RFC 4648. */
  function Letter(v: nat): (c: char)
    requires v < 64
    ensures IsLetter(c)
  {
    if v < 26 then ('A' as int + v) as char
    else if v < 52 then ('a' as int + (v - 26)) as char
    else if v < 62 then ('0' as int + (v - 52)) as char
    else if v == 62 then '+' else '/'
  }

  /** The alphabet runs from A to Z, from a to z and from 0 to 9, and ends in + and /. */
  lemma {:induction false} LettersInOrder(v: nat)
    requires v < 63
    ensures Letter(0) == 'A' && Letter(25) == 'Z' && Letter(26) == 'a' && Letter(51) == 'z' && Letter(52) == '0'
    ensures Letter(61) == '9' && Letter(62) == '+' && Letter(63) == '/'
    ensures v !in {25, 51, 61, 62} ==> Letter(v + 1) as int == Letter(v) as int + 1
  {
  }

  predicate IsLetter(c: char)
  {
    'A' <= c <= 'Z' || 'a' <= c <= 'z' || '0' <= c <= '9' || c == '+' || c == '/'
  }

  function Sextet(c: char): (v: nat)
    requires IsLetter(c)
    ensures v < 64
  {
    if 'A' <= c <= 'Z' then c as int - 'A' as int
    else if 'a' <= c <= 'z' then c as int - 'a' as int + 26
    else if '0' <= c <= '9' then c as int - '0' as int + 52
    else if c == '+' then 62 else 63
  }

  lemma SextetLetter(v: nat)
    requires v < 64
    ensures Sextet(Letter(v)) == v
  {
  }

  /** The four sextets of three bytes. */
  function Sextets(p: Byte, q: Byte, r: Byte): (v: (nat, nat, nat, nat))
    ensures v.0 < 64 && v.1 < 64 && v.2 < 64 && v.3 < 64
    ensures ((v.0 * 64 + v.1) * 64 + v.2) * 64 + v.3 == (p * 256 + q) * 256 + r
  {
    (p / 4, p % 4 * 16 + q / 16, q % 16 * 4 + r / 64, r % 64)
  }

  function Letters(v: (nat, nat, nat, nat)): (s: string)
    requires v.0 < 64 && v.1 < 64 && v.2 < 64 && v.3 < 64
    ensures |s| == 4 && forall i :: 0 <= i < 4 ==> IsLetter(s[i])
  {
    [Letter(v.0), Letter(v.1), Letter(v.2), Letter(v.3)]
  }

  /** base64.RawStdEncoding.EncodeToString: three bytes to four letters, and no padding. */
  function Encode64(b: seq<Byte>): (s: string)
    ensures forall i :: 0 <= i < |s| ==> IsLetter(s[i])
  {
    if b == [] then []
    else if |b| == 1 then Letters(Sextets(b[0], 0, 0))[..2]
    else if |b| == 2 then Letters(Sextets(b[0], b[1], 0))[..3]
    else Letters(Sextets(b[0], b[1], b[2])) + Encode64(b[3..])
  }

  function First(x: nat, y: nat): Byte
    requires x < 64 && y < 64
  {
    x * 4 + y / 16
  }

  function Second(y: nat, z: nat): Byte
    requires y < 64 && z < 64
  {
    y % 16 * 16 + z / 4
  }

  function Third(z: nat, w: nat): Byte
    requires z < 64 && w < 64
  {
    z % 4 * 64 + w
  }

  /** base64.RawStdEncoding.DecodeString on text without line breaks; leftover low bits are ignored. */
  function Decode64(s: string): Option<seq<Byte>>
  {
    if s == [] then Some([])
    else if |s| == 1 || !IsLetter(s[0]) || !IsLetter(s[1]) then None
    else
      var x, y := Sextet(s[0]), Sextet(s[1]);
      if |s| == 2 then Some([First(x, y)])
      else if !IsLetter(s[2]) then None
      else
        var z := Sextet(s[2]);
        if |s| == 3 then Some([First(x, y), Second(y, z)])
        else if !IsLetter(s[3]) then None
        else
          var w := Sextet(s[3]);
          var rest := Decode64(s[4..]);
          if rest.None? then None else Some([First(x, y), Second(y, z), Third(z, w)] + rest.value)
  }

  lemma GroupRoundTrip(p: Byte, q: Byte, r: Byte)
    ensures var (x, y, z, w) := Sextets(p, q, r);
            First(x, y) == p && Second(y, z) == q && Third(z, w) == r
  {
  }

  /** Exactly the text made of letters and of a length that bytes encode to can be decoded. */
  lemma {:induction false} DecodesExactly(s: string)
    ensures Decode64(s).Some? <==> |s| % 4 != 1 && forall i :: 0 <= i < |s| ==> IsLetter(s[i])
    ensures Decode64(s).Some? ==> |Decode64(s).value| == |s| * 3 / 4
  {
    if |s| >= 4 {
      DecodesExactly(s[4..]);
      assert forall i :: 4 <= i < |s| ==> s[i] == s[4..][i - 4];
      assert forall i :: 0 <= i < |s[4..]| ==> s[4..][i] == s[i + 4];
    }
  }

  /** One group decodes to its bytes; a final group of two or three letters to one or two. */
  lemma {:induction false} DecodeGroup(p: Byte, q: Byte, r: Byte, rest: string)
    ensures Decode64(Letters(Sextets(p, q, r))[..2]) == Some([p])
    ensures Decode64(Letters(Sextets(p, q, r))[..3]) == Some([p, q])
    ensures Decode64(rest).Some? ==>
              Decode64(Letters(Sextets(p, q, r)) + rest) == Some([p, q, r] + Decode64(rest).value)
  {
    var (x, y, z, w) := Sextets(p, q, r);
    GroupRoundTrip(p, q, r);
    SextetLetter(x);
    SextetLetter(y);
    SextetLetter(z);
    SextetLetter(w);
    assert (Letters((x, y, z, w)) + rest)[4..] == rest;
  }

  lemma {:induction false} DecodeTail(b: seq<Byte>)
    requires 1 <= |b| <= 2
    ensures Decode64(Encode64(b)) == Some(b)
  {
    DecodeGroup(b[0], if |b| == 2 then b[1] else 0, 0, "");
    assert b == if |b| == 2 then [b[0], b[1]] else [b[0]];
  }

  /** Every certificate survives being encoded and decoded. */
  lemma {:induction false} Decode64Encode64(b: seq<Byte>)
    ensures Decode64(Encode64(b)) == Some(b)
  {
    if 1 <= |b| <= 2 {
      DecodeTail(b);
    } else if b != [] {
      Decode64Encode64(b[3..]);
      DecodeGroup(b[0], b[1], b[2], Encode64(b[3..]));
      assert b == [b[0], b[1], b[2]] + b[3..];
    }
  }
}
