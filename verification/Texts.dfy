/**
 How long a text is: in UTF-8 bytes, as section 3 of RFC 3629 encodes it, and in the UTF-16 code units that
 JavaScript counts.  The counting functions are the ones the mailbox uses; the codec beside them says what
 they count.
 */
module Texts {
  import opened Wrappers

  function Utf8Bytes(text: string): (n: nat)
    ensures text != "" ==> n >= 1
  {
    if text == "" then 0
    else
      var c := text[|text| - 1] as int;
      Utf8Bytes(text[..|text| - 1])
      + (if c < 0x80 then 1 else if c < 0x800 then 2 else if c < 0x1_0000 then 3 else 4)
  }

  /** The length that JavaScript gives a string: its number of UTF-16 code units. */
  function CodeUnits(text: string): nat {
    if text == "" then 0 else CodeUnits(text[..|text| - 1]) + if text[|text| - 1] as int < 0x1_0000 then 1 else 2
  }

  /** What JavaScript trims: white space and line ends. */
  predicate White(c: char) {
    var n := c as int;
    || 9 <= n <= 13 || n == 0x20 || n == 0xa0 || n == 0x1680 || 0x2000 <= n <= 0x200a
    || n == 0x2028 || n == 0x2029 || n == 0x202f || n == 0x205f || n == 0x3000 || n == 0xfeff
  }

  // ----- UTF-8 -----

  type Byte = b: nat | b < 256

  function EncodeChar(c: char): (bytes: seq<Byte>) {
    var n := c as int;
    if n < 0x80 then [n]
    else if n < 0x800 then [0xc0 + n / 64, 0x80 + n % 64]
    else if n < 0x1_0000 then [0xe0 + n / 4096, 0x80 + n / 64 % 64, 0x80 + n % 64]
    else [0xf0 + n / 0x4_0000, 0x80 + n / 4096 % 64, 0x80 + n / 64 % 64, 0x80 + n % 64]
  }

  function Encode(text: string): seq<Byte> {
    if text == "" then [] else EncodeChar(text[0]) + Encode(text[1..])
  }

  /** The six bits that byte `i` carries, if it continues a character. */
  function Six(bytes: seq<Byte>, i: nat): Option<nat> {
    if i < |bytes| && 0x80 <= bytes[i] < 0xc0 then
      var byte: nat := bytes[i];
      Some(byte - 0x80)
    else None
  }

  function Scalar(n: nat): Option<char> {
    if n < 0xd800 || 0xe000 <= n < 0x11_0000 then Some(n as char) else None
  }

  /** The character that `bytes` begin with: complete, in its shortest form, and no surrogate. */
  function First(bytes: seq<Byte>): Option<char> {
    if bytes == [] then None
    else
      var b: nat := bytes[0];
      var x, y, z := Six(bytes, 1), Six(bytes, 2), Six(bytes, 3);
      if b < 0x80 then Scalar(b)
      else if 0xc2 <= b < 0xe0 && x.Some? then Scalar((b - 0xc0) * 64 + x.value)
      else if 0xe0 <= b < 0xf0 && x.Some? && y.Some? && (b == 0xe0 ==> x.value >= 0x20) then
        Scalar((b - 0xe0) * 4096 + x.value * 64 + y.value)
      else if 0xf0 <= b < 0xf5 && x.Some? && y.Some? && z.Some? && (b == 0xf0 ==> x.value >= 0x10) then
        Scalar((b - 0xf0) * 0x4_0000 + x.value * 4096 + y.value * 64 + z.value)
      else None
  }

  lemma Digit(q: nat, r: nat)
    requires r < 64
    ensures (q * 64 + r) / 64 == q && (q * 64 + r) % 64 == r
  {
  }

  lemma Quotients(n: nat)
    ensures n / 4096 == n / 64 / 64 && n / 0x4_0000 == n / 4096 / 64
    ensures n == n / 64 * 64 + n % 64 && n / 64 == n / 4096 * 64 + n / 64 % 64
    ensures n / 4096 == n / 0x4_0000 * 64 + n / 4096 % 64
  {
  }

  /** A number written in base 64. */
  lemma Digits(w: nat, x: nat, y: nat, z: nat)
    requires x < 64 && y < 64 && z < 64
    ensures var n := w * 0x4_0000 + x * 4096 + y * 64 + z;
      n / 0x4_0000 == w && n / 4096 == w * 64 + x && n / 4096 % 64 == x && n / 64 % 64 == y && n % 64 == z
  {
    Digit(w * 4096 + x * 64 + y, z);
    Digit(w * 64 + x, y);
    Digit(w, x);
    Quotients(w * 0x4_0000 + x * 4096 + y * 64 + z);
  }

  lemma FirstOfTwo(w: nat, x: nat, rest: seq<Byte>)
    requires 2 <= w < 32 && x < 64
    ensures First([0xc0 + w, 0x80 + x] + rest) == Scalar(w * 64 + x)
  {
    var bytes: seq<Byte> := [0xc0 + w, 0x80 + x] + rest;
    assert Six(bytes, 1) == Some(x);
  }

  lemma FirstOfThree(w: nat, x: nat, y: nat, rest: seq<Byte>)
    requires w < 16 && x < 64 && y < 64 && (w == 0 ==> x >= 32)
    ensures First([0xe0 + w, 0x80 + x, 0x80 + y] + rest) == Scalar(w * 4096 + x * 64 + y)
  {
    var bytes: seq<Byte> := [0xe0 + w, 0x80 + x, 0x80 + y] + rest;
    assert Six(bytes, 1) == Some(x) && Six(bytes, 2) == Some(y);
  }

  lemma FirstOfFour(w: nat, x: nat, y: nat, z: nat, rest: seq<Byte>)
    requires w < 5 && x < 64 && y < 64 && z < 64 && (w == 0 ==> x >= 16)
    ensures First([0xf0 + w, 0x80 + x, 0x80 + y, 0x80 + z] + rest) == Scalar(w * 0x4_0000 + x * 4096 + y * 64 + z)
  {
    var bytes: seq<Byte> := [0xf0 + w, 0x80 + x, 0x80 + y, 0x80 + z] + rest;
    assert Six(bytes, 1) == Some(x) && Six(bytes, 2) == Some(y) && Six(bytes, 3) == Some(z);
  }

  lemma EncodedIsFirst(c: char, rest: seq<Byte>)
    ensures First(EncodeChar(c) + rest) == Some(c)
  {
    var n := c as nat;
    Quotients(n);
    assert Scalar(n) == Some(c);
    if n < 0x80 {
      assert (EncodeChar(c) + rest)[0] == n;
    } else if n < 0x800 {
      FirstOfTwo(n / 64, n % 64, rest);
    } else if n < 0x1_0000 {
      FirstOfThree(n / 4096, n / 64 % 64, n % 64, rest);
    } else {
      FirstOfFour(n / 0x4_0000, n / 4096 % 64, n / 64 % 64, n % 64, rest);
    }
  }

  lemma FirstIsEncoded(bytes: seq<Byte>)
    requires First(bytes).Some?
    ensures EncodeChar(First(bytes).value) <= bytes
  {
    var b: nat, n := bytes[0], First(bytes).value as nat;
    var x, y, z := Six(bytes, 1), Six(bytes, 2), Six(bytes, 3);
    if b < 0x80 {
    } else if b < 0xe0 {
      Digits(0, 0, b - 0xc0, x.value);
    } else if b < 0xf0 {
      Digits(0, b - 0xe0, x.value, y.value);
    } else {
      Digits(b - 0xf0, x.value, y.value, z.value);
    }
  }

  function Decode(bytes: seq<Byte>): Option<string> {
    if bytes == [] then Some("")
    else
      var c := First(bytes);
      if c.None? then None
      else
        var n := |EncodeChar(c.value)|;
        var rest := if n <= |bytes| then Decode(bytes[n..]) else None;
        if rest.Some? then Some([c.value] + rest.value) else None
  }

  /** The encoding determines its text. */
  lemma {:induction false} DecodeUndoesEncode(text: string)
    ensures Decode(Encode(text)) == Some(text)
  {
    if text != "" {
      var rest := Encode(text[1..]);
      var bytes := EncodeChar(text[0]) + rest;
      EncodedIsFirst(text[0], rest);
      DecodeUndoesEncode(text[1..]);
      assert bytes[|EncodeChar(text[0])|..] == rest && text == [text[0]] + text[1..];
    }
  }

  /** No other bytes are decoded: every text has exactly one encoding. */
  lemma {:induction false} EncodeUndoesDecode(bytes: seq<Byte>)
    requires Decode(bytes).Some?
    ensures Encode(Decode(bytes).value) == bytes
  {
    if bytes != [] {
      var c := First(bytes).value;
      var rest := bytes[|EncodeChar(c)|..];
      FirstIsEncoded(bytes);
      EncodeUndoesDecode(rest);
      EncodeStarts(c, Decode(rest).value);
      assert EncodeChar(c) + rest == bytes;
    }
  }

  lemma EncodeStarts(c: char, rest: string)
    ensures Encode([c] + rest) == EncodeChar(c) + Encode(rest)
  {
    assert ([c] + rest)[1..] == rest;
  }

  lemma {:induction false} EncodeAppends(a: string, b: string)
    ensures Encode(a + b) == Encode(a) + Encode(b)
  {
    if a == "" {
      assert a + b == b;
    } else {
      assert (a + b)[1..] == a[1..] + b;
      EncodeAppends(a[1..], b);
    }
  }

  /** What the byte count counts. */
  lemma {:induction false} Utf8BytesCountsTheEncoding(text: string)
    ensures Utf8Bytes(text) == |Encode(text)|
  {
    if text != "" {
      var n := |text| - 1;
      Utf8BytesCountsTheEncoding(text[..n]);
      EncodeAppends(text[..n], text[n..]);
      assert text == text[..n] + text[n..];
    }
  }

  /** One, two, three or four bytes for each character, by its code point. */
  lemma {:induction false} Utf8BytesAddUp(a: string, b: string, c: char)
    ensures Utf8Bytes(a + b) == Utf8Bytes(a) + Utf8Bytes(b)
    ensures Utf8Bytes([c]) == if c < '\U{80}' then 1 else if c < '\U{800}' then 2 else if c < '\U{10000}' then 3 else 4
  {
    EncodeAppends(a, b);
    Utf8BytesCountsTheEncoding(a);
    Utf8BytesCountsTheEncoding(b);
    Utf8BytesCountsTheEncoding(a + b);
  }

  // ----- UTF-16 -----

  /** A character outside the basic plane takes two code units, any other takes one. */
  lemma {:induction false} CodeUnitsAddUp(a: string, b: string, c: char)
    ensures CodeUnits(a + b) == CodeUnits(a) + CodeUnits(b)
    ensures CodeUnits([c]) == if c < '\U{10000}' then 1 else 2
  {
    if b == "" {
      assert a + b == a;
    } else {
      assert (a + b)[..|a + b| - 1] == a + b[..|b| - 1];
      CodeUnitsAddUp(a, b[..|b| - 1], c);
    }
  }

  lemma {:induction false} BytesWithinUnits(text: string)
    ensures CodeUnits(text) <= Utf8Bytes(text) <= 3 * CodeUnits(text)
  {
    if text != "" {
      BytesWithinUnits(text[..|text| - 1]);
    }
  }

  /** Tab to carriage return, the byte order mark, the separators and the spaces of the Unicode standard. */
  const BLANKS: set<char> := {
      '\U{0009}', '\U{000A}', '\U{000B}', '\U{000C}', '\U{000D}', '\U{0020}', '\U{00A0}',
      '\U{1680}', '\U{2000}', '\U{2001}', '\U{2002}', '\U{2003}', '\U{2004}', '\U{2005}',
      '\U{2006}', '\U{2007}', '\U{2008}', '\U{2009}', '\U{200A}', '\U{2028}', '\U{2029}',
      '\U{202F}', '\U{205F}', '\U{3000}', '\U{FEFF}'}

  lemma WhiteIsBlank(c: char)
    ensures White(c) <==> c in BLANKS
  {
  }
}
