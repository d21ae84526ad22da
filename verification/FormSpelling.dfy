/**
 What the characters of a payload stand for: how a byte may be spelled, how it is spelled when it is sent, and
 where a field's name ends.
 */
module FormSpelling {
  import opened Wrappers
  import opened WebForm

  const UPPER_DIGITS: seq<Codepoint> := [0x30, 0x31, 0x32, 0x33, 0x34, 0x35, 0x36, 0x37, 0x38, 0x39, 0x41, 0x42, 0x43, 0x44, 0x45, 0x46]
  const LOWER_DIGITS: seq<Codepoint> := [0x30, 0x31, 0x32, 0x33, 0x34, 0x35, 0x36, 0x37, 0x38, 0x39, 0x61, 0x62, 0x63, 0x64, 0x65, 0x66]

  // The digit stands for n, in either case.
  predicate IsDigit(c: Codepoint, n: int) {
    0 <= n < 16 && (c == UPPER_DIGITS[n] || c == LOWER_DIGITS[n])
  }

  // A per cent sign and two digits for the byte.
  predicate SpellsByte(s: Text, b: int) {
    |s| > 2 && s[0] == 0x25 && 0 <= b < 256 && IsDigit(s[1], b / 16) && IsDigit(s[2], b % 16)
  }

  ghost predicate SpellsSomeByte(s: Text) {
    exists b :: SpellsByte(s, b)
  }

  /**
   How a text is read: a plus sign is a space, a per cent sign with two digits a byte, any other per cent sign and
   any other character itself.
   */
  ghost predicate Reads(s: Text, t: Text) {
    if s == [] then t == []
    else t != [] && if SpellsSomeByte(s) then SpellsByte(s, t[0]) && Reads(s[3..], t[1..])
                    else t[0] == (if s[0] == 0x2B then 0x20 else s[0]) && Reads(s[1..], t[1..])
  }

  lemma DigitIs(c: Codepoint)
    ensures IsHexDigit(c) ==> IsDigit(c, HexValue(c))
    ensures forall n :: IsDigit(c, n) ==> IsHexDigit(c) && HexValue(c) == n
  {
    assert IsHexDigit(c) ==> UPPER_DIGITS[HexValue(c)] == c || LOWER_DIGITS[HexValue(c)] == c;
  }

  lemma ByteIs(s: Text)
    ensures HexEscapeAt(s, 0) ==> SpellsByte(s, 16 * HexValue(s[1]) + HexValue(s[2]))
    ensures forall b :: SpellsByte(s, b) ==> HexEscapeAt(s, 0) && b == 16 * HexValue(s[1]) + HexValue(s[2])
  {
    hide IsDigit;
    hide HexValue;
    hide IsHexDigit;
    if |s| > 2 {
      DigitIs(s[1]);
      DigitIs(s[2]);
    }
  }

  /** The decoder reads exactly that. */
  lemma {:induction false} UnescapeIff(s: Text, t: Text)
    ensures Reads(s, t) <==> Unescape(s) == t
  {
    hide HexEscapeAt;
    hide HexValue;
    hide SpellsByte;
    hide SpellsSomeByte;
    ByteIs(s);
    SomeByte(s);
    if s != [] && t != [] {
      UnescapeIff(s[1..], t[1..]);
      if |s| > 2 {
        UnescapeIff(s[3..], t[1..]);
      }
      assert t == [t[0]] + t[1..];
    }
  }

  lemma SomeByte(s: Text)
    ensures SpellsSomeByte(s) <==> HexEscapeAt(s, 0)
    ensures SpellsSomeByte(s) ==> |s| > 2
  {
    hide SpellsByte;
    ByteIs(s);
    if HexEscapeAt(s, 0) {
      assert SpellsByte(s, 16 * HexValue(s[1]) + HexValue(s[2]));
    }
  }

  /** A text without plus and per cent signs is read as it stands. */
  lemma {:induction false} PlainText(s: Text)
    requires 0x2B !in s && 0x25 !in s
    ensures Unescape(s) == s
  {
    if s != [] {
      PlainText(s[1..]);
      assert s == [s[0]] + s[1..];
    }
  }

  // ---------------------------------------------------------------------------------------------
  // Spellings

  // A character at a time, each byte may stand for itself or be escaped, with digits of either case; a space
  // may also be a plus sign.
  ghost predicate Spells(s: Text, bytes: Bytes)
    decreases bytes
  {
    if bytes == [] then s == []
    else
      || (SpellsByte(s, bytes[0]) && Spells(s[3..], bytes[1..]))
      || (s != [] && s[0] == bytes[0] && s[0] != 0x25 && s[0] != 0x2B && Spells(s[1..], bytes[1..]))
      || (s != [] && s[0] == 0x2B && bytes[0] == 0x20 && Spells(s[1..], bytes[1..]))
  }

  /** However the sender spells a byte string, it is read back. */
  lemma {:induction false} SpellingIsRead(s: Text, bytes: Bytes)
    requires Spells(s, bytes)
    ensures Unescape(s) == bytes
  {
    hide *;
    if bytes == [] {
      NothingSpelled(s);
    } else {
      SpellingStep(s, bytes);
      UnescapeStep(s, bytes[0]);
      assert bytes == [bytes[0]] + bytes[1..];
      if SpellsByte(s, bytes[0]) && Spells(s[3..], bytes[1..]) {
        SpellingIsRead(s[3..], bytes[1..]);
      } else {
        SpellingIsRead(s[1..], bytes[1..]);
      }
    }
  }

  lemma NothingSpelled(s: Text)
    requires Spells(s, [])
    ensures s == [] && Unescape(s) == []
  {
  }

  lemma SpellingStep(s: Text, bytes: Bytes)
    requires Spells(s, bytes) && bytes != []
    ensures SpellsByte(s, bytes[0]) ==> |s| > 2
    ensures (SpellsByte(s, bytes[0]) && Spells(s[3..], bytes[1..]))
         || (s != [] && s[0] != 0x25 && bytes[0] == (if s[0] == 0x2B then 0x20 else s[0]) && Spells(s[1..], bytes[1..]))
  {
    hide IsDigit;
  }

  lemma UnescapeStep(s: Text, b: Byte)
    requires s != []
    ensures SpellsByte(s, b) ==> |s| > 2 && Unescape(s) == [b] + Unescape(s[3..])
    ensures s[0] != 0x25 ==> Unescape(s) == [if s[0] == 0x2B then 0x20 else s[0]] + Unescape(s[1..])
  {
    ByteIs(s);
    hide HexValue;
    hide IsHexDigit;
    hide IsDigit;
  }

  // ---------------------------------------------------------------------------------------------
  // What is sent

  /** Which bytes are sent as they are, and how the others are: with upper-case digits. */
  lemma SentAs(b: Byte)
    ensures EscapeByte(b) ==
            if b == ' ' as int then ['+' as int]
            else if '0' as int <= b <= '9' as int || 'A' as int <= b <= 'Z' as int || 'a' as int <= b <= 'z' as int
                    || b == '*' as int || b == '-' as int || b == '.' as int || b == '_' as int then [b]
            else ['%' as int, UPPER_DIGITS[b / 16], UPPER_DIGITS[b % 16]]
  {
    hide HexDigit;
    UpperDigit(b / 16);
    UpperDigit(b % 16);
  }

  lemma UpperDigit(n: int)
    requires 0 <= n < 16
    ensures HexDigit(n) == UPPER_DIGITS[n]
  {
  }

  /** Byte by byte. */
  lemma {:induction false} SentBytewise(s: Bytes, t: Bytes)
    ensures Escape(s + t) == Escape(s) + Escape(t) && forall b: Byte :: Escape([b]) == EscapeByte(b)
  {
    hide EscapeByte;
    forall b: Byte
      ensures Escape([b]) == EscapeByte(b)
    {
      assert [b][1..] == [];
      assert Escape([]) == [];
    }
    if s == [] {
      assert s + t == t;
    } else {
      SentBytewise(s[1..], t);
      assert (s + t)[1..] == s[1..] + t;
    }
  }

  // The six bits a byte of a sequence carries.
  function Carried(b: Byte): int {
    b - 0x80
  }

  predicate AreCarried(r: Bytes) {
    forall i :: 0 < i < |r| ==> 0x80 <= r[i] < 0xC0
  }

  lemma TwoBytes(c: Codepoint)
    requires 0x80 <= c < 0x800
    ensures var r := Utf8Codepoint(c);
            |r| == 2 && 0xC0 <= r[0] < 0xE0 && AreCarried(r) && c == 0x40 * (Carried(r[0]) - 0x40) + Carried(r[1])
  {
  }

  lemma ThreeBytes(c: Codepoint)
    requires 0x800 <= c < 0x10000 && !(0xD800 <= c < 0xE000)
    ensures var r := Utf8Codepoint(c);
            |r| == 3 && 0xE0 <= r[0] < 0xF0 && AreCarried(r) && c == 0x1000 * (Carried(r[0]) - 0x60) + 0x40 * Carried(r[1]) + Carried(r[2])
  {
  }

  lemma FourBytes(c: Codepoint)
    requires 0x10000 <= c
    ensures var r := Utf8Codepoint(c);
            && |r| == 4 && 0xF0 <= r[0] < 0xF8 && AreCarried(r)
            && c == 0x40000 * (Carried(r[0]) - 0x70) + 0x1000 * Carried(r[1]) + 0x40 * Carried(r[2]) + Carried(r[3])
  {
  }

  /** A code point is read back from its bytes in UTF-8 as section 3 of RFC 3629 says; surrogates have none. */
  lemma Utf8Reads(c: Codepoint)
    ensures var r := Utf8Codepoint(c);
            if c < 0x80 then r == [c]
            else if 0xD800 <= c < 0xE000 then r == [0x7F]
            else if c < 0x800 then |r| == 2 && 0xC0 <= r[0] < 0xE0 && AreCarried(r) && c == 0x40 * (Carried(r[0]) - 0x40) + Carried(r[1])
            else if c < 0x10000 then
              |r| == 3 && 0xE0 <= r[0] < 0xF0 && AreCarried(r) && c == 0x1000 * (Carried(r[0]) - 0x60) + 0x40 * Carried(r[1]) + Carried(r[2])
            else
              && |r| == 4 && 0xF0 <= r[0] < 0xF8 && AreCarried(r)
              && c == 0x40000 * (Carried(r[0]) - 0x70) + 0x1000 * Carried(r[1]) + 0x40 * Carried(r[2]) + Carried(r[3])
  {
    if 0x80 <= c < 0x800 {
      TwoBytes(c);
    } else if 0x800 <= c < 0x10000 && !(0xD800 <= c < 0xE000) {
      ThreeBytes(c);
    } else if 0x10000 <= c {
      FourBytes(c);
    } else {
      OtherBytes(c);
    }
    hide Utf8Codepoint;
    hide AreCarried;
    hide Carried;
  }

  lemma OtherBytes(c: Codepoint)
    requires c < 0x80 || 0xD800 <= c < 0xE000
    ensures Utf8Codepoint(c) == if c < 0x80 then [c] else [0x7F]
  {
  }

  /** The names and labels the form code looks for. */
  lemma NamesOfForm()
    ensures Spelled("_charset_") == CHARSET_NAME && Spelled("isindex") == ISINDEX_NAME
    ensures Spelled("hidden") == HIDDEN_TYPE && Spelled("text") == TEXT_TYPE
    ensures Spelled("utf-8") == UTF_8_LABEL && Spelled("us-ascii") == US_ASCII_LABEL
  {
    assert Spelled("_charset_") == CHARSET_NAME;
    assert Spelled("isindex") == ISINDEX_NAME;
    assert Spelled("hidden") == HIDDEN_TYPE;
    assert Spelled("text") == TEXT_TYPE;
    assert Spelled("utf-8") == UTF_8_LABEL;
    assert Spelled("us-ascii") == US_ASCII_LABEL;
  }

  function Spelled(s: string): Text {
    seq(|s|, i requires 0 <= i < |s| => if s[i] < 0x80 as char then s[i] as int else 0)
  }

  // ---------------------------------------------------------------------------------------------
  // Name and value

  /** The name of a field ends at its first equals sign; without one the field is a name with an empty value. */
  lemma NameEndsAtFirstEquals(name: Text, value: Text)
    requires 0x3D !in name
    ensures NameOf(name + [0x3D] + value) == Unescape(name) && ValueOf(name + [0x3D] + value) == Unescape(value)
    ensures NameOf(name) == Unescape(name) && ValueOf(name) == []
  {
    hide Unescape;
    hide Find;
    var s := name + [0x3D] + value;
    FindFirst(name, value, 0x3D);
    assert s[..|name|] == name && s[|name| + 1..] == value;
    NotFound(name, 0x3D);
    assert name[..|name|] == name;
  }

  lemma {:induction false} NotFound(s: Text, c: Codepoint)
    requires c !in s
    ensures Find(s, c) == |s|
  {
    if s != [] {
      NotFound(s[1..], c);
    }
  }
}
