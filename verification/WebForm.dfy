/**
 URL-encoded form data, as Web.Form.cpp encodes and decodes it.

 The escaping loop grows its byte buffer while an index walks over it; `EncodeValue` keeps that
 loop and is proved to produce the byte-by-byte escaping of the original bytes.  The decoder is a
 loop as well.  The lemmas then say what the pair is for: decoding undoes escaping for every byte
 string, and `UrlDecode` of `UrlEncode` gives back the form data set, whatever ASCII it holds.

 Character encodings other than UTF-8 and US-ASCII enter as a table of decoders.
 */
module WebForm {
  import opened Wrappers

  type Codepoint = c: int | 0 <= c <= 0x10FFFF
  type Byte = b: int | 0 <= b < 0x100

  type Text = seq<Codepoint>
  type Bytes = seq<Byte>

  // Decoders by label; a label missing from the table yields no decoder (Basic.Globals.cpp:42-52).
  type Decoders = Text -> Option<Bytes -> Text>

  const SPACE: Codepoint := 0x20
  const PERCENT: Codepoint := 0x25
  const AMPERSAND: Codepoint := 0x26
  const PLUS: Codepoint := 0x2B
  const EQUALS: Codepoint := 0x3D

  const CHARSET_NAME: Text := [0x5F, 0x63, 0x68, 0x61, 0x72, 0x73, 0x65, 0x74, 0x5F] // _charset_
  const ISINDEX_NAME: Text := [0x69, 0x73, 0x69, 0x6E, 0x64, 0x65, 0x78]             // isindex
  const HIDDEN_TYPE: Text := [0x68, 0x69, 0x64, 0x64, 0x65, 0x6E]                   // hidden
  const TEXT_TYPE: Text := [0x74, 0x65, 0x78, 0x74]                                 // text
  const UTF_8_LABEL: Text := [0x75, 0x74, 0x66, 0x2D, 0x38]                         // utf-8
  const US_ASCII_LABEL: Text := [0x75, 0x73, 0x2D, 0x61, 0x73, 0x63, 0x69, 0x69]    // us-ascii

  predicate IsAscii(s: Text) {
    forall i :: 0 <= i < |s| ==> s[i] < 0x80
  }

  // ---------------------------------------------------------------------------------------------
  // Encoders for the two character encodings the form code names itself

  /** One code point in UTF-8; a surrogate becomes the encoder's replacement byte 0x7F. */
  function Utf8Codepoint(c: Codepoint): (r: Bytes)
    ensures c < 0x80 ==> r == [c]
    ensures c >= 0x80 ==> |r| >= 1 && r != [c]
    ensures |r| >= 1
  {
    if c < 0x80 then [c]
    else if 0xD800 <= c <= 0xDFFF then [0x7F]
    else if c < 0x800 then [0xC0 + c / 0x40, 0x80 + c % 0x40]
    else if c < 0x10000 then [0xE0 + c / 0x1000, 0x80 + c / 0x40 % 0x40, 0x80 + c % 0x40]
    else [0xF0 + c / 0x40000, 0x80 + c / 0x1000 % 0x40, 0x80 + c / 0x40 % 0x40, 0x80 + c % 0x40]
  }

  function Utf8(s: Text): (r: Bytes)
    ensures |r| >= |s|
  {
    if s == [] then [] else Utf8Codepoint(s[0]) + Utf8(s[1..])
  }

  /** US-ASCII encoding: whatever has no ASCII byte becomes the encoder's replacement byte. */
  function AsciiEncode(s: Text, replacement: Byte): (r: Bytes)
    ensures |r| == |s|
    ensures forall i :: 0 <= i < |s| ==> r[i] == if s[i] < 0x80 then s[i] else replacement
  {
    seq<Byte>(|s|, i requires 0 <= i < |s| => if s[i] < 0x80 then s[i] else replacement)
  }

  function AsciiCodepoint(b: Byte): Codepoint {
    if b < 0x80 then b else 0xFFFD
  }

  /** US-ASCII decoding: a byte above 0x7F becomes U+FFFD. */
  function AsciiDecode(s: Bytes): (r: Text)
    ensures |r| == |s|
    ensures forall i :: 0 <= i < |s| ==> r[i] == AsciiCodepoint(s[i])
  {
    seq(|s|, i requires 0 <= i < |s| => AsciiCodepoint(s[i]))
  }

  lemma {:induction false} Utf8OfAscii(s: Text)
    requires IsAscii(s)
    ensures Utf8(s) == s
  {
    if s != [] {
      Utf8OfAscii(s[1..]);
      assert s == [s[0]] + s[1..];
    }
  }

  // ---------------------------------------------------------------------------------------------
  // Escaping

  predicate Unreserved(b: Byte) {
    b == 0x2A || b == 0x2D || b == 0x2E || 0x30 <= b <= 0x39 || 0x41 <= b <= 0x5A || b == 0x5F || 0x61 <= b <= 0x7A
  }

  function HexDigit(n: int): (b: Byte)
    requires 0 <= n < 16
    ensures Unreserved(b) && IsHexDigit(b) && HexValue(b) == n
  {
    if n < 10 then 0x30 + n else 0x41 + n - 10
  }

  predicate IsHexDigit(c: Codepoint) {
    0x30 <= c <= 0x39 || 0x41 <= c <= 0x46 || 0x61 <= c <= 0x66
  }

  function HexValue(c: Codepoint): (n: int)
    requires IsHexDigit(c)
    ensures 0 <= n < 16
  {
    if c <= 0x39 then c - 0x30 else if c <= 0x46 then c - 0x41 + 10 else c - 0x61 + 10
  }

  /** What one byte of the original value turns into. */
  function EscapeByte(b: Byte): Bytes {
    if b == SPACE then [PLUS]
    else if Unreserved(b) then [b]
    else [PERCENT, HexDigit(b / 16), HexDigit(b % 16)]
  }

  function Escape(s: Bytes): Bytes {
    if s == [] then [] else EscapeByte(s[0]) + Escape(s[1..])
  }

  lemma {:induction false} EscapeSnoc(s: Bytes, b: Byte)
    ensures Escape(s + [b]) == Escape(s) + EscapeByte(b)
  {
    if s == [] {
      assert s + [b] == [b];
      assert Escape([b]) == EscapeByte(b) + Escape([]);
    } else {
      EscapeSnoc(s[1..], b);
      assert (s + [b])[1..] == s[1..] + [b];
    }
  }

  /** No `&`, no `=` and nothing outside ASCII is left. */
  lemma {:induction false} EscapeIsClean(s: Bytes)
    ensures forall i :: 0 <= i < |Escape(s)| ==> Escape(s)[i] < 0x80 && Escape(s)[i] != AMPERSAND && Escape(s)[i] != EQUALS
  {
    if s != [] {
      EscapeIsClean(s[1..]);
    }
  }

  lemma NextByte(original: Bytes, done: nat)
    requires done < |original|
    ensures original[done..] == [original[done]] + original[done + 1..]
    ensures Escape(original[..done + 1]) == Escape(original[..done]) + EscapeByte(original[done])
  {
    assert original[..done + 1] == original[..done] + [original[done]];
    EscapeSnoc(original[..done], original[done]);
  }

  /**
   Where the in-place loop stands: `buffer` is the escaped form of the first `done` original bytes
   followed by the untouched rest, and `index` lags behind the escaped part by the `pending` hex
   digits that were inserted and have yet to be walked over.
   */
  ghost predicate Escaping(original: Bytes, buffer: Bytes, index: int, done: int, pending: int) {
    && 0 <= done <= |original|
    && 0 <= pending <= 2
    && buffer == Escape(original[..done]) + original[done..]
    && 0 <= index == |Escape(original[..done])| - pending
    && forall i :: index <= i < index + pending ==> Unreserved(buffer[i])
  }

  lemma EscapingByte(original: Bytes, buffer: Bytes, index: int, done: int)
    requires Escaping(original, buffer, index, done, 0) && index < |buffer|
    ensures done < |original| && buffer[index] == original[done]
    ensures var e := EscapeByte(buffer[index]);
            Escaping(original, buffer[..index] + e + buffer[index + 1..], index + 1, done + 1, |e| - 1)
  {
    NextByte(original, done);
    assert buffer[..index] == Escape(original[..done]) && buffer[index + 1..] == original[done + 1..];
  }

  /** The in-place loop: the buffer grows under its own index. */
  method EscapeInPlace(original: Bytes) returns (encoded: Bytes)
    ensures encoded == Escape(original)
  {
    encoded := original;
    var index := 0;
    ghost var done, pending := 0, 0;
    while index != |encoded|
      invariant Escaping(original, encoded, index, done, pending)
      decreases |original| - done, pending
    {
      var b := encoded[index];
      ghost var before := encoded;
      if pending == 0 {
        EscapingByte(original, encoded, index, done);
      }
      if b == SPACE {
        encoded := encoded[..index] + [PLUS] + encoded[index + 1..];
      } else if Unreserved(b) {
        assert encoded == encoded[..index] + [b] + encoded[index + 1..];
      } else {
        encoded := encoded[..index] + [PERCENT, HexDigit(b / 16), HexDigit(b % 16)] + encoded[index + 1..];
      }
      if pending == 0 {
        assert encoded == before[..index] + EscapeByte(b) + before[index + 1..];
        done, pending := done + 1, |EscapeByte(b)| - 1;
      } else {
        pending := pending - 1;
      }
      index := index + 1;
    }
    assert original[..done] == original;
  }

  /** encode_value for UTF-8, the only encoding `url_encode` ever selects. */
  method EncodeValue(value: Text) returns (result: Text)
    ensures result == Escape(Utf8(value))
    ensures IsAscii(result) && AMPERSAND !in result && EQUALS !in result
  {
    var encoded := EscapeInPlace(Utf8(value));
    EscapeIsClean(Utf8(value));
    result := AsciiDecode(encoded);
    assert result == encoded;
  }

  // ---------------------------------------------------------------------------------------------
  // Unescaping

  predicate HexEscapeAt(s: Text, i: nat) {
    i + 2 < |s| && s[i] == PERCENT && IsHexDigit(s[i + 1]) && IsHexDigit(s[i + 2])
  }

  function Unescape(s: Text): Text {
    if s == [] then []
    else if HexEscapeAt(s, 0) then [16 * HexValue(s[1]) + HexValue(s[2])] + Unescape(s[3..])
    else [if s[0] == PLUS then SPACE else s[0]] + Unescape(s[1..])
  }

  lemma UnescapeAt(s: Text, i: nat)
    requires i < |s|
    ensures HexEscapeAt(s, i) ==>
              Unescape(s[i..]) == [16 * HexValue(s[i + 1]) + HexValue(s[i + 2])] + Unescape(s[i + 3..])
    ensures !HexEscapeAt(s, i) ==>
              Unescape(s[i..]) == [if s[i] == PLUS then SPACE else s[i]] + Unescape(s[i + 1..])
  {
    assert HexEscapeAt(s[i..], 0) <==> HexEscapeAt(s, i);
    if HexEscapeAt(s, i) {
      assert s[i..][3..] == s[i + 3..];
    } else {
      assert s[i..][1..] == s[i + 1..];
    }
  }

  lemma UnescapeNothing(s: Text)
    ensures Unescape(s[|s|..]) == []
  {
  }

  lemma Append(front: Text, c: Codepoint, back: Text)
    ensures front + [c] + back == front + ([c] + back)
  {
  }

  method DecodeValue(value: Text) returns (result: Text)
    ensures result == Unescape(value)
  {
    hide Unescape;
    hide HexValue;
    result := [];
    var index := 0;
    assert value[0..] == value;
    UnescapeNothing(value);
    while index != |value|
      invariant 0 <= index <= |value|
      invariant result + Unescape(value[index..]) == Unescape(value)
      decreases |value| - index
    {
      var codepoint := value[index];
      UnescapeAt(value, index);
      if codepoint == PLUS {
        codepoint := SPACE;
      } else if HexEscapeAt(value, index) {
        codepoint := 16 * HexValue(value[index + 1]) + HexValue(value[index + 2]);
        index := index + 2;
      }
      index := index + 1;
      Append(result, codepoint, Unescape(value[index..]));
      result := result + [codepoint];
    }
  }

  /** Decoding undoes escaping, so no two byte strings escape alike. */
  lemma {:induction false} UnescapeEscape(s: Bytes)
    ensures Unescape(Escape(s)) == s
  {
    if s != [] {
      UnescapeEscape(s[1..]);
      var e := Escape(s);
      if s[0] != SPACE && !Unreserved(s[0]) {
        assert HexEscapeAt(e, 0) && e[3..] == Escape(s[1..]);
      } else {
        assert e[1..] == Escape(s[1..]);
      }
      assert s == [s[0]] + s[1..];
    }
  }

  lemma EscapeInjective(s: Bytes, t: Bytes)
    requires Escape(s) == Escape(t)
    ensures s == t
  {
    UnescapeEscape(s);
    UnescapeEscape(t);
  }

  // ---------------------------------------------------------------------------------------------
  // Splitting

  function Split(s: Text, delimiter: Codepoint): (tokens: seq<Text>)
  {
    SplitFrom([], s, delimiter)
  }

  function SplitFrom(token: Text, s: Text, delimiter: Codepoint): seq<Text>
    decreases |s|
  {
    if s == [] then (if token == [] then [] else [token])
    else if s[0] == delimiter then [token] + SplitFrom([], s[1..], delimiter)
    else SplitFrom(token + [s[0]], s[1..], delimiter)
  }

  method StrictlySplitAString(input: Text, delimiter: Codepoint) returns (tokens: seq<Text>)
    ensures tokens == Split(input, delimiter)
  {
    tokens := [];
    var token: Text := [];
    var position := 0;
    assert input[0..] == input;
    while position != |input|
      invariant 0 <= position <= |input|
      invariant tokens + SplitFrom(token, input[position..], delimiter) == Split(input, delimiter)
      decreases |input| - position
    {
      var codepoint := input[position];
      ghost var before, codepoints, rest := tokens, token, input[position..];
      assert rest[0] == codepoint && rest[1..] == input[position + 1..];
      if codepoint == delimiter {
        tokens := tokens + [token];
        token := [];
        assert before + ([codepoints] + SplitFrom([], rest[1..], delimiter)) == tokens + SplitFrom([], rest[1..], delimiter);
      } else {
        token := token + [codepoint];
      }
      position := position + 1;
    }
    if |token| > 0 {
      tokens := tokens + [token];
    }
  }

  function Join(tokens: seq<Text>, delimiter: Codepoint): Text {
    if tokens == [] then []
    else if |tokens| == 1 then tokens[0]
    else tokens[0] + [delimiter] + Join(tokens[1..], delimiter)
  }

  /** Joining splits back, unless the last token is empty: an empty last token is dropped. */
  lemma {:induction false} SplitFromJoin(token: Text, tokens: seq<Text>, delimiter: Codepoint)
    requires tokens != [] && forall i :: 0 <= i < |tokens| ==> delimiter !in tokens[i]
    requires if |tokens| == 1 then token + tokens[0] != [] else tokens[|tokens| - 1] != []
    ensures SplitFrom(token, Join(tokens, delimiter), delimiter) == [token + tokens[0]] + tokens[1..]
    decreases |tokens|, |tokens[0]|
  {
    var s, head := Join(tokens, delimiter), tokens[0];
    if head != [] {
      var shorter := [head[1..]] + tokens[1..];
      assert head[0] != delimiter;
      assert s[1..] == Join(shorter, delimiter);
      assert token + [head[0]] + head[1..] == token + head;
      SplitFromJoin(token + [head[0]], shorter, delimiter);
      assert shorter[1..] == tokens[1..];
    } else if |tokens| > 1 {
      assert s[0] == delimiter && s[1..] == Join(tokens[1..], delimiter);
      assert [] + tokens[1] == tokens[1];
      SplitFromJoin([], tokens[1..], delimiter);
      assert [[] + tokens[1]] + tokens[1..][1..] == tokens[1..];
      assert token + head == token;
    } else {
      assert token + head == token;
    }
  }

  lemma SplitJoin(tokens: seq<Text>, delimiter: Codepoint)
    requires tokens != [] && tokens[|tokens| - 1] != []
    requires forall i :: 0 <= i < |tokens| ==> delimiter !in tokens[i]
    ensures Split(Join(tokens, delimiter), delimiter) == tokens
  {
    assert [] + tokens[0] == tokens[0];
    SplitFromJoin([], tokens, delimiter);
  }

  function TrailingDelimiter(s: Text, delimiter: Codepoint): Text {
    if s != [] && s[|s| - 1] == delimiter then [delimiter] else []
  }

  lemma {:induction false} SplitTokensAreClean(token: Text, s: Text, delimiter: Codepoint)
    requires delimiter !in token
    ensures forall i :: 0 <= i < |SplitFrom(token, s, delimiter)| ==> delimiter !in SplitFrom(token, s, delimiter)[i]
    ensures SplitFrom(token, s, delimiter) == [] ==> token == [] && s == []
    decreases |s|
  {
    if s != [] {
      SplitTokensAreClean(if s[0] == delimiter then [] else token + [s[0]], s[1..], delimiter);
    }
  }

  /** Splitting joins back, for every input: only one trailing delimiter is lost. */
  lemma {:induction false} JoinSplit(token: Text, s: Text, delimiter: Codepoint)
    requires delimiter !in token
    ensures token + s == Join(SplitFrom(token, s, delimiter), delimiter) + TrailingDelimiter(s, delimiter)
    decreases |s|
  {
    if s == [] {
      assert token + s == token;
    } else {
      var rest := s[1..];
      assert s == [s[0]] + rest;
      if s[0] != delimiter {
        JoinSplit(token + [s[0]], rest, delimiter);
        assert token + s == token + [s[0]] + rest;
      } else {
        var tokens, trailing := SplitFrom([], rest, delimiter), TrailingDelimiter(rest, delimiter);
        JoinSplit([], rest, delimiter);
        JoinCons(token, tokens, delimiter);
        SplitTokensAreClean([], rest, delimiter);
        assert [] + rest == rest;
        if rest != [] {
          assert tokens != [];
          assert token + s == token + [delimiter] + (Join(tokens, delimiter) + trailing);
          assert token + s == (token + [delimiter] + Join(tokens, delimiter)) + trailing;
        }
      }
    }
  }

  lemma JoinCons(token: Text, tokens: seq<Text>, delimiter: Codepoint)
    ensures Join([token] + tokens, delimiter)
         == if tokens == [] then token else token + [delimiter] + Join(tokens, delimiter)
  {
    assert ([token] + tokens)[1..] == tokens;
  }

  // ---------------------------------------------------------------------------------------------
  // Encoding a form data set

  // A field without a value attribute has no value; a field without a type attribute has no type.
  datatype Entry = Entry(name: Text, value: Option<Text>, kind: Option<Text>)

  datatype Fault = NoValue | NoDecoder

  predicate IsHiddenCharset(e: Entry) {
    e.name == CHARSET_NAME && e.kind == Some(HIDDEN_TYPE)
  }

  /** The value that is sent for an entry, before any encoding. */
  function ValueSent(e: Entry): Option<Text> {
    if IsHiddenCharset(e) then Some(UTF_8_LABEL) else e.value
  }

  /** What `url_encode` overwrites an entry with. */
  function Encoded(e: Entry): Entry {
    Entry(Escape(Utf8(e.name)),
          match ValueSent(e) case None => None case Some(v) => Some(Escape(Utf8(v))),
          e.kind)
  }

  predicate IsIsindex(encoded: Entry) {
    encoded.name == ISINDEX_NAME && encoded.kind == Some(TEXT_TYPE)
  }

  predicate IsLeadingIsindex(e: Entry) {
    IsIsindex(Encoded(e))
  }

  /** An encoded entry as `name=value`, an absent value as nothing. */
  function NameEqualsValue(encoded: Entry): Text {
    encoded.name + [EQUALS] + (if encoded.value.Some? then encoded.value.value else [])
  }

  function Pair(e: Entry): Text {
    NameEqualsValue(Encoded(e))
  }

  /** Steps 7 to 11 for one encoded entry. */
  function Extend(front: Text, encoded: Entry, first: bool): Result<Text, Fault> {
    if first && IsIsindex(encoded) then
      if encoded.value.Some? then Ok(front + encoded.value.value) else Err(NoValue)
    else
      Ok(front + (if first then [] else [AMPERSAND]) + NameEqualsValue(encoded))
  }

  function Wire(entries: seq<Entry>): Result<Text, Fault> {
    if entries == [] then Ok([])
    else
      var front :- Wire(entries[..|entries| - 1]);
      Extend(front, Encoded(entries[|entries| - 1]), |entries| == 1)
  }

  /** Every byte of the result is ASCII, so the closing ASCII encoding is the identity. */
  lemma {:induction false} WireIsAscii(entries: seq<Entry>)
    ensures Wire(entries).Ok? ==> IsAscii(Wire(entries).value)
  {
    if entries != [] {
      WireIsAscii(entries[..|entries| - 1]);
      EncodedIsClean(entries[|entries| - 1]);
    }
  }

  predicate Clean(s: Text) {
    IsAscii(s) && AMPERSAND !in s && EQUALS !in s
  }

  lemma EncodedIsClean(e: Entry)
    ensures Clean(Encoded(e).name) && (Encoded(e).value.Some? ==> Clean(Encoded(e).value.value)) && IsAscii(Pair(e))
  {
    EscapeIsClean(Utf8(e.name));
    if ValueSent(e).Some? {
      EscapeIsClean(Utf8(ValueSent(e).value));
    }
  }

  lemma {:induction false} WireFails(entries: seq<Entry>, n: nat)
    requires n <= |entries| && Wire(entries[..n]).Err?
    ensures Wire(entries) == Wire(entries[..n])
    decreases |entries|
  {
    if n < |entries| {
      assert entries[..|entries| - 1][..n] == entries[..n];
      WireFails(entries[..|entries| - 1], n);
    } else {
      assert entries[..n] == entries;
    }
  }

  // A leading text field named isindex sends its value alone, so it has to have one.
  predicate LacksIsindexValue(entries: seq<Entry>) {
    entries != [] && entries[0].name == ISINDEX_NAME && entries[0].kind == Some(TEXT_TYPE) && entries[0].value.None?
  }

  /** An encoding fails exactly on a data set whose first entry is an isindex field without a value. */
  lemma {:induction false} WireFailsIff(entries: seq<Entry>)
    ensures Wire(entries).Err? <==> LacksIsindexValue(entries)
  {
    hide Encoded;
    hide LacksIsindexValue;
    if |entries| == 1 {
      assert entries[..0] == [];
      LeadingIsindexIff(entries[0]);
      LacksIff(entries);
    } else if entries != [] {
      WireFailsIff(entries[..|entries| - 1]);
      LacksIff(entries);
      LacksIff(entries[..|entries| - 1]);
    } else {
      LacksIff(entries);
    }
  }

  lemma LacksIff(entries: seq<Entry>)
    ensures LacksIsindexValue(entries) <==> entries != [] && IsLeadingIsindex(entries[0]) && Encoded(entries[0]).value.None?
  {
    if entries != [] {
      LeadingIsindexIff(entries[0]);
    }
  }

  /** Escaping does not confuse another name with isindex. */
  lemma LeadingIsindexIff(e: Entry)
    ensures IsLeadingIsindex(e) <==> e.name == ISINDEX_NAME && e.kind == Some(TEXT_TYPE)
  {
    hide Utf8;
    hide Escape;
    hide IsAscii;
    IsindexStays();
    Utf8OfAscii(ISINDEX_NAME);
    if Escape(Utf8(e.name)) == ISINDEX_NAME {
      EscapeInjective(Utf8(e.name), ISINDEX_NAME);
      Utf8Exact(e.name, ISINDEX_NAME);
    }
  }

  lemma IsindexStays()
    ensures Escape(ISINDEX_NAME) == ISINDEX_NAME && IsAscii(ISINDEX_NAME) && 0x7F !in ISINDEX_NAME
  {
    UnreservedStays(ISINDEX_NAME);
  }

  lemma {:induction false} UnreservedStays(s: Bytes)
    requires forall i :: 0 <= i < |s| ==> Unreserved(s[i])
    ensures Escape(s) == s
  {
    if s != [] {
      UnreservedStays(s[1..]);
      assert s == [s[0]] + s[1..];
    }
  }

  /** Only a text itself has a given ASCII text, free of the byte that stands for surrogates, as its UTF-8. */
  lemma {:induction false} Utf8Exact(s: Text, t: Text)
    requires IsAscii(t) && 0x7F !in t && Utf8(s) == t
    ensures s == t
  {
    if s != [] {
      assert Utf8(s)[0] == Utf8Codepoint(s[0])[0];
      assert t[0] != 0x7F;
      assert Utf8(s)[1..] == Utf8(s[1..]);
      assert forall i :: 0 <= i < |t[1..]| ==> t[1..][i] == t[i + 1];
      Utf8Exact(s[1..], t[1..]);
    }
  }

  /** Steps 1 to 6 for one entry. */
  method EncodeEntry(entry: Entry) returns (encoded: Entry)
    ensures encoded == Encoded(entry)
  {
    encoded := entry;
    if encoded.name == CHARSET_NAME && encoded.kind == Some(HIDDEN_TYPE) {
      encoded := encoded.(value := Some(UTF_8_LABEL));
    }
    var name := EncodeValue(encoded.name);
    encoded := encoded.(name := name);
    if encoded.value.Some? {
      var value := EncodeValue(encoded.value.value);
      encoded := encoded.(value := Some(value));
    }
  }

  method AppendEntry(unicodeResult: Text, entry: Entry, first: bool) returns (extended: Result<Text, Fault>)
    ensures extended == Extend(unicodeResult, entry, first)
  {
    if entry.name == ISINDEX_NAME && entry.kind == Some(TEXT_TYPE) && first {
      if entry.value.None? {
        return Err(NoValue);
      }
      return Ok(unicodeResult + entry.value.value);
    }
    var text := unicodeResult;
    if !first {
      text := text + [AMPERSAND];
    }
    text := text + entry.name;
    text := text + [EQUALS];
    if entry.value.Some? {
      text := text + entry.value.value;
    }
    assert text == unicodeResult + (if first then [] else [AMPERSAND]) + NameEqualsValue(entry);
    return Ok(text);
  }

  method UrlEncode(formDataSet: array<Entry>, replacement: Byte) returns (result: Result<Bytes, Fault>)
    modifies formDataSet
    ensures result == Wire(old(formDataSet[..]))
    ensures result.Err? <==> LacksIsindexValue(old(formDataSet[..]))
    ensures result.Ok? ==> forall i :: 0 <= i < formDataSet.Length ==> formDataSet[i] == Encoded(old(formDataSet[i]))
  {
    hide Encoded;
    hide IsAscii;
    hide AsciiEncode;
    hide LacksIsindexValue;
    ghost var entries := formDataSet[..];
    WireFailsIff(entries);
    var unicodeResult: Text := [];
    for entryIndex := 0 to formDataSet.Length
      invariant Wire(entries[..entryIndex]) == Ok(unicodeResult)
      invariant forall i :: 0 <= i < entryIndex ==> formDataSet[i] == Encoded(entries[i])
      invariant forall i :: entryIndex <= i < formDataSet.Length ==> formDataSet[i] == entries[i]
    {
      assert entries[..entryIndex + 1][..entryIndex] == entries[..entryIndex];
      var entry := EncodeEntry(formDataSet[entryIndex]);
      formDataSet[entryIndex] := entry;

      var extended := AppendEntry(unicodeResult, entry, entryIndex == 0);
      if extended.Err? {
        WireFails(entries, entryIndex + 1);
        return Err(extended.error);
      }
      unicodeResult := extended.value;
    }
    assert entries[..formDataSet.Length] == entries;
    WireIsAscii(entries);
    var bytesResult := AsciiEncode(unicodeResult, replacement);
    AsciiStays(unicodeResult, replacement);
    result := Ok(bytesResult);
  }

  // ---------------------------------------------------------------------------------------------
  // Decoding a payload

  function Find(s: Text, c: Codepoint): (i: nat)
    ensures i <= |s| && (i < |s| ==> s[i] == c) && c !in s[..i]
  {
    if s == [] || s[0] == c then 0 else Find(s[1..], c) + 1
  }

  function NameOf(s: Text): Text {
    Unescape(s[..Find(s, EQUALS)])
  }

  function ValueOf(s: Text): Text {
    var i := Find(s, EQUALS);
    if i == |s| then [] else Unescape(s[i + 1..])
  }

  function LabelOrDefault(encoding: Option<Text>): Text {
    if encoding.None? || encoding.value == [] then US_ASCII_LABEL else encoding.value
  }

  datatype DecodeState = DecodeState(encoding: Option<Text>, pairs: map<Text, Text>)

  function Insert(pairs: map<Text, Text>, name: Text, value: Text): map<Text, Text> {
    if name in pairs then pairs else pairs[name := value]
  }

  predicate NamesCharset(s: Text) {
    NameOf(s) == CHARSET_NAME && ValueOf(s) != []
  }

  /**
   One `name=value` string.  A `_charset_` field selects the decoder for itself; its label is the same
   string object as its value, so the strings after it look up the value as it is decoded.
   */
  function DecodeString(s: Text, state: DecodeState, decoders: Decoders, replacement: Byte): Result<DecodeState, Fault> {
    var name, value := NameOf(s), ValueOf(s);
    var chosen := LabelOrDefault(if name == CHARSET_NAME then Some(value) else state.encoding);
    match decoders(chosen)
    case None => Err(NoDecoder)
    case Some(decode) =>
      var decodedValue := decode(AsciiEncode(value, replacement));
      Ok(DecodeState(Some(if NamesCharset(s) then decodedValue else chosen),
                     Insert(state.pairs, decode(AsciiEncode(name, replacement)), decodedValue)))
  }

  function DecodeStrings(strings: seq<Text>, state: DecodeState, decoders: Decoders, replacement: Byte): Result<DecodeState, Fault> {
    if strings == [] then Ok(state)
    else
      var next :- DecodeString(strings[0], state, decoders, replacement);
      DecodeStrings(strings[1..], next, decoders, replacement)
  }

  /** `isindex`: a first string without an equals sign is the value of the nameless field. */
  function MarkIsindex(strings: seq<Text>, isindex: bool): seq<Text> {
    if strings != [] && isindex && EQUALS !in strings[0] then [[EQUALS] + strings[0]] + strings[1..] else strings
  }

  function Decoded(payload: Text, encoding: Option<Text>, isindex: bool, decoders: Decoders, replacement: Byte)
    : Result<map<Text, Text>, Fault>
  {
    var state :- DecodeStrings(MarkIsindex(Split(payload, AMPERSAND), isindex), DecodeState(encoding, map[]), decoders, replacement);
    Ok(state.pairs)
  }

  // The label that is looked up for a string which does not name one: the latest one named before, as it
  // was decoded, or the one the decoding started with.
  function LabelBefore(strings: seq<Text>, encoding: Option<Text>, decoders: Decoders, replacement: Byte, i: nat): Text
    requires i <= |strings|
  {
    if i == 0 then LabelOrDefault(encoding)
    else
      var s := strings[i - 1];
      if NameOf(s) != CHARSET_NAME then LabelBefore(strings, encoding, decoders, replacement, i - 1)
      else if ValueOf(s) == [] then US_ASCII_LABEL
      else
        match decoders(ValueOf(s))
        case None => ValueOf(s)
        case Some(decode) => LabelOrDefault(Some(decode(AsciiEncode(ValueOf(s), replacement))))
  }

  function LabelAt(strings: seq<Text>, encoding: Option<Text>, decoders: Decoders, replacement: Byte, i: nat): Text
    requires i < |strings|
  {
    if NameOf(strings[i]) == CHARSET_NAME then LabelOrDefault(Some(ValueOf(strings[i])))
    else LabelBefore(strings, encoding, decoders, replacement, i)
  }

  lemma {:induction false} DecodeStringsSnoc(strings: seq<Text>, s: Text, state: DecodeState, decoders: Decoders, replacement: Byte)
    ensures var before := DecodeStrings(strings, state, decoders, replacement);
            DecodeStrings(strings + [s], state, decoders, replacement)
              == if before.Err? then before else DecodeString(s, before.value, decoders, replacement)
  {
    hide DecodeString;
    if strings == [] {
      assert [] + [s] == [s] && [s][1..] == [];
    } else {
      assert (strings + [s])[0] == strings[0] && (strings + [s])[1..] == strings[1..] + [s];
      var next := DecodeString(strings[0], state, decoders, replacement);
      if next.Ok? {
        DecodeStringsSnoc(strings[1..], s, next.value, decoders, replacement);
      }
    }
  }

  lemma DecodeStringFailsIff(strings: seq<Text>, encoding: Option<Text>, state: DecodeState, decoders: Decoders, replacement: Byte, i: nat)
    requires i < |strings| && LabelOrDefault(state.encoding) == LabelBefore(strings, encoding, decoders, replacement, i)
    ensures var next := DecodeString(strings[i], state, decoders, replacement);
            && (next.Err? <==> decoders(LabelAt(strings, encoding, decoders, replacement, i)).None?)
            && (next.Ok? ==> LabelOrDefault(next.value.encoding) == LabelBefore(strings, encoding, decoders, replacement, i + 1))
  {
    hide NameOf;
    hide ValueOf;
    hide Insert;
    hide AsciiEncode;
  }

  lemma {:induction false} PrefixFailsIff(strings: seq<Text>, encoding: Option<Text>, decoders: Decoders, replacement: Byte, n: nat)
    requires n <= |strings|
    ensures var result := DecodeStrings(strings[..n], DecodeState(encoding, map[]), decoders, replacement);
            && (result.Err? <==> exists i :: 0 <= i < n && decoders(LabelAt(strings, encoding, decoders, replacement, i)).None?)
            && (result.Ok? ==> LabelOrDefault(result.value.encoding) == LabelBefore(strings, encoding, decoders, replacement, n))
  {
    hide DecodeString;
    hide LabelAt;
    hide NameOf;
    hide ValueOf;
    hide LabelOrDefault;
    if n > 0 {
      PrefixFailsIff(strings, encoding, decoders, replacement, n - 1);
      var before := DecodeStrings(strings[..n - 1], DecodeState(encoding, map[]), decoders, replacement);
      DecodeStringsSnoc(strings[..n - 1], strings[n - 1], DecodeState(encoding, map[]), decoders, replacement);
      assert strings[..n - 1] + [strings[n - 1]] == strings[..n];
      if before.Ok? {
        DecodeStringFailsIff(strings, encoding, before.value, decoders, replacement, n - 1);
      }
    }
  }

  /** A decoding fails exactly if the label in force at some string has no decoder. */
  lemma DecodingFailsIff(payload: Text, encoding: Option<Text>, isindex: bool, decoders: Decoders, replacement: Byte)
    ensures var strings := MarkIsindex(Split(payload, AMPERSAND), isindex);
            var failed := Decoded(payload, encoding, isindex, decoders, replacement).Err?;
            failed <==> exists i :: 0 <= i < |strings| && decoders(LabelAt(strings, encoding, decoders, replacement, i)).None?
  {
    hide DecodeStrings;
    hide LabelAt;
    var strings := MarkIsindex(Split(payload, AMPERSAND), isindex);
    PrefixFailsIff(strings, encoding, decoders, replacement, |strings|);
    assert strings[..|strings|] == strings;
  }

  /** One field that names a label without a decoder: `_charset_=foo`. */
  lemma UnknownCharset(encoding: Option<Text>, isindex: bool, decoders: Decoders, replacement: Byte)
    requires decoders([0x66, 0x6F, 0x6F]).None?
    ensures Decoded(CHARSET_NAME + [EQUALS, 0x66, 0x6F, 0x6F], encoding, isindex, decoders, replacement) == Err(NoDecoder)
  {
    var foo: Text := [0x66, 0x6F, 0x6F];
    var field := CHARSET_NAME + [EQUALS] + foo;
    assert field == CHARSET_NAME + [EQUALS, 0x66, 0x6F, 0x6F];
    CharsetIsPlain();
    PlainField(CHARSET_NAME, foo);
    SplitJoin([field], AMPERSAND);
    assert MarkIsindex([field], isindex) == [field];
    assert DecodeString(field, DecodeState(encoding, map[]), decoders, replacement) == Err(NoDecoder);
  }

  lemma PlainField(name: Text, value: Text)
    requires (forall i :: 0 <= i < |name| ==> name[i] < 0x80 && Unreserved(name[i]))
    requires (forall i :: 0 <= i < |value| ==> value[i] < 0x80 && Unreserved(value[i]))
    ensures var field := name + [EQUALS] + value;
            EQUALS in field && AMPERSAND !in field && NameOf(field) == name && ValueOf(field) == value
  {
    hide NameOf;
    hide ValueOf;
    hide Unescape;
    hide Escape;
    UnreservedStays(name);
    UnreservedStays(value);
    UnescapeEscape(name);
    UnescapeEscape(value);
    CutAtEquals(name, value);
    assert (name + [EQUALS] + value)[|name|] == EQUALS;
  }

  lemma CharsetIsPlain()
    ensures forall i :: 0 <= i < |CHARSET_NAME| ==> CHARSET_NAME[i] < 0x80 && Unreserved(CHARSET_NAME[i])
  {
  }

  method DecodeField(field: Text, state: DecodeState, decoders: Decoders, replacement: Byte)
    returns (result: Result<DecodeState, Fault>)
    ensures result == DecodeString(field, state, decoders, replacement)
  {
    var name, value: Text := [], [];
    var equalsIndex := Find(field, EQUALS);
    if equalsIndex != |field| {
      name := DecodeValue(field[..equalsIndex]);
      value := DecodeValue(field[equalsIndex + 1..]);
    } else {
      assert field[..equalsIndex] == field;
      name := DecodeValue(field);
    }
    var encoding := state.encoding;
    if name == CHARSET_NAME {
      encoding := Some(value);
    }
    var nameBytes := AsciiEncode(name, replacement);
    var valueBytes := AsciiEncode(value, replacement);
    if encoding.None? || encoding.value == [] {
      encoding := Some(US_ASCII_LABEL);
    }
    var decoder := decoders(encoding.value);
    if decoder.None? {
      return Err(NoDecoder);
    }
    var decodedName, decodedValue := decoder.value(nameBytes), decoder.value(valueBytes);
    if name == CHARSET_NAME && value != [] {
      // The label and the value are one string, which was just overwritten.
      encoding := Some(decodedValue);
    }
    result := Ok(DecodeState(encoding, Insert(state.pairs, decodedName, decodedValue)));
  }

  method UrlDecode(payload: Text, encoding: Option<Text>, isindex: bool, decoders: Decoders, replacement: Byte)
    returns (result: Result<map<Text, Text>, Fault>)
    ensures result == Decoded(payload, encoding, isindex, decoders, replacement)
    ensures var strings := MarkIsindex(Split(payload, AMPERSAND), isindex);
            result.Err? <==> exists i :: 0 <= i < |strings| && decoders(LabelAt(strings, encoding, decoders, replacement, i)).None?
  {
    hide LabelAt;
    DecodingFailsIff(payload, encoding, isindex, decoders, replacement);
    var pairs: map<Text, Text> := map[];
    var strings := StrictlySplitAString(payload, AMPERSAND);
    if |strings| > 0 {
      var equalsIndex := Find(strings[0], EQUALS);
      if isindex && equalsIndex == |strings[0]| {
        assert strings[0][..equalsIndex] == strings[0];
        strings := strings[0 := [EQUALS] + strings[0]];
      }
      ghost var all := strings;
      assert all == MarkIsindex(Split(payload, AMPERSAND), isindex);
      var current := encoding;
      assert all[0..] == all;
      for stringIndex := 0 to |strings|
        invariant DecodeStrings(all[stringIndex..], DecodeState(current, pairs), decoders, replacement)
               == DecodeStrings(all, DecodeState(encoding, map[]), decoders, replacement)
      {
        assert all[stringIndex..][1..] == all[stringIndex + 1..];
        var next := DecodeField(strings[stringIndex], DecodeState(current, pairs), decoders, replacement);
        if next.Err? {
          return Err(next.error);
        }
        current, pairs := next.value.encoding, next.value.pairs;
      }
    }
    result := Ok(pairs);
  }

  // ---------------------------------------------------------------------------------------------
  // The round trip

  predicate AsciiEntry(e: Entry) {
    IsAscii(e.name) && (e.value.Some? ==> IsAscii(e.value.value))
  }

  /** The entries that can make the trip: ASCII, and `_charset_` only as the hidden field it is meant to be. */
  predicate Sendable(e: Entry) {
    AsciiEntry(e) && (e.name == CHARSET_NAME ==> IsHiddenCharset(e))
  }

  predicate AllSendable(entries: seq<Entry>) {
    forall i :: 0 <= i < |entries| ==> Sendable(entries[i])
  }

  ghost predicate AsciiCompatible(decoders: Decoders, name: Text) {
    decoders(name).Some? && forall b: Bytes :: IsAscii(b) ==> decoders(name).value(b) == b
  }

  /** What the receiver should see of an entry: an absent value arrives empty. */
  function Arriving(e: Entry): (Text, Text) {
    (e.name, if ValueSent(e).Some? then ValueSent(e).value else [])
  }

  /** The fields of a data set as a map; of equal names the first wins. */
  function Fields(entries: seq<Entry>, pairs: map<Text, Text>): map<Text, Text> {
    if entries == [] then pairs
    else Fields(entries[1..], Insert(pairs, Arriving(entries[0]).0, Arriving(entries[0]).1))
  }

  lemma {:induction false} WireIsJoin(entries: seq<Entry>)
    requires entries != [] && !IsLeadingIsindex(entries[0])
    ensures Wire(entries) == Ok(Join(Pairs(entries), AMPERSAND))
  {
    var n := |entries| - 1;
    var front, last := entries[..n], entries[n];
    if n == 0 {
      assert Wire(front) == Ok([]) && [] + [] + Pair(last) == Pair(last);
    } else {
      assert front[0] == entries[0];
      WireIsJoin(front);
      assert Pairs(entries) == Pairs(front) + [Pair(last)];
      JoinSnoc(Pairs(front), Pair(last), AMPERSAND);
    }
  }

  function Pairs(entries: seq<Entry>): (r: seq<Text>)
    ensures |r| == |entries| && forall i :: 0 <= i < |r| ==> r[i] == Pair(entries[i])
  {
    seq(|entries|, i requires 0 <= i < |entries| => Pair(entries[i]))
  }

  lemma {:induction false} JoinSnoc(tokens: seq<Text>, token: Text, delimiter: Codepoint)
    requires tokens != []
    ensures Join(tokens + [token], delimiter) == Join(tokens, delimiter) + [delimiter] + token
  {
    assert (tokens + [token])[1..] == tokens[1..] + [token];
    if |tokens| > 1 {
      JoinSnoc(tokens[1..], token, delimiter);
      var rest := Join(tokens[1..], delimiter);
      assert tokens[0] + [delimiter] + (rest + [delimiter] + token) == tokens[0] + [delimiter] + rest + [delimiter] + token;
    } else {
      assert tokens[1..] + [token] == [token];
    }
  }

  lemma PairIsClean(e: Entry)
    ensures AMPERSAND !in Pair(e) && EQUALS in Pair(e)
  {
    EncodedIsClean(e);
    assert Pair(e)[|Encoded(e).name|] == EQUALS;
  }

  lemma {:induction false} FindFirst(before: Text, after: Text, c: Codepoint)
    requires c !in before
    ensures Find(before + [c] + after, c) == |before|
  {
    if before != [] {
      FindFirst(before[1..], after, c);
      assert (before + [c] + after)[1..] == before[1..] + [c] + after;
    }
  }

  lemma CutAtEquals(name: Text, value: Text)
    requires EQUALS !in name
    ensures NameOf(name + [EQUALS] + value) == Unescape(name) && ValueOf(name + [EQUALS] + value) == Unescape(value)
  {
    var s := name + [EQUALS] + value;
    FindFirst(name, value, EQUALS);
    assert s[..|name|] == name && s[|name| + 1..] == value;
  }

  lemma NothingEscaped()
    ensures Escape([]) == []
  {
  }

  lemma PairArrives(e: Entry)
    requires AsciiEntry(e)
    ensures NameOf(Pair(e)) == Arriving(e).0 && ValueOf(Pair(e)) == Arriving(e).1
    ensures IsAscii(Arriving(e).0) && IsAscii(Arriving(e).1)
  {
    hide Unescape;
    hide Escape;
    hide Utf8;
    hide NameOf;
    hide ValueOf;
    NothingEscaped();
    var (name, value) := Arriving(e);
    Utf8OfAscii(name);
    Utf8OfAscii(value);
    UnescapeEscape(name);
    UnescapeEscape(value);
    EscapeIsClean(name);
    CutAtEquals(Escape(name), Escape(value));
  }

  lemma {:induction false} StringsArrive(entries: seq<Entry>, state: DecodeState, decoders: Decoders, replacement: Byte)
    requires AllSendable(entries)
    requires AsciiCompatible(decoders, UTF_8_LABEL) && AsciiCompatible(decoders, LabelOrDefault(state.encoding))
    ensures DecodeStrings(Pairs(entries), state, decoders, replacement).Ok?
    ensures DecodeStrings(Pairs(entries), state, decoders, replacement).value.pairs == Fields(entries, state.pairs)
  {
    hide DecodeString;
    hide Pair;
    hide Arriving;
    hide AsciiCompatible;
    hide Sendable;
    if entries != [] {
      var e := entries[0];
      StringArrives(e, state, decoders, replacement);
      var next := DecodeString(Pair(e), state, decoders, replacement).value;
      StringsArrive(entries[1..], next, decoders, replacement);
      PairsCons(entries);
    }
  }

  lemma PairsCons(entries: seq<Entry>)
    requires entries != []
    ensures Pairs(entries) == [Pair(entries[0])] + Pairs(entries[1..])
  {
  }

  lemma StringArrives(e: Entry, state: DecodeState, decoders: Decoders, replacement: Byte)
    requires Sendable(e)
    requires AsciiCompatible(decoders, UTF_8_LABEL) && AsciiCompatible(decoders, LabelOrDefault(state.encoding))
    ensures DecodeString(Pair(e), state, decoders, replacement).Ok?
    ensures var next := DecodeString(Pair(e), state, decoders, replacement).value;
            next.pairs == Insert(state.pairs, Arriving(e).0, Arriving(e).1) && AsciiCompatible(decoders, LabelOrDefault(next.encoding))
  {
    hide Pair;
    hide NameOf;
    hide ValueOf;
    hide Arriving;
    hide Insert;
    PairArrives(e);
    CharsetArrives(e);
    AsciiStays(Arriving(e).0, replacement);
    AsciiStays(Arriving(e).1, replacement);
    assert LabelOrDefault(Some(UTF_8_LABEL)) == UTF_8_LABEL;
  }

  lemma CharsetArrives(e: Entry)
    requires Sendable(e)
    ensures Arriving(e).0 == CHARSET_NAME ==> Arriving(e).1 == UTF_8_LABEL
  {
  }

  lemma AsciiStays(s: Text, replacement: Byte)
    requires IsAscii(s)
    ensures AsciiEncode(s, replacement) == s
  {
  }

  /** Decoding an encoded form data set gives back its fields. */
  lemma RoundTrip(entries: seq<Entry>, encoding: Option<Text>, isindex: bool, decoders: Decoders, replacement: Byte)
    requires AllSendable(entries)
    requires entries != [] ==> !IsLeadingIsindex(entries[0])
    requires AsciiCompatible(decoders, UTF_8_LABEL) && AsciiCompatible(decoders, LabelOrDefault(encoding))
    ensures Wire(entries).Ok?
    ensures Decoded(Wire(entries).value, encoding, isindex, decoders, replacement) == Ok(Fields(entries, map[]))
  {
    if entries != [] {
      WireIsJoin(entries);
      var strings := Pairs(entries);
      forall i | 0 <= i < |strings| ensures AMPERSAND !in strings[i] && EQUALS in strings[i] && strings[i] != [] {
        PairIsClean(entries[i]);
      }
      SplitJoin(strings, AMPERSAND);
      StringsArrive(entries, DecodeState(encoding, map[]), decoders, replacement);
    }
  }

  // A leading isindex field comes back without its name.
  function Nameless(entries: seq<Entry>): seq<Entry>
    requires entries != []
  {
    [entries[0].(name := [])] + entries[1..]
  }

  function IndexStrings(entries: seq<Entry>): seq<Text>
    requires entries != [] && entries[0].value.Some?
  {
    [Escape(Utf8(entries[0].value.value))] + Pairs(entries[1..])
  }

  lemma {:induction false} WireOfIsindex(entries: seq<Entry>)
    requires entries != [] && IsLeadingIsindex(entries[0]) && entries[0].value.Some?
    ensures Wire(entries) == Ok(Join(IndexStrings(entries), AMPERSAND))
  {
    hide Escape;
    hide Utf8;
    var n := |entries| - 1;
    var front, last := entries[..n], entries[n];
    LeadingIsindexIff(entries[0]);
    if n == 0 {
      assert Wire(front) == Ok([]) && Pairs(entries[1..]) == [];
      var value := Escape(Utf8(entries[0].value.value));
      assert [] + value == value;
    } else {
      assert front[0] == entries[0];
      WireOfIsindex(front);
      assert Pairs(entries[1..]) == Pairs(front[1..]) + [Pair(last)];
      assert IndexStrings(entries) == IndexStrings(front) + [Pair(last)];
      JoinSnoc(IndexStrings(front), Pair(last), AMPERSAND);
    }
  }

  /**
   With the isindex convention on both sides the field comes back under the empty name, unless it is
   alone and empty: then nothing is sent at all.
   */
  lemma IsindexRoundTrip(entries: seq<Entry>, encoding: Option<Text>, decoders: Decoders, replacement: Byte)
    requires entries != [] && AllSendable(entries) && IsLeadingIsindex(entries[0]) && entries[0].value.Some?
    requires AsciiCompatible(decoders, UTF_8_LABEL) && AsciiCompatible(decoders, LabelOrDefault(encoding))
    ensures Wire(entries).Ok?
    ensures Decoded(Wire(entries).value, encoding, true, decoders, replacement) == Ok(Fields(Nameless(entries), map[]))
       <==> |entries| > 1 || entries[0].value.value != []
  {
    hide *;
    WireOfIsindex(entries);
    var value := entries[0].value.value;
    if |entries| == 1 && value == [] {
      LoneIsindex(entries, encoding, decoders, replacement);
    } else {
      var strings := IndexStrings(entries);
      IndexStringsAreClean(entries);
      AsManyIndexStrings(entries);
      IsindexIsNoCharset(entries[0]);
      SplitJoin(strings, AMPERSAND);
      IndexStringsMarked(entries);
      NamelessSendable(entries);
      StringsArrive(Nameless(entries), DecodeState(encoding, map[]), decoders, replacement);
      DecodedIs(Join(strings, AMPERSAND), encoding, decoders, replacement);
    }
  }

  lemma DecodedIs(payload: Text, encoding: Option<Text>, decoders: Decoders, replacement: Byte)
    ensures var state := DecodeStrings(MarkIsindex(Split(payload, AMPERSAND), true), DecodeState(encoding, map[]), decoders, replacement);
            state.Ok? ==> Decoded(payload, encoding, true, decoders, replacement) == Ok(state.value.pairs)
  {
    hide DecodeStrings;
    hide MarkIsindex;
    hide Split;
  }

  lemma AsManyIndexStrings(entries: seq<Entry>)
    requires entries != [] && entries[0].value.Some?
    ensures |IndexStrings(entries)| == |entries|
  {
  }

  lemma IsindexIsNoCharset(e: Entry)
    requires IsLeadingIsindex(e)
    ensures !IsHiddenCharset(e)
  {
    LeadingIsindexIff(e);
    hide IsLeadingIsindex;
  }

  lemma IndexStringsAreClean(entries: seq<Entry>)
    requires entries != [] && entries[0].value.Some?
    ensures forall i :: 0 <= i < |IndexStrings(entries)| ==> AMPERSAND !in IndexStrings(entries)[i]
    ensures EQUALS !in IndexStrings(entries)[0]
    ensures |entries| > 1 || entries[0].value.value != [] ==> IndexStrings(entries)[|entries| - 1] != []
  {
    hide Escape;
    hide Utf8;
    EscapeIsClean(Utf8(entries[0].value.value));
    EscapeGrows(Utf8(entries[0].value.value));
    forall i | 0 < i < |entries|
      ensures AMPERSAND !in IndexStrings(entries)[i] && IndexStrings(entries)[i] != []
    {
      PairIsClean(entries[i]);
      assert IndexStrings(entries)[i] == Pair(entries[i]);
    }
  }

  lemma {:induction false} EscapeGrows(s: Bytes)
    ensures |Escape(s)| >= |s|
  {
    if s != [] {
      EscapeGrows(s[1..]);
    }
  }

  lemma IndexStringsMarked(entries: seq<Entry>)
    requires entries != [] && entries[0].value.Some? && !IsHiddenCharset(entries[0]) && EQUALS !in IndexStrings(entries)[0]
    ensures MarkIsindex(IndexStrings(entries), true) == Pairs(Nameless(entries))
  {
    var first := entries[0].(name := []);
    assert Escape(Utf8([])) == [];
    assert Pair(first) == [EQUALS] + Escape(Utf8(entries[0].value.value));
    assert Nameless(entries)[0] == first && Nameless(entries)[1..] == entries[1..];
    PairsCons(Nameless(entries));
  }

  lemma NamelessSendable(entries: seq<Entry>)
    requires entries != [] && AllSendable(entries)
    ensures AllSendable(Nameless(entries))
  {
    forall i | 0 <= i < |entries|
      ensures Sendable(Nameless(entries)[i])
    {
      assert Sendable(entries[i]);
    }
  }

  lemma LoneIsindex(entries: seq<Entry>, encoding: Option<Text>, decoders: Decoders, replacement: Byte)
    requires |entries| == 1 && entries[0].value == Some([])
    ensures Join(IndexStrings(entries), AMPERSAND) == []
    ensures Decoded([], encoding, true, decoders, replacement) == Ok(map[])
    ensures [] in Fields(Nameless(entries), map[])
  {
    assert Escape(Utf8([])) == [];
    assert IndexStrings(entries) == [[]];
    assert Nameless(entries)[1..] == [];
  }

  ghost predicate IsFirst(entries: seq<Entry>, i: int, name: Text) {
    0 <= i < |entries| && entries[i].name == name && forall j :: 0 <= j < i ==> entries[j].name != name
  }

  /** The fields of a data set, entry by entry: the first entry of each name decides its value. */
  lemma {:induction false} FieldsByName(entries: seq<Entry>, pairs: map<Text, Text>, name: Text)
    ensures name in Fields(entries, pairs) <==> name in pairs || exists i :: 0 <= i < |entries| && entries[i].name == name
    ensures name in pairs ==> Fields(entries, pairs)[name] == pairs[name]
    ensures name !in pairs ==> forall i :: IsFirst(entries, i, name) ==> Fields(entries, pairs)[name] == Arriving(entries[i]).1
  {
    if entries != [] {
      var next := Insert(pairs, Arriving(entries[0]).0, Arriving(entries[0]).1);
      FieldsByName(entries[1..], next, name);
      forall i | 0 < i < |entries| ensures entries[i] == entries[1..][i - 1] {}
    }
  }

  // ---------------------------------------------------------------------------------------------
  // Outside ASCII the round trip is lost, exactly there

  /** What a value becomes between `url_encode` and the US-ASCII decoder of `url_decode`. */
  function AfterTheWire(v: Text, replacement: Byte): Text {
    AsciiDecode(AsciiEncode(Unescape(Escape(Utf8(v))), replacement))
  }

  lemma {:induction false} Utf8Grows(v: Text)
    ensures |Utf8(v)| == |v| && Utf8(v) == v ==> IsAscii(v)
  {
    if v != [] {
      Utf8Grows(v[1..]);
      if |Utf8(v)| == |v| && Utf8(v) == v {
        assert |Utf8Codepoint(v[0])| == 1;
        assert Utf8(v)[0] == v[0] && Utf8(v)[1..] == v[1..];
      }
    }
  }

  lemma SurvivesTheWireIffAscii(v: Text, replacement: Byte)
    ensures AfterTheWire(v, replacement) == v <==> IsAscii(v)
  {
    UnescapeEscape(Utf8(v));
    if IsAscii(v) {
      Utf8OfAscii(v);
    } else if |Utf8(v)| == |v| {
      SingleBytes(v);
    }
  }

  /** A text that UTF-8 does not lengthen is ASCII or holds a surrogate, whose byte is 0x7F. */
  lemma {:induction false} SingleBytes(v: Text)
    requires |Utf8(v)| == |v|
    ensures forall i :: 0 <= i < |v| ==> Utf8(v)[i] < 0x80 && (Utf8(v)[i] == v[i] <==> v[i] < 0x80)
  {
    if v != [] {
      SingleBytes(v[1..]);
      assert Utf8(v)[1..] == Utf8(v[1..]);
    }
  }
}
