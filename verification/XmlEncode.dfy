/**
  Encoding of text for XML: markup characters become entities, and control characters and
  bytes that are not UTF-8 become hex escapes.  Characters are the bytes of the text.
 */
module XmlEncode {
  import opened Options
  import opened Hex

  predicate IsControl(c: char) {
    c as int < 0x09 || 0x0D < c as int < 0x20 || c as int == 0x7F
  }

  function HexEscape(c: char): string {
    ['\\', 'x', UpperHexChar(c as nat % 256 / 16), UpperHexChar(c as nat % 16)]
  }

  /** How many bytes a multi-byte sequence with this lead has. */
  function TrailingBytes(c: char): nat {
    if c as int < 0xE0 then 2 else if c as int < 0xF0 then 3 else 4
  }

  /** The bits a lead byte contributes. */
  function HeaderValue(c: char): nat
    requires 0xC0 <= c as int < 0xF8
  {
    if c as int < 0xE0 then c as nat - 0xC0 else if c as int < 0xF0 then c as nat - 0xE0 else c as nat - 0xF0
  }

  predicate IsTail(c: char) {
    0x80 <= c as int < 0xC0
  }

  /** The value of the lead byte and the `n - 1` bytes after it. */
  function SequenceValue(s: string, i: nat, n: nat): nat
    requires 1 <= n && i + n <= |s| && 0xC0 <= s[i] as int < 0xF8
    decreases n
  {
    if n == 1 then HeaderValue(s[i]) else SequenceValue(s, i, n - 1) * 64 + s[i + n - 1] as nat % 64
  }

  /** What the encoder takes for a multi-byte sequence. */
  predicate Acceptable(s: string, i: nat)
    requires i < |s|
  {
    && 0xC0 <= s[i] as int < 0xF8
    && var n := TrailingBytes(s[i]);
       && i + n <= |s|
       && (forall k | i < k < i + n :: IsTail(s[k]))
       && Sane(SequenceValue(s, i, n), n)
  }

  predicate Sane(value: nat, n: nat) {
    && value >= 0x80
    && !(0x80 <= value < 0x800 && n > 2)
    && !(0x800 < value < 0x10000 && n > 3)
    && value < 0x110000
  }

  /** How one step of the encoder treats the text at `i`. */
  datatype Token = Entity(of: char, text: string) | Escape(of: char) | Raw(length: nat)

  function TokenAt(s: string, i: nat, attribute: bool): (t: Token)
    requires i < |s|
    ensures t.Raw? ==> 1 <= t.length <= |s| - i
  {
    var c := s[i];
    if c == '<' then Entity(c, "&lt;")
    else if c == '&' then Entity(c, "&amp;")
    else if c == '>' then
      if i > 2 && s[i - 1] == ']' && s[i - 2] == ']' then Entity(c, "&gt;") else Raw(1)
    else if c == '"' then
      if attribute then Entity(c, "&quot;") else Raw(1)
    else if IsControl(c) then Escape(c)
    else if c as int < 0x7F then Raw(1)
    else if Acceptable(s, i) then Raw(TrailingBytes(c))
    else Escape(c)
  }

  function Used(t: Token): nat {
    if t.Raw? then t.length else 1
  }

  function Written(s: string, i: nat, t: Token): string
    requires t.Raw? ==> i + t.length <= |s|
  {
    match t
    case Entity(_, text) => text
    case Escape(c) => HexEscape(c)
    case Raw(n) => s[i..i + n]
  }

  /** The encoding of the text from `i` on. */
  function Encode(s: string, i: nat, attribute: bool): string
    requires i <= |s|
    decreases |s| - i
  {
    if i == |s| then ""
    else
      var t := TokenAt(s, i, attribute);
      Written(s, i, t) + Encode(s, i + Used(t), attribute)
  }

  // ---------------------------------------------------------------------
  // The encoder
  // ---------------------------------------------------------------------

  /** Whether the bytes after a lead byte make it a sequence to pass on. */
  method CheckSequence(s: string, idx: nat) returns (good: bool)
    requires idx < |s| && 0xC0 <= s[idx] as int < 0xF8 && idx + TrailingBytes(s[idx]) <= |s|
    ensures good <==> Acceptable(s, idx)
  {
    var encBytes := TrailingBytes(s[idx]);
    var valid, value := true, HeaderValue(s[idx]);
    for n := 1 to encBytes
      invariant valid <==> forall k | idx < k < idx + n :: IsTail(s[k])
      invariant value == SequenceValue(s, idx, n)
    {
      valid := valid && IsTail(s[idx + n]);
      value := value * 64 + s[idx + n] as nat % 64;
    }
    good := valid && !(value < 0x80
                       || (0x80 <= value < 0x800 && encBytes > 2)
                       || (0x800 < value < 0x10000 && encBytes > 3)
                       || value >= 0x110000);
  }

  /** One step: what to write, and how many bytes it stands for. */
  method EncodeNext(s: string, idx: nat, attribute: bool) returns (piece: string, used: nat)
    requires idx < |s|
    ensures var t := TokenAt(s, idx, attribute);
            piece == Written(s, idx, t) && used == Used(t) && 1 <= used <= |s| - idx
  {
    hide Acceptable;
    var c := s[idx];
    piece, used := [c], 1;
    assert s[idx..idx + 1] == [c];
    if c == '<' {
      piece := "&lt;";
    } else if c == '&' {
      piece := "&amp;";
    } else if c == '>' {
      if idx > 2 && s[idx - 1] == ']' && s[idx - 2] == ']' {
        piece := "&gt;";
      }
    } else if c == '"' {
      if attribute {
        piece := "&quot;";
      }
    } else if c as int < 0x09 || (c as int > 0x0D && c as int < 0x20) || c as int == 0x7F {
      piece := HexEscape(c);
    } else if c as int >= 0x7F {
      AcceptableOnly(s, idx);
      var encBytes := TrailingBytes(c);
      if c as int < 0xC0 || c as int >= 0xF8 || idx + encBytes - 1 >= |s| {
        piece := HexEscape(c);
      } else {
        var good := CheckSequence(s, idx);
        if !good {
          piece := HexEscape(c);
        } else {
          piece, used := s[idx..idx + encBytes], encBytes;
        }
      }
    }
  }

  lemma AcceptableOnly(s: string, i: nat)
    requires i < |s|
    ensures Acceptable(s, i) ==> 0xC0 <= s[i] as int < 0xF8 && i + TrailingBytes(s[i]) <= |s|
  {
  }

  method EncodeTo(s: string, attribute: bool) returns (os: string)
    ensures os == Encode(s, 0, attribute)
  {
    hide Encode, TokenAt, Written, Used;
    os := "";
    var idx := 0;
    while idx < |s|
      invariant idx <= |s| && os + Encode(s, idx, attribute) == Encode(s, 0, attribute)
    {
      EncodeStep(s, idx, attribute, os);
      var piece, used := EncodeNext(s, idx, attribute);
      os := os + piece;
      idx := idx + used;
    }
    EncodeEnd(s, attribute);
    assert os + "" == os;
  }

  lemma EncodeEnd(s: string, attribute: bool)
    ensures Encode(s, |s|, attribute) == ""
  {
  }

  lemma EncodeStep(s: string, i: nat, attribute: bool, before: string)
    requires i < |s|
    ensures var t := TokenAt(s, i, attribute);
            before + Encode(s, i, attribute) == (before + Written(s, i, t)) + Encode(s, i + Used(t), attribute)
  {
    hide TokenAt, Written;
  }

  // ---------------------------------------------------------------------
  // Decoding
  // ---------------------------------------------------------------------

  /** Entity decoding; an ampersand that starts no known entity is an error. */
  function Decode(t: string): Option<string> {
    if t == "" then Some("")
    else if t[0] != '&' then Prefix([t[0]], Decode(t[1..]))
    else if "&lt;" <= t then Prefix("<", Decode(t[4..]))
    else if "&amp;" <= t then Prefix("&", Decode(t[5..]))
    else if "&gt;" <= t then Prefix(">", Decode(t[4..]))
    else if "&quot;" <= t then Prefix("\"", Decode(t[6..]))
    else None
  }

  function Prefix(p: string, r: Option<string>): Option<string> {
    if r.None? then None else Some(p + r.value)
  }

  lemma {:induction false} DecodePlain(p: string, t: string)
    requires '&' !in p
    ensures Decode(p + t) == Prefix(p, Decode(t))
    decreases p
  {
    if p == "" {
      assert p + t == t;
      assert Decode(t).Some? ==> "" + Decode(t).value == Decode(t).value;
    } else {
      assert (p + t)[0] == p[0] && (p + t)[1..] == p[1..] + t;
      DecodePlain(p[1..], t);
      assert Decode(t).Some? ==> [p[0]] + (p[1..] + Decode(t).value) == p + Decode(t).value;
    }
  }

  lemma DecodeEntity(c: char, e: string, t: string)
    requires (c, e) in {('<', "&lt;"), ('&', "&amp;"), ('>', "&gt;"), ('"', "&quot;")}
    ensures Decode(e + t) == Prefix([c], Decode(t))
  {
    var u := e + t;
    assert u[0] == '&' && u[1] == e[1] && e <= u && u[|e|..] == t;
  }

  /** What comes back: the text with each escaped byte spelt out. */
  function Restored(s: string, i: nat, attribute: bool): string
    requires i <= |s|
    decreases |s| - i
  {
    if i == |s| then ""
    else
      var t := TokenAt(s, i, attribute);
      (if t.Escape? then HexEscape(s[i]) else s[i..i + Used(t)]) + Restored(s, i + Used(t), attribute)
  }

  /** How many bytes are escaped. */
  function Escapes(s: string, i: nat, attribute: bool): nat
    requires i <= |s|
    decreases |s| - i
  {
    if i == |s| then 0
    else
      var t := TokenAt(s, i, attribute);
      (if t.Escape? then 1 else 0) + Escapes(s, i + Used(t), attribute)
  }

  lemma TokenDecodes(s: string, i: nat, attribute: bool, rest: string)
    requires i < |s|
    ensures var t := TokenAt(s, i, attribute);
            Decode(Written(s, i, t) + rest) ==
                Prefix(if t.Escape? then HexEscape(s[i]) else s[i..i + Used(t)], Decode(rest))
  {
    hide Decode;
    var t := TokenAt(s, i, attribute);
    match t
    case Entity(c, e) =>
      assert s[i..i + 1] == [s[i]];
      DecodeEntity(c, e, rest);
    case Escape(c) =>
      DecodePlain(HexEscape(c), rest);
    case Raw(n) =>
      RawIsPlain(s, i, attribute);
      DecodePlain(s[i..i + n], rest);
  }

  lemma RawIsPlain(s: string, i: nat, attribute: bool)
    requires i < |s| && TokenAt(s, i, attribute).Raw?
    ensures forall k | i <= k < i + TokenAt(s, i, attribute).length ::
              && s[k] != '&' && s[k] != '<' && (k > i ==> s[k] as int >= 0x80)
              && (attribute ==> s[k] != '"') && !IsControl(s[k])
  {
  }

  lemma {:induction false} EncodeDecodes(s: string, i: nat, attribute: bool)
    requires i <= |s|
    ensures Decode(Encode(s, i, attribute)) == Some(Restored(s, i, attribute))
    decreases |s| - i
  {
    hide TokenAt, Written, Decode, HexEscape, Encode;
    if i == |s| {
      EncodeEnd(s, attribute);
      DecodeNothing();
    } else {
      var t := TokenAt(s, i, attribute);
      var rest := Encode(s, i + Used(t), attribute);
      EncodeStep(s, i, attribute, "");
      assert "" + Encode(s, i, attribute) == Encode(s, i, attribute);
      assert "" + Written(s, i, t) == Written(s, i, t);
      TokenDecodes(s, i, attribute, rest);
      EncodeDecodes(s, i + Used(t), attribute);
    }
  }

  lemma DecodeNothing()
    ensures Decode("") == Some("")
  {
  }

  lemma {:induction false} RestoredLength(s: string, i: nat, attribute: bool)
    requires i <= |s|
    ensures |Restored(s, i, attribute)| == |s| - i + 3 * Escapes(s, i, attribute)
    decreases |s| - i
  {
    if i < |s| {
      hide TokenAt, UpperHexChar;
      RestoredLength(s, i + Used(TokenAt(s, i, attribute)), attribute);
    }
  }

  lemma {:induction false} RestoredWhole(s: string, i: nat, attribute: bool)
    requires i <= |s| && Escapes(s, i, attribute) == 0
    ensures Restored(s, i, attribute) == s[i..]
    decreases |s| - i
  {
    if i < |s| {
      hide TokenAt, HexEscape;
      var n := Used(TokenAt(s, i, attribute));
      RestoredWhole(s, i + n, attribute);
      assert s[i..] == s[i..i + n] + s[i + n..];
    }
  }

  // ---------------------------------------------------------------------
  // UTF-8
  // ---------------------------------------------------------------------

  predicate Between(c: char, lo: int, hi: int) {
    lo <= c as int <= hi
  }

  /** A character of `n` bytes at `i`, by the syntax in section 4 of RFC 3629. */
  predicate Utf8Char(s: string, i: nat, n: nat)
    requires i < |s|
  {
    && 1 <= n <= 4 && i + n <= |s|
    && match n
       case 1 => Between(s[i], 0x00, 0x7F)
       case 2 => Between(s[i], 0xC2, 0xDF) && IsTail(s[i + 1])
       case 3 =>
         && ((s[i] as int == 0xE0 && Between(s[i + 1], 0xA0, 0xBF))
             || (Between(s[i], 0xE1, 0xEC) && IsTail(s[i + 1]))
             || (s[i] as int == 0xED && Between(s[i + 1], 0x80, 0x9F))
             || (Between(s[i], 0xEE, 0xEF) && IsTail(s[i + 1])))
         && IsTail(s[i + 2])
       case _ =>
         && ((s[i] as int == 0xF0 && Between(s[i + 1], 0x90, 0xBF))
             || (Between(s[i], 0xF1, 0xF3) && IsTail(s[i + 1]))
             || (s[i] as int == 0xF4 && Between(s[i + 1], 0x80, 0x8F)))
         && IsTail(s[i + 2]) && IsTail(s[i + 3])
  }

  /** The text from `i` on is a sequence of UTF-8 characters. */
  ghost predicate Utf8(s: string, i: nat)
    requires i <= |s|
    decreases |s| - i
  {
    i == |s| || exists n :: Utf8Char(s, i, n) && Utf8(s, i + n)
  }

  /** The encoding of a surrogate, which UTF-8 forbids. */
  predicate SurrogateAt(s: string, i: nat)
    requires i < |s|
  {
    i + 3 <= |s| && s[i] as int == 0xED && Between(s[i + 1], 0xA0, 0xBF) && IsTail(s[i + 2])
  }

  /** The value 0x800 in four bytes, where UTF-8 has three. */
  predicate LongFormAt(s: string, i: nat)
    requires i < |s|
  {
    i + 4 <= |s| && s[i] as int == 0xF0 && s[i + 1] as int == 0x80 && s[i + 2] as int == 0xA0 && s[i + 3] as int == 0x80
  }

  lemma TwoBytesExactly(s: string, i: nat)
    requires i + 2 <= |s| && 0xC0 <= s[i] as int < 0xE0
    ensures Acceptable(s, i) <==> Utf8Char(s, i, 2)
  {
    assert SequenceValue(s, i, 1) == s[i] as nat - 0xC0;
    assert SequenceValue(s, i, 2) == SequenceValue(s, i, 1) * 64 + s[i + 1] as nat % 64;
  }

  lemma ThreeBytesExactly(s: string, i: nat)
    requires i + 3 <= |s| && 0xE0 <= s[i] as int < 0xF0
    ensures Acceptable(s, i) <==> Utf8Char(s, i, 3) || SurrogateAt(s, i)
  {
    assert SequenceValue(s, i, 1) == s[i] as nat - 0xE0;
    assert SequenceValue(s, i, 2) == SequenceValue(s, i, 1) * 64 + s[i + 1] as nat % 64;
    assert SequenceValue(s, i, 3) == SequenceValue(s, i, 2) * 64 + s[i + 2] as nat % 64;
  }

  lemma FourBytesExactly(s: string, i: nat)
    requires i + 4 <= |s| && 0xF0 <= s[i] as int < 0xF8
    ensures Acceptable(s, i) <==> Utf8Char(s, i, 4) || LongFormAt(s, i)
  {
    assert SequenceValue(s, i, 1) == s[i] as nat - 0xF0;
    assert SequenceValue(s, i, 2) == SequenceValue(s, i, 1) * 64 + s[i + 1] as nat % 64;
    assert SequenceValue(s, i, 3) == SequenceValue(s, i, 2) * 64 + s[i + 2] as nat % 64;
    assert SequenceValue(s, i, 4) == SequenceValue(s, i, 3) * 64 + s[i + 3] as nat % 64;
  }

  /** The sequences passed on are exactly those of UTF-8, the surrogates, and one long form. */
  lemma AcceptedExactly(s: string, i: nat)
    requires i < |s| && s[i] as int >= 0x80
    ensures Acceptable(s, i) <==> (exists n :: Utf8Char(s, i, n)) || SurrogateAt(s, i) || LongFormAt(s, i)
  {
    var n := TrailingBytes(s[i]);
    if 0xC0 <= s[i] as int < 0xF8 && i + n <= |s| {
      if n == 2 {
        TwoBytesExactly(s, i);
      } else if n == 3 {
        ThreeBytesExactly(s, i);
      } else {
        FourBytesExactly(s, i);
      }
      hide Acceptable;
      assert Utf8Char(s, i, n) <==> exists k :: Utf8Char(s, i, k);
    }
  }

  // ---------------------------------------------------------------------
  // What survives
  // ---------------------------------------------------------------------

  /** A character of `n` bytes at `i` that is passed on: one of UTF-8 that is no control character, a
      surrogate, or the long form. */
  predicate PassingChar(s: string, i: nat, n: nat)
    requires i < |s|
  {
    || (Utf8Char(s, i, n) && !IsControl(s[i]))
    || (n == 3 && SurrogateAt(s, i))
    || (n == 4 && LongFormAt(s, i))
  }

  /** The text from `i` on is a sequence of such characters. */
  ghost predicate Passing(s: string, i: nat)
    requires i <= |s|
    decreases |s| - i
  {
    i == |s| || exists n :: PassingChar(s, i, n) && i + n <= |s| && n >= 1 && Passing(s, i + n)
  }

  /** The encoder passes on, in one step, exactly these characters. */
  lemma PassingToken(s: string, i: nat, n: nat, attribute: bool)
    requires i < |s|
    ensures var t := TokenAt(s, i, attribute); PassingChar(s, i, n) <==> !t.Escape? && Used(t) == n
  {
    if s[i] as int >= 0x80 {
      AcceptedExactly(s, i);
      LengthByLead(s, i, n);
    }
    hide Acceptable;
  }

  lemma LengthByLead(s: string, i: nat, n: nat)
    requires i < |s| && s[i] as int >= 0x80
    ensures PassingChar(s, i, n) ==> n == TrailingBytes(s[i])
    ensures (exists k :: Utf8Char(s, i, k)) ==> Utf8Char(s, i, TrailingBytes(s[i]))
  {
    if k :| Utf8Char(s, i, k) {
      assert k == TrailingBytes(s[i]);
    }
  }

  lemma {:induction false} PassingExactly(s: string, i: nat, attribute: bool)
    requires i <= |s|
    ensures Passing(s, i) <==> Escapes(s, i, attribute) == 0
    decreases |s| - i
  {
    hide TokenAt, PassingChar;
    if i < |s| {
      var t := TokenAt(s, i, attribute);
      PassingExactly(s, i + Used(t), attribute);
      PassingToken(s, i, Used(t), attribute);
      forall n | PassingChar(s, i, n) ensures n == Used(t) {
        PassingToken(s, i, n, attribute);
      }
    }
  }

  /** Text survives encoding and entity decoding exactly when it consists of non-control UTF-8
      characters, surrogates and the one long form. */
  lemma RoundTripExactly(s: string, attribute: bool)
    ensures Decode(Encode(s, 0, attribute)) == Some(s) <==> Passing(s, 0)
  {
    hide Decode, Encode, Restored, Escapes, Passing;
    EncodeDecodes(s, 0, attribute);
    RestoredLength(s, 0, attribute);
    PassingExactly(s, 0, attribute);
    if Escapes(s, 0, attribute) == 0 {
      RestoredWhole(s, 0, attribute);
      assert s[0..] == s;
    }
  }

  lemma {:induction false} Utf8Passes(s: string, i: nat)
    requires i <= |s| && Utf8(s, i) && forall k | i <= k < |s| :: !IsControl(s[k])
    ensures Passing(s, i)
    decreases |s| - i
  {
    if i < |s| {
      var n :| Utf8Char(s, i, n) && Utf8(s, i + n);
      assert PassingChar(s, i, n);
      Utf8Passes(s, i + n);
    }
  }

  /** UTF-8 text without control bytes survives encoding and entity decoding. */
  lemma Utf8Survives(s: string, attribute: bool)
    requires Utf8(s, 0) && forall k | 0 <= k < |s| :: !IsControl(s[k])
    ensures Decode(Encode(s, 0, attribute)) == Some(s)
  {
    Utf8Passes(s, 0);
    RoundTripExactly(s, attribute);
  }

  /** The byte 1 comes back as the four characters of its escape. */
  lemma ControlByteChanges(attribute: bool)
    ensures Decode(Encode([1 as char], 0, attribute)) == Some("\\x01")
  {
    var s := [1 as char];
    EncodeDecodes(s, 0, attribute);
    assert TokenAt(s, 0, attribute) == Escape(s[0]);
    assert HexEscape(s[0]) == "\\x01";
    assert Restored(s, 0, attribute) == HexEscape(s[0]) + Restored(s, 1, attribute) == HexEscape(s[0]);
  }

  // ---------------------------------------------------------------------
  // The output as markup
  // ---------------------------------------------------------------------

  predicate EntityAt(t: string, k: nat)
    requires k <= |t|
  {
    "&lt;" <= t[k..] || "&amp;" <= t[k..] || "&gt;" <= t[k..] || "&quot;" <= t[k..]
  }

  /** A byte XML allows in text, and the vertical tab and form feed it does not. */
  predicate Allowed(c: char) {
    (c as int >= 0x20 && c as int != 0x7F) || 0x09 <= c as int <= 0x0D
  }

  predicate CleanAt(t: string, k: nat, attribute: bool)
    requires k < |t|
  {
    && t[k] != '<' && (t[k] == '&' ==> EntityAt(t, k))
    && (attribute ==> t[k] != '"') && Allowed(t[k])
  }

  lemma WrittenClean(s: string, i: nat, attribute: bool, rest: string, k: nat)
    requires i < |s| && k < |Written(s, i, TokenAt(s, i, attribute))|
    ensures CleanAt(Written(s, i, TokenAt(s, i, attribute)) + rest, k, attribute)
  {
    var t := TokenAt(s, i, attribute);
    var w := Written(s, i, t);
    assert (w + rest)[k] == w[k];
    match t
    case Entity(_, e) =>
      if k == 0 {
        assert e <= (w + rest)[0..];
      }
    case Escape(c) =>
    case Raw(n) =>
      RawIsPlain(s, i, attribute);
  }

  /** No markup is opened: no raw `<`, every `&` starts one of the four entities, no quote in an attribute, and no
      control bytes but white space. */
  lemma {:induction false} OutputClean(s: string, i: nat, attribute: bool, k: nat)
    requires i <= |s| && k < |Encode(s, i, attribute)|
    ensures CleanAt(Encode(s, i, attribute), k, attribute)
    decreases |s| - i
  {
    hide TokenAt, Written, CleanAt;
    var t := TokenAt(s, i, attribute);
    var w, rest := Written(s, i, t), Encode(s, i + Used(t), attribute);
    assert Encode(s, i, attribute) == w + rest;
    if k < |w| {
      WrittenClean(s, i, attribute, rest, k);
    } else {
      OutputClean(s, i + Used(t), attribute, k - |w|);
      CleanMoves(w, rest, k - |w|, attribute);
    }
  }

  lemma CleanMoves(w: string, rest: string, k: nat, attribute: bool)
    requires k < |rest| && CleanAt(rest, k, attribute)
    ensures CleanAt(w + rest, |w| + k, attribute)
  {
    assert (w + rest)[|w| + k..] == rest[k..];
  }

  /** The text has the CDATA end mark, which character data must not have. */
  ghost predicate HasMark(t: string) {
    exists k :: MarkAt(t, k)
  }

  predicate MarkAt(t: string, k: int) {
    0 <= k && k + 3 <= |t| && t[k] == ']' && t[k + 1] == ']' && t[k + 2] == '>'
  }

  /** How `pre` ends, in brackets, is how the text before `i` ends. */
  predicate EndsLike(pre: string, s: string, i: nat)
    requires i <= |s|
  {
    && ((|pre| >= 1 && pre[|pre| - 1] == ']') <==> (i >= 1 && s[i - 1] == ']'))
    && ((|pre| >= 2 && pre[|pre| - 1] == ']' && pre[|pre| - 2] == ']')
        <==> (i >= 2 && s[i - 1] == ']' && s[i - 2] == ']'))
  }

  lemma NoMarkAdded(pre: string, w: string)
    requires !HasMark(pre) && '>' !in w
    ensures !HasMark(pre + w)
  {
    forall k
      ensures !MarkAt(pre + w, k)
    {
      assert !MarkAt(pre, k);
    }
  }

  lemma BracketAdded(pre: string)
    ensures HasMark(pre + ">") <==> HasMark(pre) || (|pre| >= 2 && pre[|pre| - 1] == ']' && pre[|pre| - 2] == ']')
  {
    var t := pre + ">";
    if k :| MarkAt(pre, k) {
      assert MarkAt(t, k);
    }
    if |pre| >= 2 && pre[|pre| - 1] == ']' && pre[|pre| - 2] == ']' {
      assert MarkAt(t, |pre| - 2);
    }
    if k :| MarkAt(t, k) {
      assert k + 3 <= |pre| ==> MarkAt(pre, k);
    }
  }

  lemma {:induction false} MarkStays(pre: string, w: string)
    requires HasMark(pre)
    ensures HasMark(pre + w)
  {
    var k :| MarkAt(pre, k);
    assert MarkAt(pre + w, k);
  }

  predicate StartsMarked(s: string) {
    |s| >= 3 && s[0] == ']' && s[1] == ']' && s[2] == '>'
  }

  /** One step: the mark appears only by a raw `>` at the third byte. */
  lemma MarkStep(s: string, i: nat, attribute: bool, pre: string)
    requires i < |s| && EndsLike(pre, s, i) && !HasMark(pre)
    ensures var t := TokenAt(s, i, attribute);
            && EndsLike(pre + Written(s, i, t), s, i + Used(t))
            && (HasMark(pre + Written(s, i, t)) <==> i == 2 && StartsMarked(s))
  {
    var t := TokenAt(s, i, attribute);
    var w := Written(s, i, t);
    if t.Raw? && s[i] == '>' {
      assert w == ">";
      BracketAdded(pre);
    } else {
      WrittenHasNo(s, i, attribute);
      NoMarkAdded(pre, w);
      WrittenEnds(s, i, attribute, pre);
    }
  }

  lemma WrittenHasNo(s: string, i: nat, attribute: bool)
    requires i < |s| && !(TokenAt(s, i, attribute).Raw? && s[i] == '>')
    ensures '>' !in Written(s, i, TokenAt(s, i, attribute))
  {
    if TokenAt(s, i, attribute).Raw? {
      RawIsPlain(s, i, attribute);
    }
  }

  lemma WrittenEnds(s: string, i: nat, attribute: bool, pre: string)
    requires i < |s| && EndsLike(pre, s, i) && !(TokenAt(s, i, attribute).Raw? && s[i] == '>')
    ensures var t := TokenAt(s, i, attribute); EndsLike(pre + Written(s, i, t), s, i + Used(t))
  {
    var t := TokenAt(s, i, attribute);
    var w := Written(s, i, t);
    if t.Raw? {
      RawIsPlain(s, i, attribute);
    }
    hide TokenAt, HexEscape;
    assert |w| >= 1 && (pre + w)[|pre + w| - 1] == w[|w| - 1];
    assert |w| == 1 && |pre| >= 1 ==> (pre + w)[|pre + w| - 2] == pre[|pre| - 1];
    assert |w| > 1 ==> (pre + w)[|pre + w| - 2] == w[|w| - 2];
  }

  lemma {:induction false} MarkOnly(s: string, i: nat, attribute: bool, pre: string)
    requires i <= |s| && EndsLike(pre, s, i) && !HasMark(pre)
    ensures HasMark(pre + Encode(s, i, attribute)) <==> i <= 2 && StartsMarked(s)
    decreases |s| - i
  {
    hide HasMark, EndsLike, TokenAt, Written;
    if i == |s| {
      assert pre + Encode(s, i, attribute) == pre;
    } else {
      var t := TokenAt(s, i, attribute);
      EncodeStep(s, i, attribute, pre);
      MarkStep(s, i, attribute, pre);
      if HasMark(pre + Written(s, i, t)) {
        MarkStays(pre + Written(s, i, t), Encode(s, i + Used(t), attribute));
      } else {
        MarkOnly(s, i + Used(t), attribute, pre + Written(s, i, t));
        OneByOne(s, i, attribute);
      }
    }
  }

  lemma OneByOne(s: string, i: nat, attribute: bool)
    requires i < |s|
    ensures StartsMarked(s) && i <= 2 ==> Used(TokenAt(s, i, attribute)) == 1
  {
  }

  /** The CDATA end mark gets into the output exactly when the text starts with it. */
  lemma MarkExactly(s: string, attribute: bool)
    ensures HasMark(Encode(s, 0, attribute)) <==> StartsMarked(s)
  {
    MarkOnly(s, 0, attribute, "");
    assert "" + Encode(s, 0, attribute) == Encode(s, 0, attribute);
  }
  /** `]]>` is written as it stands. */
  lemma MarkPassedOn(attribute: bool)
    ensures Encode("]]>", 0, attribute) == "]]>"
  {
    var s := "]]>";
    MarkTokens(attribute);
    hide TokenAt;
    EncodeEnd(s, attribute);
    assert s[0..1] == "]" && s[1..2] == "]" && s[2..3] == ">";
    assert Encode(s, 2, attribute) == ">" + Encode(s, 3, attribute);
    assert Encode(s, 1, attribute) == "]" + Encode(s, 2, attribute);
  }

  lemma MarkTokens(attribute: bool)
    ensures forall i | 0 <= i < 3 :: TokenAt("]]>", i, attribute) == Raw(1)
  {
    hide Acceptable;
  }
}
