/** The text form of the session user kept under the `userData` storage key:
    what `JSON.stringify(user)` writes for a `User` record, and a reader for
    that text standing in for `JSON.parse`. Reading back what was written
    gives the same user. */
module UserCodec {
  import opened Wrappers
  import opened Text
  import opened Types

  // ---------------------------------------------------------------------
  // JSON string literals
  // ---------------------------------------------------------------------

  function HexDigit(d: nat): char
    requires d < 16
  {
    if d < 10 then DigitChar(d) else ('a' as int + (d - 10)) as char
  }

  function HexValue(c: char): (r: Option<nat>)
    ensures r.Some? ==> r.value < 16
  {
    if '0' <= c <= '9' then Some(c as int - '0' as int)
    else if 'a' <= c <= 'f' then Some(c as int - 'a' as int + 10)
    else if 'A' <= c <= 'F' then Some(c as int - 'A' as int + 10)
    else None
  }

  lemma HexRoundTrip(d: nat)
    requires d < 16
    ensures HexValue(HexDigit(d)) == Some(d)
  {
  }

  /** How `JSON.stringify` writes one character inside a string literal. */
  function EscapeChar(c: char): (r: string)
    ensures |r| >= 1 && r[0] != '"'
  {
    if c == '"' then "\\\""
    else if c == '\\' then "\\\\"
    else if c == '\U{0008}' then "\\b"
    else if c == '\t' then "\\t"
    else if c == '\n' then "\\n"
    else if c == '\U{000C}' then "\\f"
    else if c == '\r' then "\\r"
    else if c < ' ' then "\\u00" + [HexDigit(c as int / 16), HexDigit(c as int % 16)]
    else [c]
  }

  /** The body of the string literal for `s`. */
  function Escape(s: string): string {
    if s == [] then [] else EscapeChar(s[0]) + Escape(s[1..])
  }

  /** The string literal for `s`, quotes included. */
  function Quote(s: string): string {
    "\"" + Escape(s) + "\""
  }

  /** The code unit four hex digits spell. */
  function CodeUnit(a: nat, b: nat, c: nat, d: nat): (code: nat)
    requires a < 16 && b < 16 && c < 16 && d < 16
    ensures code < 0x10000
  {
    ((a * 16 + b) * 16 + c) * 16 + d
  }

  /** Decodes the character that starts `s` inside a string literal: the
      character and how many input characters it took. Raw control
      characters, unknown escapes and escapes naming a surrogate half are
      rejected, as `JSON.parse` rejects them or cannot represent them. */
  function ReadOneChar(s: string): (r: Option<(char, nat)>)
    requires s != [] && s[0] != '"'
    ensures r.Some? ==> 1 <= r.value.1 <= |s|
  {
    if s[0] == '\\' then
      if |s| < 2 then None
      else if s[1] == '"' then Some(('"', 2))
      else if s[1] == '\\' then Some(('\\', 2))
      else if s[1] == '/' then Some(('/', 2))
      else if s[1] == 'b' then Some(('\U{0008}', 2))
      else if s[1] == 't' then Some(('\t', 2))
      else if s[1] == 'n' then Some(('\n', 2))
      else if s[1] == 'f' then Some(('\U{000C}', 2))
      else if s[1] == 'r' then Some(('\r', 2))
      else if s[1] == 'u' && |s| >= 6 then
        match (HexValue(s[2]), HexValue(s[3]), HexValue(s[4]), HexValue(s[5]))
        case (Some(a), Some(b), Some(c), Some(d)) =>
          var code := CodeUnit(a, b, c, d);
          if 0xD800 <= code < 0xE000 then None else Some((code as char, 6))
        case _ => None
      else None
    else if s[0] < ' ' then None
    else Some((s[0], 1))
  }

  /** Reads a string-literal body up to its closing quote: the decoded
      text and what follows the quote. */
  function ReadStringBody(s: string): Option<(string, string)>
    decreases |s|
  {
    if s == [] then None
    else if s[0] == '"' then Some(("", s[1..]))
    else
      match ReadOneChar(s)
      case None => None
      case Some((c, k)) =>
        match ReadStringBody(s[k..])
        case None => None
        case Some((cs, rest)) => Some(([c] + cs, rest))
  }

  /** One written character is read back as itself, consuming exactly what
      was written. */
  lemma ReadEscapedChar(c: char, tail: string)
    ensures ReadOneChar(EscapeChar(c) + tail) == Some((c, |EscapeChar(c)|))
  {
    var e := EscapeChar(c);
    var s := e + tail;
    if c < ' ' && c != '\U{0008}' && c != '\t' && c != '\n' && c != '\U{000C}' && c != '\r' {
      var hi := c as int / 16;
      var lo := c as int % 16;
      assert s[2] == '0' && s[3] == '0' && s[4] == HexDigit(hi) && s[5] == HexDigit(lo);
      HexRoundTrip(hi);
      HexRoundTrip(lo);
      assert ((0 * 16 + 0) * 16 + hi) * 16 + lo == c as int;
    }
  }

  /** Reading the literal body of `t` followed by the closing quote gives `t`
      back and leaves the rest untouched. */
  lemma {:induction false} ReadStringBodyOfEscape(t: string, rest: string)
    ensures ReadStringBody(Escape(t) + "\"" + rest) == Some((t, rest))
    decreases |t|
  {
    if t == [] {
      assert Escape(t) + "\"" + rest == "\"" + rest;
    } else {
      var e := EscapeChar(t[0]);
      var tail := Escape(t[1..]) + "\"" + rest;
      var s := Escape(t) + "\"" + rest;
      assert s == e + tail;
      ReadEscapedChar(t[0], tail);
      assert s[|e|..] == tail;
      ReadStringBodyOfEscape(t[1..], rest);
      assert [t[0]] + t[1..] == t;
    }
  }

  // ---------------------------------------------------------------------
  // JSON integers
  // ---------------------------------------------------------------------

  /** Reads the leading run of digits: its value and the rest. */
  function ReadDigits(s: string): Option<(nat, string)> {
    var k := LeadingDigits(s);
    if k == 0 then None else Some((DigitsValue(s[..k]), s[k..]))
  }

  /** Reads an optionally negative run of digits: the value and the rest. */
  function ReadInt(s: string): Option<(int, string)> {
    var neg := |s| > 0 && s[0] == '-';
    match ReadDigits(if neg then s[1..] else s)
    case None => None
    case Some((v, rest)) => Some((if neg then -(v as int) else v as int, rest))
  }

  lemma {:induction false} LeadingDigitsOfDigitsThen(d: string, tail: string)
    requires AllDigits(d)
    requires tail == [] || !IsDigit(tail[0])
    ensures LeadingDigits(d + tail) == |d|
    decreases |d|
  {
    if d != [] {
      assert (d + tail)[1..] == d[1..] + tail;
      LeadingDigitsOfDigitsThen(d[1..], tail);
    } else {
      assert d + tail == tail;
    }
  }

  lemma ReadDigitsOfDigits(d: string, tail: string)
    requires d != [] && AllDigits(d)
    requires tail == [] || !IsDigit(tail[0])
    ensures ReadDigits(d + tail) == Some((DigitsValue(d), tail))
  {
    LeadingDigitsOfDigitsThen(d, tail);
    assert (d + tail)[..|d|] == d;
    assert (d + tail)[|d|..] == tail;
  }

  lemma ReadIntOfIntToString(n: int, tail: string)
    requires tail == [] || !IsDigit(tail[0])
    ensures ReadInt(IntToString(n) + tail) == Some((n, tail))
  {
    var s := IntToString(n) + tail;
    if n < 0 {
      var d := NatToString(-n);
      assert s == "-" + (d + tail);
      assert s[1..] == d + tail;
      ReadDigitsOfDigits(d, tail);
    } else {
      var d := NatToString(n);
      assert s == d + tail;
      assert IsDigit(s[0]);
      ReadDigitsOfDigits(d, tail);
    }
  }

  // ---------------------------------------------------------------------
  // The user record
  // ---------------------------------------------------------------------

  /** The optional avatar key and the closing brace. */
  function AvatarAndEnd(avatarUrl: Option<string>): string {
    match avatarUrl
    case None => "}"
    case Some(a) => ",\"avatarUrl\":" + Quote(a) + "}"
  }

  /** `JSON.stringify(user)`: keys in declaration order, an absent avatar
      left out. */
  function Encode(u: User): string {
    "{\"id\":" + (IntToString(u.id)
    + (",\"name\":" + Quote(u.name)
    + (",\"email\":" + Quote(u.email)
    + (",\"role\":" + Quote(u.role)
    + AvatarAndEnd(u.avatarUrl)))))
  }

  /** Reads `key` followed by a string literal: the decoded string and the
      rest. */
  function ReadKeyString(s: string, key: string): Option<(string, string)> {
    if StartsWith(s, key + "\"") then ReadStringBody(s[|key| + 1..]) else None
  }

  lemma ReadKeyStringOfQuote(key: string, v: string, tail: string)
    ensures ReadKeyString(key + Quote(v) + tail, key) == Some((v, tail))
  {
    var s := key + Quote(v) + tail;
    assert s == (key + "\"") + (Escape(v) + "\"" + tail);
    assert s[|key| + 1..] == Escape(v) + "\"" + tail;
    ReadStringBodyOfEscape(v, tail);
  }

  /** Reads the avatar part and the closing brace. */
  function ReadAvatarAndEnd(s: string): Option<Option<string>> {
    if s == "}" then Some(None)
    else
      match ReadKeyString(s, ",\"avatarUrl\":")
      case Some((a, rest)) => if rest == "}" then Some(Some(a)) else None
      case None => None
  }

  /** `JSON.parse` of a stored user: `None` when the text is not a user
      record as `Encode` writes it (the parse failure path). */
  function Decode(s: string): Option<User> {
    var idKey := "{\"id\":";
    if !StartsWith(s, idKey) then None
    else
      match ReadInt(s[|idKey|..])
      case None => None
      case Some((id, s1)) =>
        match ReadKeyString(s1, ",\"name\":")
        case None => None
        case Some((name, s2)) =>
          match ReadKeyString(s2, ",\"email\":")
          case None => None
          case Some((email, s3)) =>
            match ReadKeyString(s3, ",\"role\":")
            case None => None
            case Some((role, s4)) =>
              match ReadAvatarAndEnd(s4)
              case None => None
              case Some(avatar) => Some(User(id, name, email, role, avatar))
  }

  /** The avatar part reads back as written. */
  lemma ReadAvatarAndEndOf(avatarUrl: Option<string>)
    ensures ReadAvatarAndEnd(AvatarAndEnd(avatarUrl)) == Some(avatarUrl)
  {
    match avatarUrl
    case None =>
    case Some(a) =>
      assert AvatarAndEnd(avatarUrl)[0] == ',';
      ReadKeyStringOfQuote(",\"avatarUrl\":", a, "}");
  }

  /** What the session stores is read back as the same user. */
  lemma {:induction false} DecodeEncode(u: User)
    ensures Decode(Encode(u)) == Some(u)
  {
    var idKey := "{\"id\":";
    var s4 := AvatarAndEnd(u.avatarUrl);
    var s3 := ",\"role\":" + Quote(u.role) + s4;
    var s2 := ",\"email\":" + Quote(u.email) + s3;
    var s1 := ",\"name\":" + Quote(u.name) + s2;
    var s := Encode(u);
    assert s == idKey + (IntToString(u.id) + s1);
    assert StartsWith(s, idKey) && s[|idKey|..] == IntToString(u.id) + s1;
    ReadIntOfIntToString(u.id, s1);
    ReadKeyStringOfQuote(",\"name\":", u.name, s2);
    ReadKeyStringOfQuote(",\"email\":", u.email, s3);
    ReadKeyStringOfQuote(",\"role\":", u.role, s4);
    ReadAvatarAndEndOf(u.avatarUrl);
  }
}
