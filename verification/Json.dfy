/** JSON texts and their size: a value that crosses the wire is its text, and every byte bound of the protocol
    (`bounded`, `within`) is on the UTF-8 length of that text. */
module Json {
  import Aad
  import opened Bindings

  /** `new TextEncoder().encode(text).byteLength` */
  function Bytes(text: string): (n: nat)
    ensures |text| <= n <= 4 * |text|
  {
    EncodedLength(text);
    |Aad.Encode(text)|
  }

  lemma {:induction false} EncodedLength(text: string)
    ensures |text| <= |Aad.Encode(text)| <= 4 * |text|
  {
    if text == "" {
    } else {
      EncodedLength(text[1..]);
    }
  }

  lemma {:induction false} BytesAppend(left: string, right: string)
    ensures Bytes(left + right) == Bytes(left) + Bytes(right)
  {
    if left == "" {
      assert left + right == right;
    } else {
      assert (left + right)[1..] == left[1..] + right;
      BytesAppend(left[1..], right);
    }
  }

  // ----- strings and numbers -----

  const HEX := "0123456789abcdef"

  /** One character of a JSON string. */
  function Escape(c: char): (text: string)
    ensures 1 <= |text| <= 6
  {
    if c == '"' || c == '\\' then ['\\', c]
    else if c == '\n' then "\\n"
    else if c == '\r' then "\\r"
    else if c == '\t' then "\\t"
    else if c as int == 8 then "\\b"
    else if c as int == 12 then "\\f"
    else if c as int < 32 then "\\u00" + [HEX[c as int / 16], HEX[c as int % 16]]
    else [c]
  }

  function Escaped(value: string): string {
    if value == "" then "" else Escape(value[0]) + Escaped(value[1..])
  }

  /** `JSON.stringify` of a string. */
  function Quote(value: string): string { MARK + Escaped(value) + MARK }

  const MARK := "\""

  lemma {:induction false} AsciiBytes(text: string)
    requires forall i :: 0 <= i < |text| ==> text[i] as int < 0x80
    ensures Bytes(text) == |text|
  {
    if text == "" {
    } else {
      AsciiBytes(text[1..]);
    }
  }

  lemma EscapeBytes(c: char)
    ensures Bytes(Escape(c)) <= 6
  {
    if |Escape(c)| > 1 {
      AsciiBytes(Escape(c));
    }
  }

  lemma {:induction false} EscapedBytes(value: string)
    ensures Bytes(Escaped(value)) <= 6 * |value|
  {
    if value == "" {
    } else {
      EscapeBytes(value[0]);
      EscapedBytes(value[1..]);
      BytesAppend(Escape(value[0]), Escaped(value[1..]));
    }
  }

  lemma QuoteBytes(value: string)
    ensures Bytes(Quote(value)) == 2 + Bytes(Escaped(value)) <= 2 + 6 * |value|
  {
    var mark := MARK;
    assert |mark| == 1 && mark[0] as int < 0x80
           && Quote(value) == mark + Escaped(value) + mark by { hide Bytes, Escaped; }
    hide *;
    EscapedBytes(value);
    Enclosed(mark, Escaped(value));
  }

  lemma Enclosed(mark: string, body: string)
    requires |mark| == 1 && mark[0] as int < 0x80
    ensures Bytes(mark + body + mark) == 2 + Bytes(body)
  {
    AsciiBytes(mark);
    hide Bytes;
    BytesAppend(mark + body, mark);
    BytesAppend(mark, body);
  }

  /** `JSON.stringify` of an integer. */
  function Number(n: int): string { if n < 0 then "-" + Aad.Decimal(-n) else Aad.Decimal(n) }

  /** The numbers of a schema are safe integers, of at most sixteen digits. */
  const MAX_SAFE := 9_007_199_254_740_991

  lemma {:induction false} DecimalDigits(n: nat, digits: nat, power: nat)
    requires n < 10 * power && power == Power(digits)
    ensures |Aad.Decimal(n)| <= digits + 1
    decreases digits
  {
    if n < 10 {
    } else {
      assert digits > 0;
      DecimalDigits(n / 10, digits - 1, Power(digits - 1));
    }
  }

  function Power(digits: nat): nat { if digits == 0 then 1 else 10 * Power(digits - 1) }

  lemma NumberBytes(n: int)
    requires 0 <= n <= MAX_SAFE
    ensures Bytes(Number(n)) <= 64
  {
    assert Power(15) == 1_000_000_000_000_000 by {
      assert Power(5) == 100_000;
      assert Power(10) == 10_000_000_000;
    }
    DecimalDigits(n, 15, Power(15));
  }

  // ----- objects -----

  datatype Member = Member(key: string, text: string)

  function Body(members: seq<Member>): string {
    if members == [] then ""
    else Quote(members[0].key) + ":" + members[0].text + (if |members| == 1 then "" else ",") + Body(members[1..])
  }

  /** `JSON.stringify` of an object, from the texts of its members. */
  function Object(members: seq<Member>): string { "{" + Body(members) + "}" }

  /** The bytes that members take: key, colon, value, and the comma or the brace after it. */
  function MemberBytes(members: seq<Member>): nat {
    if members == [] then 0
    else Bytes(Quote(members[0].key)) + Bytes(members[0].text) + 2 + MemberBytes(members[1..])
  }

  lemma FiveBytes(a: string, b: string, c: string, d: string, e: string)
    ensures Bytes(a + b + c + d + e) == Bytes(a) + Bytes(b) + Bytes(c) + Bytes(d) + Bytes(e)
  {
    hide Bytes;
    BytesAppend(a + b + c + d, e);
    BytesAppend(a + b + c, d);
    BytesAppend(a + b, c);
    BytesAppend(a, b);
  }

  lemma Punctuation()
    ensures Bytes("") == 0 && Bytes(":") == Bytes(",") == Bytes("{") == Bytes("}") == 1
  {
    AsciiBytes(":");
    AsciiBytes(",");
    AsciiBytes("{");
    AsciiBytes("}");
  }

  lemma {:induction false} BodyBytes(members: seq<Member>)
    ensures Bytes(Body(members)) + (if members == [] then 0 else 1) == MemberBytes(members)
  {
    Punctuation();
    hide Bytes, Quote;
    if members == [] {
    } else {
      BodyBytes(members[1..]);
      FiveBytes(Quote(members[0].key), ":", members[0].text, if |members| == 1 then "" else ",", Body(members[1..]));
    }
  }

  lemma ObjectBytes(members: seq<Member>)
    requires members != []
    ensures Bytes(Object(members)) == 1 + MemberBytes(members)
  {
    Punctuation();
    BodyBytes(members);
    hide Bytes, Body, MemberBytes;
    BytesAppend("{" + Body(members), "}");
    BytesAppend("{", Body(members));
  }

  lemma {:induction false} MemberBytesAppend(left: seq<Member>, right: seq<Member>)
    ensures MemberBytes(left + right) == MemberBytes(left) + MemberBytes(right)
  {
    hide Bytes, Quote;
    if left == [] {
      assert left + right == right;
    } else {
      assert (left + right)[1..] == left[1..] + right;
      MemberBytesAppend(left[1..], right);
    }
  }

  /** The most that members can take whose keys and texts are bounded. */
  lemma {:induction false} MemberBytesAtMost(members: seq<Member>, each: nat)
    requires forall i :: 0 <= i < |members| ==> 6 * |members[i].key| + Bytes(members[i].text) + 4 <= each
    ensures MemberBytes(members) <= |members| * each
  {
    hide Bytes, Quote;
    if members == [] {
    } else {
      QuoteBytes(members[0].key);
      MemberBytesAtMost(members[1..], each);
      Times(|members|, each);
    }
  }

  lemma Times(n: nat, each: nat)
    requires n > 0
    ensures n * each == each + (n - 1) * each
  {
  }

  // ----- reading a string back -----

  function HexDigit(c: char): Option<int> {
    if '0' <= c <= '9' then Some(c as int - 48)
    else if 'a' <= c <= 'f' then Some(c as int - 87)
    else None
  }

  /** The character that an escape of one letter stands for. */
  function Letter(c: char): Option<char> {
    if c == '"' || c == '\\' then Some(c)
    else if c == 'n' then Some('\n')
    else if c == 'r' then Some('\r')
    else if c == 't' then Some('\t')
    else if c == 'b' then Some(8 as char)
    else if c == 'f' then Some(12 as char)
    else None
  }

  /** The first character, and how much of the text stands for it. */
  function First(text: string): (Option<char>, nat)
    requires text != ""
    ensures 1 <= First(text).1 <= |text|
  {
    if text[0] != '\\' then (Some(text[0]), 1)
    else if |text| < 2 then (None, 1)
    else if text[1] != 'u' then (Letter(text[1]), 2)
    else if |text| >= 6 && text[2] == '0' && text[3] == '0' && HexDigit(text[4]).Some? && HexDigit(text[5]).Some?
    then (Some((16 * HexDigit(text[4]).value + HexDigit(text[5]).value) as char), 6)
    else (None, 1)
  }

  /** A JSON reading of what stands between the quotes (section 7 of RFC 8259), for characters below U+0100 where
      they are escaped by number. */
  function Unescape(text: string): Option<string> {
    if text == "" then Some("")
    else if text[0] == '"' || text[0] as int < 32 then None
    else
      var (c, length) := First(text);
      if c.None? then None
      else
        match Unescape(text[length..])
        case None => None
        case Some(rest) => Some([c.value] + rest)
  }

  lemma FirstIsRead(c: char, rest: string)
    ensures First(Escape(c) + rest) == (Some(c), |Escape(c)|)
    ensures var text := Escape(c) + rest; text[0] != '"' && text[0] as int >= 32
  {
    if c as int < 32 && |Escape(c)| == 6 {
      var text := Escape(c) + rest;
      var high, low := HEX[c as int / 16], HEX[c as int % 16];
      assert Escape(c) == "\\u00" + [high, low];
      assert text[0] == '\\' && text[1] == 'u' && text[2] == '0' && text[3] == '0' && text[4] == high && text[5] == low;
      HexIsRead(c as int / 16);
      HexIsRead(c as int % 16);
      hide HexDigit, Escape;
    }
  }

  lemma HexIsRead(n: nat)
    requires n < 16
    ensures HexDigit(HEX[n]) == Some(n)
  {
  }

  /** What is quoted is read back. */
  lemma {:induction false} QuoteRoundTrip(value: string)
    ensures Unescape(Escaped(value)) == Some(value)
  {
    if value == "" {
    } else {
      QuoteRoundTrip(value[1..]);
      var first, rest := Escape(value[0]), Escaped(value[1..]);
      FirstIsRead(value[0], rest);
      assert Escaped(value) == first + rest && [value[0]] + value[1..] == value;
      hide First, Escape, Unescape, Escaped;
      UnescapeJoins(first, rest, value[0]);
    }
  }

  lemma UnescapeJoins(first: string, rest: string, c: char)
    requires first != "" && First(first + rest) == (Some(c), |first|)
    requires (first + rest)[0] != '"' && (first + rest)[0] as int >= 32
    requires Unescape(rest).Some?
    ensures Unescape(first + rest) == Some([c] + Unescape(rest).value)
  {
    hide First;
    assert (first + rest)[|first|..] == rest;
  }
}
