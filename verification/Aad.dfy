/** Additional authenticated data of a credential (packages/credential-vault/src/aad.ts): six fields, each after its
    length in UTF-8 bytes. Strings are sequences of Unicode scalar values, as `TextEncoder` keeps them apart. */
module Aad {
  import opened Bindings

  datatype Owner = User(id: string) | Organization(id: string)

  datatype Credential = Credential(credentialId: string, owner: Owner, provider: string, revision: nat)

  datatype Context = Context(
    credentialId: string, ownerType: string, ownerId: string, provider: string, revision: string, version: string)

  // ----- encoding -----

  /** One scalar value in UTF-8 (section 3 of RFC 3629). */
  function Utf8(c: int): (bytes: seq<int>) {
    if c < 0x80 then [c]
    else if c < 0x800 then [0xC0 + c / 64, 0x80 + c % 64]
    else if c < 0x10000 then [0xE0 + c / 4096, 0x80 + c / 64 % 64, 0x80 + c % 64]
    else [0xF0 + c / 262144, 0x80 + c / 4096 % 64, 0x80 + c / 64 % 64, 0x80 + c % 64]
  }

  /** `TextEncoder.encode` */
  function Encode(s: string): seq<int> {
    if s == "" then [] else Utf8(s[0] as int) + Encode(s[1..])
  }

  const DIGITS := "0123456789"

  /** `String` of a non-negative integer. */
  function Decimal(n: nat): string {
    if n < 10 then [DIGITS[n]] else Decimal(n / 10) + [DIGITS[n % 10]]
  }

  /** One value after its length in bytes. */
  function Prefixed(value: string): string {
    Decimal(|Encode(value)|) + ":" + value
  }

  function Flat(values: seq<string>): string {
    if values == [] then "" else Prefixed(values[0]) + Flat(values[1..])
  }

  /** `credentialKmsEncryptionContext` */
  function EncryptionContext(credential: Credential): Context {
    Context(credential.credentialId, if credential.owner.User? then "user" else "organization", credential.owner.id,
            credential.provider, Decimal(credential.revision), "1")
  }

  function Values(context: Context): seq<string> {
    [context.version, context.credentialId, context.ownerType, context.ownerId, context.provider, context.revision]
  }

  /** `credentialAdditionalAuthenticatedData` */
  function AuthenticatedData(credential: Credential): seq<int> {
    Encode(Flat(Values(EncryptionContext(credential))))
  }

  // ----- parsing -----

  const COLON := 58

  predicate IsDigit(b: int) { 48 <= b <= 57 }

  /** A number in decimal, and what follows its colon. */
  function ReadLength(bytes: seq<int>, so: nat): Option<(nat, seq<int>)>
    decreases |bytes|
  {
    if bytes == [] then None
    else if bytes[0] == COLON then Some((so, bytes[1..]))
    else if IsDigit(bytes[0]) then ReadLength(bytes[1..], 10 * so + bytes[0] - 48)
    else None
  }

  /** `count` fields, each after its length, and nothing else. */
  function Parse(bytes: seq<int>, count: nat): Option<seq<seq<int>>>
    decreases count
  {
    if count == 0 then (if bytes == [] then Some([]) else None)
    else
      match ReadLength(bytes, 0)
      case None => None
      case Some((length, rest)) =>
        if length > |rest| then None
        else match Parse(rest[length..], count - 1)
          case None => None
          case Some(fields) => Some([rest[..length]] + fields)
  }

  /** The first scalar value of some UTF-8 bytes, and how many bytes it takes. */
  function FirstScalar(bytes: seq<int>): (int, nat)
    requires bytes != []
  {
    var b := bytes[0];
    if b < 0x80 || |bytes| < 2 then (b, 1)
    else if b < 0xE0 || |bytes| < 3 then ((b - 0xC0) * 64 + bytes[1] - 0x80, 2)
    else if b < 0xF0 || |bytes| < 4 then ((b - 0xE0) * 4096 + (bytes[1] - 0x80) * 64 + bytes[2] - 0x80, 3)
    else ((b - 0xF0) * 262144 + (bytes[1] - 0x80) * 4096 + (bytes[2] - 0x80) * 64 + bytes[3] - 0x80, 4)
  }

  /** The scalar values of some UTF-8 bytes. */
  function Decode(bytes: seq<int>): seq<int>
    decreases |bytes|
  {
    if bytes == [] then []
    else
      var (c, n) := FirstScalar(bytes);
      [c] + Decode(bytes[n..])
  }

  function Scalars(s: string): seq<int> {
    if s == "" then [] else [s[0] as int] + Scalars(s[1..])
  }

  // ----- round trips -----

  lemma FirstOfUtf8(c: int, rest: seq<int>)
    requires 0 <= c < 0x110000
    ensures FirstScalar(Utf8(c) + rest) == (c, |Utf8(c)|)
  {
    var d := c / 64;
    assert c == 64 * d + c % 64;
    var e := d / 64;
    assert d == 64 * e + d % 64 && e == c / 4096;
    var f := e / 64;
    assert e == 64 * f + e % 64 && f == c / 262144;
  }

  lemma {:induction false} DecodeEncode(s: string)
    ensures Decode(Encode(s)) == Scalars(s)
  {
    if s != "" {
      var c := s[0] as int;
      FirstOfUtf8(c, Encode(s[1..]));
      assert (Utf8(c) + Encode(s[1..]))[|Utf8(c)|..] == Encode(s[1..]);
      DecodeEncode(s[1..]);
    }
  }

  lemma {:induction false} ScalarsInjective(s: string, t: string)
    requires Scalars(s) == Scalars(t)
    ensures s == t
  {
    if s != "" && t != "" {
      assert Scalars(s)[0] == s[0] as int && Scalars(t)[0] == t[0] as int;
      assert Scalars(s)[1..] == Scalars(s[1..]) && Scalars(t)[1..] == Scalars(t[1..]);
      ScalarsInjective(s[1..], t[1..]);
      assert s == [s[0]] + s[1..] && t == [t[0]] + t[1..];
    }
  }

  /** UTF-8 tells strings apart. */
  lemma EncodeInjective(s: string, t: string)
    requires Encode(s) == Encode(t)
    ensures s == t
  {
    DecodeEncode(s);
    DecodeEncode(t);
    ScalarsInjective(s, t);
  }

  lemma {:induction false} EncodeJoins(s: string, t: string)
    ensures Encode(s + t) == Encode(s) + Encode(t)
  {
    if s == "" {
      assert s + t == t;
    } else {
      assert (s + t)[1..] == s[1..] + t;
      EncodeJoins(s[1..], t);
    }
  }

  lemma DigitByte(d: nat)
    requires d < 10
    ensures Encode([DIGITS[d]]) == [48 + d]
  {
    assert DIGITS[d] as int == 48 + d;
    assert Encode([DIGITS[d]]) == Utf8(48 + d) + Encode("");
  }

  lemma ReadDigit(d: nat, rest: seq<int>, so: nat)
    requires d < 10
    ensures ReadLength([48 + d] + rest, so) == ReadLength(rest, 10 * so + d)
  {
    assert ([48 + d] + rest)[1..] == rest;
  }

  lemma DecimalBytes(n: nat)
    ensures Encode(Decimal(n)) == (if n < 10 then [] else Encode(Decimal(n / 10))) + [48 + n % 10]
  {
    DigitByte(n % 10);
    if n >= 10 { EncodeJoins(Decimal(n / 10), [DIGITS[n % 10]]); }
    hide Encode;
  }

  /** Reading a number back. */
  lemma {:induction false} ReadDecimal(n: nat, rest: seq<int>)
    ensures ReadLength(Encode(Decimal(n)) + rest, 0) == ReadLength(rest, n)
  {
    hide Encode, Decimal, ReadLength;
    var d := n % 10;
    DecimalBytes(n);
    if n < 10 {
      assert [] + [48 + d] == [48 + d];
      ReadDigit(d, rest, 0);
    } else {
      var head := Encode(Decimal(n / 10));
      assert head + [48 + d] + rest == head + ([48 + d] + rest);
      ReadDecimal(n / 10, [48 + d] + rest);
      ReadDigit(d, rest, n / 10);
    }
  }

  lemma ReadPrefix(n: nat, rest: seq<int>)
    ensures ReadLength(Encode(Decimal(n)) + [COLON] + rest, 0) == Some((n, rest))
  {
    ReadDecimal(n, [COLON] + rest);
    assert Encode(Decimal(n)) + [COLON] + rest == Encode(Decimal(n)) + ([COLON] + rest);
    assert ([COLON] + rest)[1..] == rest;
  }

  function Encodings(values: seq<string>): seq<seq<int>> {
    if values == [] then [] else [Encode(values[0])] + Encodings(values[1..])
  }

  lemma EncodePrefixed(value: string)
    ensures Encode(Prefixed(value)) == Encode(Decimal(|Encode(value)|)) + [COLON] + Encode(value)
  {
    var digits := Decimal(|Encode(value)|);
    assert Encode(":") == [COLON] by { assert Encode(":") == Utf8(58) + Encode(""); }
    assert Prefixed(value) == digits + ":" + value;
    hide *;
    EncodeJoins(digits + ":", value);
    EncodeJoins(digits, ":");
  }

  lemma ParseOne(value: seq<int>, more: seq<int>, count: nat)
    requires Parse(more, count).Some?
    ensures Parse(Encode(Decimal(|value|)) + [COLON] + (value + more), count + 1)
         == Some([value] + Parse(more, count).value)
  {
    ReadPrefix(|value|, value + more);
    hide Encode, Decimal, ReadLength;
    assert (value + more)[..|value|] == value && (value + more)[|value|..] == more;
  }

  lemma FlatBytes(values: seq<string>)
    requires values != []
    ensures var value, more := Encode(values[0]), Encode(Flat(values[1..]));
            Encode(Flat(values)) == Encode(Decimal(|value|)) + [COLON] + (value + more)
  {
    EncodePrefixed(values[0]);
    hide Encode, Decimal, Prefixed;
    Flattened(Prefixed(values[0]), Flat(values[1..]), Encode(Decimal(|Encode(values[0])|)), Encode(values[0]));
  }

  lemma Flattened(first: string, rest: string, head: seq<int>, value: seq<int>)
    requires Encode(first) == head + [COLON] + value
    ensures Encode(first + rest) == head + [COLON] + (value + Encode(rest))
  {
    EncodeJoins(first, rest);
    hide Encode;
    assert head + [COLON] + value + Encode(rest) == head + [COLON] + (value + Encode(rest));
  }

  /** The parser recovers every field of a flattened list of values. */
  lemma {:induction false} ParseFlat(values: seq<string>)
    ensures Parse(Encode(Flat(values)), |values|) == Some(Encodings(values))
  {
    if values == [] {
    } else {
      ParseFlat(values[1..]);
      FlatBytes(values);
      hide Parse, Encode, Flat, Decimal;
      ParseOne(Encode(values[0]), Encode(Flat(values[1..])), |values| - 1);
    }
  }

  lemma {:induction false} EncodingsInjective(values: seq<string>, others: seq<string>)
    requires |values| == |others| && Encodings(values) == Encodings(others)
    ensures values == others
  {
    if values == [] {
    } else {
      assert Encodings(values)[0] == Encode(values[0]) && Encodings(others)[0] == Encode(others[0]);
      assert Encodings(values)[1..] == Encodings(values[1..]) && Encodings(others)[1..] == Encodings(others[1..]);
      EncodeInjective(values[0], others[0]);
      EncodingsInjective(values[1..], others[1..]);
      assert values == [values[0]] + values[1..] && others == [others[0]] + others[1..];
    }
  }

  lemma DecimalInjective(m: nat, n: nat)
    requires Decimal(m) == Decimal(n)
    ensures m == n
  {
    ReadPrefix(m, []);
    ReadPrefix(n, []);
  }

  /** A length-prefix parser recovers the six fields of any credential, in their order. */
  lemma FieldsAreRecovered(credential: Credential)
    ensures Parse(AuthenticatedData(credential), 6) == Some(Encodings(Values(EncryptionContext(credential))))
  {
    ParseFlat(Values(EncryptionContext(credential)));
  }

  /** Two different credentials never share additional authenticated data. */
  lemma AuthenticatedDataIsInjective(credential: Credential, other: Credential)
    requires AuthenticatedData(credential) == AuthenticatedData(other)
    ensures credential == other
  {
    var context, otherContext := EncryptionContext(credential), EncryptionContext(other);
    FieldsAreRecovered(credential);
    FieldsAreRecovered(other);
    EncodingsInjective(Values(context), Values(otherContext));
    assert Values(context)[5] == Values(otherContext)[5] && Values(context)[1] == Values(otherContext)[1];
    assert Values(context)[2] == Values(otherContext)[2] && Values(context)[3] == Values(otherContext)[3];
    assert Values(context)[4] == Values(otherContext)[4];
    DecimalInjective(credential.revision, other.revision);
    assert |"user"| != |"organization"|;
  }

  /** The parser's view of a number: what follows its decimal form is what follows its colon. */
  lemma DecimalIsRead(n: nat)
    ensures ReadLength(Encode(Decimal(n)) + [COLON], 0) == Some((n, []))
  {
    ReadPrefix(n, []);
    assert Encode(Decimal(n)) + [COLON] + [] == Encode(Decimal(n)) + [COLON];
  }

  /** The six fields by name: the version, the credential, the kind of its owner and the owner, the provider and the
      revision. */
  lemma FieldsInOrder(credentialId: string, ownerId: string, provider: string, revision: nat)
    ensures Parse(AuthenticatedData(Credential(credentialId, User(ownerId), provider, revision)), 6)
         == Some([Encode("1"), Encode(credentialId), Encode("user"), Encode(ownerId), Encode(provider),
                  Encode(Decimal(revision))])
    ensures Parse(AuthenticatedData(Credential(credentialId, Organization(ownerId), provider, revision)), 6)
         == Some([Encode("1"), Encode(credentialId), Encode("organization"), Encode(ownerId), Encode(provider),
                  Encode(Decimal(revision))])
  {
    hide Parse, AuthenticatedData, Encode, Decimal;
    FieldsAreRecovered(Credential(credentialId, User(ownerId), provider, revision));
    FieldsAreRecovered(Credential(credentialId, Organization(ownerId), provider, revision));
    SixEncodings("1", credentialId, "user", ownerId, provider, Decimal(revision));
    SixEncodings("1", credentialId, "organization", ownerId, provider, Decimal(revision));
  }

  lemma SixEncodings(a: string, b: string, c: string, d: string, e: string, f: string)
    ensures Encodings([a, b, c, d, e, f]) == [Encode(a), Encode(b), Encode(c), Encode(d), Encode(e), Encode(f)]
  {
    hide Encode;
    assert [a, b, c, d, e, f][1..] == [b, c, d, e, f] && [b, c, d, e, f][1..] == [c, d, e, f];
    assert [c, d, e, f][1..] == [d, e, f] && [d, e, f][1..] == [e, f] && [e, f][1..] == [f];
    assert Encodings([f]) == [Encode(f)];
    assert Encodings([e, f]) == [Encode(e), Encode(f)];
    assert Encodings([d, e, f]) == [Encode(d), Encode(e), Encode(f)];
    assert Encodings([c, d, e, f]) == [Encode(c), Encode(d), Encode(e), Encode(f)];
    assert Encodings([b, c, d, e, f]) == [Encode(b), Encode(c), Encode(d), Encode(e), Encode(f)];
  }
}
