/**
 * The Uuid value object: an immutable wrapper around the canonical textual
 * form of a 128-bit universally unique identifier (section 3 of RFC 4122).
 * It is built from a caller's string, which must be in that form, or from a
 * fresh random identifier; it compares by its string value.
 */
module UuidVo {
  import opened Wrappers
  import ValueObject

  type Byte = x: int | 0 <= x < 256

  /** A hexadecimal digit in either case, as section 3 of RFC 4122 allows on input. */
  predicate IsHexChar(c: char) {
    ('0' <= c <= '9') || ('a' <= c <= 'f') || ('A' <= c <= 'F')
  }

  /** A lower-case hexadecimal digit, the form RFC 4122 prescribes on output. */
  predicate IsLowerHexChar(c: char) {
    ('0' <= c <= '9') || ('a' <= c <= 'f')
  }

  predicate IsHexString(s: string) {
    forall i :: 0 <= i < |s| ==> IsHexChar(s[i])
  }

  predicate IsLowerHexString(s: string) {
    forall i :: 0 <= i < |s| ==> IsLowerHexChar(s[i])
  }

  /** The canonical textual form: five groups of 8, 4, 4, 4 and 12
      hexadecimal digits separated by hyphens (36 characters). */
  predicate ValidUuid(s: string) {
    |s| == 36 &&
    s[8] == '-' && s[13] == '-' && s[18] == '-' && s[23] == '-' &&
    IsHexString(s[..8]) && IsHexString(s[9..13]) && IsHexString(s[14..18]) &&
    IsHexString(s[19..23]) && IsHexString(s[24..])
  }

  /** The same form stated character by character: 36 characters, hyphens
      at positions 8, 13, 18 and 23, and a hexadecimal digit of either case
      at every other position. */
  lemma ValidUuidByPosition(s: string)
    ensures ValidUuid(s) <==>
      |s| == 36 && forall i :: 0 <= i < |s| ==>
        if i == 8 || i == 13 || i == 18 || i == 23 then s[i] == '-' else IsHexChar(s[i])
  {
    if |s| == 36 {
      assert forall i :: 0 <= i < 8 ==> s[..8][i] == s[i];
      assert forall i :: 9 <= i < 13 ==> s[9..13][i - 9] == s[i];
      assert forall i :: 14 <= i < 18 ==> s[14..18][i - 14] == s[i];
      assert forall i :: 19 <= i < 23 ==> s[19..23][i - 19] == s[i];
      assert forall i :: 24 <= i < 36 ==> s[24..][i - 24] == s[i];
    }
  }

  // ---------------------------------------------------------------------
  // Hexadecimal digits and octets

  function HexDigit(n: int): (c: char)
    requires 0 <= n < 16
    ensures IsLowerHexChar(c)
  {
    if n < 10 then ('0' as int + n) as char else ('a' as int + n - 10) as char
  }

  /** Octets written as two lower-case hexadecimal digits each, high nibble first. */
  function Hex(bytes: seq<Byte>): (s: string)
    ensures |s| == 2 * |bytes|
    ensures IsLowerHexString(s) && IsHexString(s)
  {
    if bytes == [] then []
    else [HexDigit(bytes[0] / 16), HexDigit(bytes[0] % 16)] + Hex(bytes[1..])
  }

  /** Five groups of 8, 4, 4, 4 and 12 characters joined by hyphens. */
  function Hyphenate(g1: string, g2: string, g3: string, g4: string, g5: string): (s: string)
    requires |g1| == 8 && |g2| == 4 && |g3| == 4 && |g4| == 4 && |g5| == 12
    ensures |s| == 36
    ensures s[8] == '-' && s[13] == '-' && s[18] == '-' && s[23] == '-'
    ensures s[..8] == g1 && s[9..13] == g2 && s[14..18] == g3 && s[19..23] == g4 && s[24..] == g5
  {
    var s := g1 + "-" + g2 + "-" + g3 + "-" + g4 + "-" + g5;
    assert s[..8] == g1;
    assert s[9..13] == g2;
    assert s[14..18] == g3;
    assert s[19..23] == g4;
    assert s[24..] == g5;
    s
  }

  /** The canonical form of 16 octets: 8-4-4-4-12 lower-case hexadecimal digits. */
  function Format(bytes: seq<Byte>): (s: string)
    requires |bytes| == 16
    ensures ValidUuid(s)
    ensures s[..8] == Hex(bytes[..4]) && s[9..13] == Hex(bytes[4..6])
    ensures s[14..18] == Hex(bytes[6..8]) && s[19..23] == Hex(bytes[8..10])
    ensures s[24..] == Hex(bytes[10..])
  {
    Hyphenate(Hex(bytes[..4]), Hex(bytes[4..6]), Hex(bytes[6..8]), Hex(bytes[8..10]), Hex(bytes[10..]))
  }

  // ---------------------------------------------------------------------
  // Random generation (version 4, section 4.4 of RFC 4122)

  /** Sets the version field to 4 and the variant field to the RFC 4122 variant. */
  function V4Bytes(random: seq<Byte>): (bytes: seq<Byte>)
    requires |random| == 16
    ensures |bytes| == 16
    ensures bytes[6] / 16 == 4 && 8 <= bytes[8] / 16 < 12
    ensures forall i :: 0 <= i < 16 && i != 6 && i != 8 ==> bytes[i] == random[i]
    ensures bytes[6] % 16 == random[6] % 16 && bytes[8] % 64 == random[8] % 64
  {
    random[6 := random[6] % 16 + 0x40][8 := random[8] % 64 + 0x80]
  }

  /** A random identifier generated from 16 octets of entropy. */
  function GenerateV4(random: seq<Byte>): (s: string)
    requires |random| == 16
    ensures ValidUuid(s)
    ensures s[14] == '4' && s[19] in "89ab"
    ensures IsLowerHexString(s[..8]) && IsLowerHexString(s[9..13]) && IsLowerHexString(s[14..18])
    ensures IsLowerHexString(s[19..23]) && IsLowerHexString(s[24..])
  {
    var b := V4Bytes(random);
    var s := Format(b);
    assert s[14] == s[14..18][0] == Hex(b[6..8])[0] == HexDigit(b[6] / 16);
    assert s[19] == s[19..23][0] == Hex(b[8..10])[0] == HexDigit(b[8] / 16);
    s
  }

  // ---------------------------------------------------------------------
  // The value object

  datatype UuidError = InvalidUuidError

  /** A Uuid holds its identifier string as given. */
  datatype Uuid = Uuid(id: string)
  {
    /** The value-object view: class `Uuid` with the single property `id`. */
    function AsObject(): ValueObject.Obj {
      ValueObject.Obj("Uuid", map["id" := ValueObject.PStr(id)])
    }

    /** `equals` inherited from the value-object base: true exactly when the
        other Uuid is present and has the same string. */
    function Equals(other: ValueObject.Nullable<Uuid>): (r: bool)
      ensures r <==> other.Present? && other.value.id == id
    {
      var arg := match other
        case Null => ValueObject.Null
        case Undefined => ValueObject.Undefined
        case Present(u) => ValueObject.Present(u.AsObject());
      var res := ValueObject.Equals(AsObject(), arg);
      assert other.Present? && res ==> other.value.AsObject().props["id"] == AsObject().props["id"];
      res
    }
  }

  /** A Uuid whose string is in canonical form. Every Uuid the value object
      lets exist is of this kind, since each construction path validates. */
  type ValidatedUuid = u: Uuid | ValidUuid(u.id)
    witness Uuid(GenerateV4(seq(16, i => 0)))

  /** `new Uuid(id?)`: the given string, or a freshly generated one when none
      is given, and in both cases validated before the value exists. On an
      invalid string construction fails with InvalidUuidError. The entropy a
      generation would consume is the parameter `random`. */
  method NewUuid(value: Option<string>, random: seq<Byte>) returns (r: Result<ValidatedUuid, UuidError>)
    requires |random| == 16
    ensures value.Some? ==> (r.Ok? <==> ValidUuid(value.value))
    ensures value.Some? && r.Ok? ==> r.value.id == value.value
    ensures value.None? ==> r.Ok? && r.value.id == GenerateV4(random)
    ensures r.Ok? ==> ValidUuid(r.value.id)
    ensures r.Err? ==> r.error == InvalidUuidError
  {
    var id := if value.Some? then value.value else GenerateV4(random);
    // validate()
    if ValidUuid(id) {
      r := Ok(Uuid(id));
    } else {
      r := Err(InvalidUuidError);
    }
  }

  /** `Uuid.create()`: a new randomly generated identifier. */
  method Create(random: seq<Byte>) returns (u: ValidatedUuid)
    requires |random| == 16
    ensures ValidUuid(u.id) && u.id[14] == '4'
    ensures u.id == GenerateV4(random)
  {
    var r := NewUuid(None, random);
    u := r.value;
  }

  // ---------------------------------------------------------------------
  // The examples the value object is specified by

  lemma SampleIsValid()
    ensures ValidUuid("123e4567-e89b-12d3-a456-426614174000")
  {
    SampleGroupsAreHex();
    SampleIsHyphenated();
  }

  lemma OtherSampleIsValid()
    ensures ValidUuid("123e4567-e89b-12d3-a456-426614174001")
  {
    SampleGroupsAreHex();
    OtherSampleIsHyphenated();
  }

  lemma SampleGroupsAreHex()
    ensures IsHexString("123e4567") && IsHexString("e89b") && IsHexString("12d3")
    ensures IsHexString("a456") && IsHexString("426614174000") && IsHexString("426614174001")
  {
    HexDigitsOnly("123e4567");
    HexDigitsOnly("e89b");
    HexDigitsOnly("12d3");
    HexDigitsOnly("a456");
    HexDigitsOnly("426614174000");
    HexDigitsOnly("426614174001");
  }

  lemma HexDigitsOnly(g: string)
    requires forall i :: 0 <= i < |g| ==> g[i] in "0123456789abcdef"
    ensures IsHexString(g)
  {
  }

  lemma SampleIsHyphenated()
    ensures "123e4567-e89b-12d3-a456-426614174000"
         == Hyphenate("123e4567", "e89b", "12d3", "a456", "426614174000")
  {
  }

  lemma OtherSampleIsHyphenated()
    ensures "123e4567-e89b-12d3-a456-426614174001"
         == Hyphenate("123e4567", "e89b", "12d3", "a456", "426614174001")
  {
  }

  lemma MalformedIsInvalid()
    ensures !ValidUuid("invalid-uuid")
  {
  }

  /** Two Uuids built with `new Uuid(...)` from the same sample are equal,
      and two built from the two different samples are not. */
  method SampleEquality(random: seq<Byte>) returns (same: bool, different: bool)
    requires |random| == 16
    ensures same && !different
  {
    SampleIsValid();
    OtherSampleIsValid();
    var u1 := NewUuid(Some("123e4567-e89b-12d3-a456-426614174000"), random);
    var u2 := NewUuid(Some("123e4567-e89b-12d3-a456-426614174000"), random);
    var u3 := NewUuid(Some("123e4567-e89b-12d3-a456-426614174001"), random);
    same := u1.value.Equals(ValueObject.Present(u2.value));
    different := u1.value.Equals(ValueObject.Present(u3.value));
  }
}
