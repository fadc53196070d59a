/**
 app/trust/identity.py: the hand-written base58 codec and the did:key names of ed25519
 public keys. Base58 follows sections 3 and 4 of draft-msporny-base58; the names follow
 "The did:key Format" of the W3C CCG did:key Method.
 */
module DidKey {
  import opened Common
  import opened Numerals

  type byte = x: nat | x < 256

  datatype DidError = InvalidDid

  /** Digits and letters without 0, I, O and l, in runs of consecutive characters. */
  const ALPHABET: string :=
    "123456789" + "ABCDEFGH" + "JKLMN" + "PQRSTUVWXYZ" + "abcdefghijk" + "mnopqrstuvwxyz"
  const DID_KEY_PREFIX: string := "did:key:z"
  const ED25519_MULTICODEC: seq<byte> := [0xed, 0x01]

  // ---- characters and digits ----

  /** Python's `s.find(c)`: the first index of `c`, or -1. */
  function Find(s: string, c: char): (i: int)
    ensures -1 <= i < |s|
    ensures i >= 0 ==> s[i] == c
    ensures i < 0 <==> c !in s
  {
    if s == [] then -1
    else if s[0] == c then 0
    else
      var rest := Find(s[1..], c);
      if rest < 0 then -1 else rest + 1
  }

  /** The base58 character of digit `d`: the alphabet's runs in closed form. */
  function CharOf(d: nat): char
    requires d < 58
  {
    if d < 9 then '1' + d as char
    else if d < 17 then 'A' + (d - 9) as char
    else if d < 22 then 'J' + (d - 17) as char
    else if d < 33 then 'P' + (d - 22) as char
    else if d < 44 then 'a' + (d - 33) as char
    else 'm' + (d - 44) as char
  }

  /** The digit of a base58 character, -1 for any other character. */
  function DigitOf(c: char): (d: int)
    ensures -1 <= d < 58
  {
    if '1' <= c <= '9' then c as int - '1' as int
    else if 'A' <= c <= 'H' then c as int - 'A' as int + 9
    else if 'J' <= c <= 'N' then c as int - 'J' as int + 17
    else if 'P' <= c <= 'Z' then c as int - 'P' as int + 22
    else if 'a' <= c <= 'k' then c as int - 'a' as int + 33
    else if 'm' <= c <= 'z' then c as int - 'm' as int + 44
    else -1
  }

  lemma AlphabetAt(d: nat)
    requires d < 58
    ensures ALPHABET[d] == CharOf(d)
  {
  }

  lemma DigitOfChar(d: nat)
    requires d < 58
    ensures DigitOf(CharOf(d)) == d
  {
  }

  /** Searching the alphabet string finds exactly the digit of the closed form. */
  lemma FindIsDigitOf(c: char)
    ensures Find(ALPHABET, c) == DigitOf(c)
  {
    var found, d := Find(ALPHABET, c), DigitOf(c);
    if found >= 0 {
      AlphabetAt(found);
      DigitOfChar(found);
    } else if d >= 0 {
      AlphabetAt(d);
    }
  }

  predicate IsBase58(s: string) {
    forall i :: 0 <= i < |s| ==> DigitOf(s[i]) >= 0
  }

  function Characters(ds: seq<nat>): (s: string)
    requires InBase(ds, 58)
    ensures |s| == |ds|
  {
    seq(|ds|, i requires 0 <= i < |ds| => CharOf(ds[i]))
  }

  function DigitsIn(s: string): (ds: seq<nat>)
    requires IsBase58(s)
    ensures InBase(ds, 58) && |ds| == |s|
  {
    seq(|s|, i requires 0 <= i < |s| => DigitOf(s[i]))
  }

  lemma DigitsOfCharacters(ds: seq<nat>)
    requires InBase(ds, 58)
    ensures IsBase58(Characters(ds)) && DigitsIn(Characters(ds)) == ds
  {
  }

  lemma CharactersOfDigits(s: string)
    requires IsBase58(s)
    ensures Characters(DigitsIn(s)) == s
  {
  }

  // ---- base58 ----

  /** The base58 text of `data`, as a change of base. */
  function Encoded(data: seq<byte>): string {
    Characters(Recode(data, 256, 58))
  }

  /** The bytes a base58 text stands for; any other character is an error. */
  function Decoded(s: string): Result<seq<byte>, DidError> {
    if IsBase58(s) then Ok(Recode(DigitsIn(s), 58, 256)) else Err(InvalidDid)
  }

  function Reverse(s: string): (r: string)
    ensures |r| == |s|
  {
    if s == [] then [] else Reverse(s[1..]) + [s[0]]
  }

  lemma ReverseSnoc(s: string, c: char)
    ensures Reverse(s + [c]) == [c] + Reverse(s)
  {
    if s != [] {
      ReverseSnoc(s[1..], c);
      assert (s + [c])[1..] == s[1..] + [c];
    }
  }

  /** app/trust/identity.py:33-40: divide by 58, collect remainders, pad with "1" per leading zero byte. */
  method B58Encode(data: seq<byte>) returns (s: string)
    ensures s == Encoded(data)
  {
    var n := Value(data, 256);
    var chars: string := [];
    ghost var digits := Digits(n, 58);
    while n != 0
      invariant Characters(digits) == Characters(Digits(n, 58)) + Reverse(chars)
    {
      DivLess(n, 58);
      var rem := n % 58;
      CharactersSnoc(Digits(n / 58, 58), rem);
      AlphabetAt(rem);
      ReverseSnoc(chars, ALPHABET[rem]);
      n := n / 58;
      chars := chars + [ALPHABET[rem]];
    }
    var pad := LeadingZeros(data);
    s := PadOnes(pad) + Reverse(chars);
    PaddedCharacters(pad, digits);
  }

  lemma PaddedCharacters(k: nat, ds: seq<nat>)
    requires InBase(ds, 58)
    ensures Characters(Zeros(k) + ds) == PadOnes(k) + Characters(ds)
  {
  }

  lemma CharactersSnoc(ds: seq<nat>, d: nat)
    requires InBase(ds, 58) && d < 58
    ensures Characters(ds + [d]) == Characters(ds) + [CharOf(d)]
  {
  }

  /** Python's int.bit_length for a non-negative integer. */
  function BitLength(n: nat): nat {
    if n == 0 then 0 else 1 + BitLength(n / 2)
  }

  /** Python's n.to_bytes(len, "big"), which raises unless `n` fits in `len` bytes. */
  function ToBytes(n: nat, len: nat): (r: seq<byte>)
    requires BitLength(n) <= 8 * len
    ensures |r| == len
  {
    if len == 0 then [] else
      BitLengthOfShift(n);
      ToBytes(n / 256, len - 1) + [n % 256]
  }

  lemma BitLengthOfShift(n: nat)
    ensures n >= 256 ==> BitLength(n) == BitLength(n / 256) + 8
    ensures n < 256 ==> BitLength(n) <= 8 && BitLength(n / 256) == 0
    ensures n > 0 ==> BitLength(n) > 0
  {
    var n2 := n / 2 / 2;
    var n4 := n2 / 2 / 2;
    var n6 := n4 / 2 / 2;
    var n8 := n6 / 2 / 2;
    assert n8 == n / 256;
    assert n >= 4 ==> BitLength(n) == BitLength(n2) + 2;
    assert n2 >= 4 ==> BitLength(n2) == BitLength(n4) + 2;
    assert n4 >= 4 ==> BitLength(n4) == BitLength(n6) + 2;
    assert n6 >= 4 ==> BitLength(n6) == BitLength(n8) + 2;
  }

  /** The byte count of line 50 is the number of base-256 digits, no more and no fewer. */
  lemma {:induction false} ToBytesIsMinimal(n: nat)
    ensures BitLength(n) <= 8 * ((BitLength(n) + 7) / 8)
    ensures ToBytes(n, (BitLength(n) + 7) / 8) == Digits(n, 256)
    decreases n
  {
    if n != 0 {
      BitLengthOfShift(n);
      DivLess(n, 256);
      ToBytesIsMinimal(n / 256);
      if n < 256 {
        assert (BitLength(n) + 7) / 8 == 1;
      } else {
        assert (BitLength(n) + 7) / 8 == (BitLength(n / 256) + 7) / 8 + 1;
      }
    }
  }

  /** app/trust/identity.py:43-52: accumulate `n * 58 + index`, reject foreign characters, restore the padding. */
  method B58Decode(s: string) returns (r: Result<seq<byte>, DidError>)
    ensures r == Decoded(s)
  {
    var n: nat := 0;
    for i := 0 to |s|
      invariant Accumulated(s[..i], n)
    {
      var idx := Find(ALPHABET, s[i]);
      FindIsDigitOf(s[i]);
      if idx < 0 {
        ForeignCharacter(s, i);
        return Err(InvalidDid);
      }
      OneMoreDigit(s, i, n);
      n := n * 58 + idx;
    }
    assert s == s[..|s|];
    var body: seq<byte> := if n != 0 then ToBytes(n, (BitLength(n) + 7) / 8) else [];
    DecodedParts(s, n);
    r := Ok(PadBytes(LeadingOnes(s)) + body);
  }

  predicate Accumulated(s: string, n: nat) {
    IsBase58(s) && n == Value(DigitsIn(s), 58)
  }

  lemma OneMoreDigit(s: string, i: nat, n: nat)
    requires i < |s| && Accumulated(s[..i], n) && DigitOf(s[i]) >= 0
    ensures Accumulated(s[..i + 1], n * 58 + DigitOf(s[i]))
  {
    DigitsSnoc(s[..i], s[i]);
    assert s[..i + 1] == s[..i] + [s[i]];
  }

  lemma ForeignCharacter(s: string, i: nat)
    requires i < |s| && DigitOf(s[i]) < 0
    ensures Decoded(s) == Err(InvalidDid)
  {
  }

  lemma DecodedParts(s: string, n: nat)
    requires Accumulated(s, n)
    ensures Decoded(s)
         == Ok(PadBytes(LeadingOnes(s)) + if n != 0 then ToBytes(n, (BitLength(n) + 7) / 8) else [])
  {
    ToBytesIsMinimal(n);
    LeadingOnesAreZeros(s);
  }

  function PadBytes(k: nat): (r: seq<byte>)
    ensures r == Zeros(k)
  {
    seq(k, _ => 0)
  }

  function PadOnes(k: nat): string {
    seq(k, _ => '1')
  }

  lemma DigitsSnoc(s: string, c: char)
    requires IsBase58(s) && DigitOf(c) >= 0
    ensures IsBase58(s + [c])
    ensures Value(DigitsIn(s + [c]), 58) == Value(DigitsIn(s), 58) * 58 + DigitOf(c)
  {
    ValueSnoc(DigitsIn(s), DigitOf(c), 58);
    assert DigitsIn(s + [c]) == DigitsIn(s) + [DigitOf(c)];
  }

  /** `len(s) - len(s.lstrip("1"))`. */
  function LeadingOnes(s: string): nat {
    if s == [] || s[0] != '1' then 0 else 1 + LeadingOnes(s[1..])
  }

  lemma DigitsTail(s: string)
    requires s != [] && IsBase58(s)
    ensures DigitsIn(s)[0] == DigitOf(s[0]) && DigitsIn(s)[1..] == DigitsIn(s[1..])
  {
  }

  lemma {:induction false} LeadingOnesAreZeros(s: string)
    requires IsBase58(s)
    ensures LeadingOnes(s) == LeadingZeros(DigitsIn(s))
    decreases |s|
  {
    if s != [] {
      LeadingOnesAreZeros(s[1..]);
      DigitsTail(s);
    }
  }

  /** Decoding an encoded byte string returns it, leading zeros and empty included. */
  lemma DecodeEncoded(data: seq<byte>)
    ensures Decoded(Encoded(data)) == Ok(data)
  {
    DigitsOfCharacters(Recode(data, 256, 58));
    RecodeRoundTrip(data, 256, 58);
  }

  /** Encoding a decoded text returns it: no byte string has two base58 texts. */
  lemma EncodeDecoded(s: string)
    ensures Decoded(s).Ok? <==> IsBase58(s)
    ensures Decoded(s).Ok? ==> Encoded(Decoded(s).value) == s
  {
    if IsBase58(s) {
      RecodeRoundTrip(DigitsIn(s), 58, 256);
      CharactersOfDigits(s);
    }
  }

  // ---- did:key ----

  function DidFromPublicKey(key: seq<byte>): string {
    DID_KEY_PREFIX + Encoded(ED25519_MULTICODEC + key)
  }

  function PublicKeyFromDid(did: string): Result<seq<byte>, DidError> {
    if !(DID_KEY_PREFIX <= did) then Err(InvalidDid)
    else
      match Decoded(did[|DID_KEY_PREFIX|..])
      case Err(e) => Err(e)
      case Ok(raw) =>
        if |raw| != 34 || raw[..2] != ED25519_MULTICODEC then Err(InvalidDid)
        else Ok(raw[2..])
  }

  /** A name decodes to its key exactly for 32-byte keys, and is refused for every other length. */
  lemma DidRoundTrip(key: seq<byte>)
    ensures PublicKeyFromDid(DidFromPublicKey(key)) == if |key| == 32 then Ok(key) else Err(InvalidDid)
  {
    var raw := ED25519_MULTICODEC + key;
    var did := DidFromPublicKey(key);
    assert did[|DID_KEY_PREFIX|..] == Encoded(raw);
    DecodeEncoded(raw);
    assert raw[..2] == ED25519_MULTICODEC && raw[2..] == key;
  }

  /** Every accepted name is the one printed for its key, so no key has two accepted names. */
  lemma AcceptedDidIsCanonical(did: string)
    requires PublicKeyFromDid(did).Ok?
    ensures |PublicKeyFromDid(did).value| == 32
    ensures did == DidFromPublicKey(PublicKeyFromDid(did).value)
  {
    var text := did[|DID_KEY_PREFIX|..];
    EncodeDecoded(text);
    var raw := Decoded(text).value;
    assert raw == ED25519_MULTICODEC + raw[2..];
    assert did == DID_KEY_PREFIX + text;
  }

  lemma OneNamePerKey(a: string, b: string)
    requires PublicKeyFromDid(a).Ok? && PublicKeyFromDid(a) == PublicKeyFromDid(b)
    ensures a == b
  {
    AcceptedDidIsCanonical(a);
    AcceptedDidIsCanonical(b);
  }

  // ---- the shape of a name ----

  lemma PowersForDids()
    ensures Pow(256, 32) == 115792089237316195423570985008687907853269984665640564039457584007913129639936
    ensures Pow(58, 44) == 389790918707373377135528568990913592653094657612049369038476873218241589149696
  {
    assert Pow(256, 4) == 4294967296;
    PowSum(256, 4, 4);
    PowSum(256, 8, 8);
    PowSum(256, 16, 16);
    assert Pow(58, 5) == 656356768;
    PowSum(58, 5, 5);
    assert Pow(58, 11) == 58 * Pow(58, 10);
    PowSum(58, 11, 11);
    PowSum(58, 22, 22);
  }

  lemma ValueOfRaw(key: seq<byte>)
    requires |key| == 32
    ensures 0xed01 * Pow(256, 32) <= Value(ED25519_MULTICODEC + key, 256) < 0xed02 * Pow(256, 32)
  {
    ValueConcat(ED25519_MULTICODEC, key, 256);
    ValueBound(key, 256);
    assert Value(ED25519_MULTICODEC, 256) == 0xed01 by {
      var codec: seq<nat> := ED25519_MULTICODEC;
      assert codec[..1] == [0xed];
      ValueSnoc([], 0xed, 256);
      assert [] + [0xed] == codec[..1];
      assert Value(codec[..1], 256) == 0xed;
    }
  }

  lemma LeadingDigits()
    ensures Digits(18023, 58) == [5, 20, 43]
  {
  }

  /** The name of every 32-byte key has 56 characters and starts with "did:key:z6Mk". */
  lemma DidShape(key: seq<byte>)
    requires |key| == 32
    ensures |DidFromPublicKey(key)| == 56
    ensures "did:key:z6Mk" <= DidFromPublicKey(key)
  {
    var raw: seq<nat> := ED25519_MULTICODEC + key;
    var n := Value(raw, 256);
    ValueOfRaw(key);
    PowersForDids();
    DigitsAbove(n, 58, 44, 18023);
    LeadingDigits();
    var digits := Digits(n, 58);
    assert digits[0] == digits[..3][0] && digits[1] == digits[..3][1] && digits[2] == digits[..3][2];
    assert raw[0] == 0xed;
    assert Recode(raw, 256, 58) == digits;
    assert Characters(digits)[..3] == "6Mk";
    assert DidFromPublicKey(key)[..12] == DID_KEY_PREFIX + "6Mk";
  }
}
