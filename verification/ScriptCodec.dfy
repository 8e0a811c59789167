/** The packed script of an invoice: the Molecule table that two programs decode on their own, one
    for the mint and one for the faucet, and the hexadecimal texts around it. */
module ScriptCodec {
  import opened Ecash

  type Byte = n: nat | n < 256

  // ---- little-endian words ----

  const WORD: nat := 0x1_0000_0000

  function Word(n: nat): seq<Byte>
    requires n < WORD
  {
    [n % 256, n / 256 % 256, n / 65536 % 256, n / 16777216]
  }

  /** `read_u32_le`, and the faucet's `readUint32`: four bytes, or an error past the end. */
  function ReadWord(bs: seq<Byte>, offset: nat): (r: Option<nat>)
    ensures r.Some? ==> r.value < WORD
  {
    if offset + 4 <= |bs| then Some(Joined(bs[offset], bs[offset + 1], bs[offset + 2], bs[offset + 3])) else None
  }

  function Joined(a: nat, b: nat, c: nat, d: nat): nat { a + b * 256 + c * 65536 + d * 16777216 }

  lemma WordReads(n: nat)
    requires n < WORD
    ensures ReadWord(Word(n), 0) == Some(n)
  {
    assert n == n % 256 + n / 256 * 256;
    assert n / 256 == n / 256 % 256 + n / 256 / 256 * 256 && n / 256 / 256 == n / 65536;
    assert n / 65536 == n / 65536 % 256 + n / 65536 / 256 * 256 && n / 65536 / 256 == n / 16777216;
  }

  lemma ReadIsWord(bs: seq<Byte>, offset: nat)
    requires ReadWord(bs, offset).Some?
    ensures bs[offset..offset + 4] == Word(ReadWord(bs, offset).value)
  {
    JoinedParts(bs[offset], bs[offset + 1], bs[offset + 2], bs[offset + 3]);
  }

  lemma JoinedParts(a: nat, b: nat, c: nat, d: nat)
    requires a < 256 && b < 256 && c < 256 && d < 256
    ensures var n := Joined(a, b, c, d); n % 256 == a && n / 256 % 256 == b && n / 65536 % 256 == c && n / 16777216 == d
  {
    var n := Joined(a, b, c, d);
    Shift(n, a, b + 256 * (c + 256 * d));
    Shift(n / 256, b, c + 256 * d);
    Shift(n / 256 / 256, c, d);
    assert n / 256 / 256 == n / 65536 && n / 65536 / 256 == n / 16777216;
  }

  lemma Shift(n: nat, low: nat, rest: nat)
    requires low < 256 && n == low + 256 * rest
    ensures n % 256 == low && n / 256 == rest
  {
  }

  // ---- the Molecule encoding ----

  datatype HashType = Data | Type | Data1 | Data2

  function HashByte(h: HashType): Byte {
    match h case Data => 0 case Type => 1 case Data1 => 2 case Data2 => 4
  }

  function FromHashByte(b: Byte): Option<HashType> {
    if b == 0 then Some(Data) else if b == 1 then Some(Type) else if b == 2 then Some(Data1) else if b == 4 then Some(Data2) else None
  }

  datatype Packed = Packed(codeHash: seq<Byte>, hashType: HashType, args: seq<Byte>) {
    predicate Valid() { |codeHash| == 32 && 53 + |args| < WORD }
  }

  /** CKB RFC 0008: a table is its full size, the offset of each field, and the fields; a fixed
      vector of bytes is its length and its items. */
  function Encode(p: Packed): seq<Byte>
    requires p.Valid()
  {
    Word(53 + |p.args|) + Word(16) + Word(48) + Word(49) + p.codeHash + [HashByte(p.hashType)] + Word(|p.args|) + p.args
  }

  // ---- the mint's decoder ----

  function CheckedSub(a: nat, b: nat): Option<nat> { if a >= b then Some(a - b) else None }

  function MintDecode(bs: seq<Byte>): Option<Packed> {
    var total, code, hash, args := ReadWord(bs, 0), ReadWord(bs, 4), ReadWord(bs, 8), ReadWord(bs, 12);
    if total.None? || code.None? || hash.None? || args.None? then None
    else if total.value != |bs| || code.value != 16 || CheckedSub(hash.value, code.value) != Some(32) || CheckedSub(args.value, hash.value) != Some(1) then None
    else if hash.value >= |bs| || FromHashByte(bs[hash.value]).None? then None
    else
      var length := ReadWord(bs, args.value);
      if length.None? || args.value + 4 + length.value != |bs| then None
      else Some(Packed(bs[code.value..hash.value], FromHashByte(bs[hash.value]).value, bs[args.value + 4..args.value + 4 + length.value]))
  }

  // ---- the faucet's decoder ----

  function FaucetDecode(bs: seq<Byte>): Option<Packed> {
    var total, code, hash, args := ReadWord(bs, 0), ReadWord(bs, 4), ReadWord(bs, 8), ReadWord(bs, 12);
    if total.None? || code.None? || hash.None? || args.None? then None
    else if total.value != |bs| || code.value != 16 || hash.value - code.value != 32 || args.value - hash.value != 1 then None
    else
      var length := ReadWord(bs, args.value);
      if length.None? || args.value + 4 + length.value != |bs| then None
      else if hash.value >= |bs| || FromHashByte(bs[hash.value]).None? then None
      else Some(Packed(bs[code.value..hash.value], FromHashByte(bs[hash.value]).value, bs[args.value + 4..]))
  }

  // ---- hexadecimal texts ----

  function Digit(c: char): Option<nat> {
    if '0' <= c <= '9' then Some(c as nat - '0' as nat)
    else if 'a' <= c <= 'f' then Some(c as nat - 'a' as nat + 10)
    else if 'A' <= c <= 'F' then Some(c as nat - 'A' as nat + 10)
    else None
  }

  predicate IsHex(t: string) { forall i :: 0 <= i < |t| ==> Digit(t[i]).Some? }

  function Pairs(t: string): seq<Byte>
    requires IsHex(t) && |t| % 2 == 0
  {
    if t == "" then [] else
      assert forall i :: 0 <= i < |t[2..]| ==> t[2..][i] == t[i + 2];
      [Digit(t[0]).value * 16 + Digit(t[1]).value] + Pairs(t[2..])
  }

  /** The mint accepts only a lower-case prefix. */
  function MintBytes(t: string): Option<seq<Byte>> {
    if !("0x" <= t) then None
    else
      var body := t[2..];
      if body == "" || |body| % 2 != 0 || !IsHex(body) then None else Some(Pairs(body))
  }

  /** The faucet's pattern ignores case, in the prefix too. */
  function FaucetBytes(t: string): Option<seq<Byte>> {
    if |t| < 4 || |t| % 2 != 0 || t[0] != '0' || t[1] !in {'x', 'X'} || !IsHex(t[2..]) then None else Some(Pairs(t[2..]))
  }

  function HexDigit(n: nat): char
    requires n < 16
  {
    if n < 10 then '0' + n as char else 'a' + (n - 10) as char
  }

  function HexText(bs: seq<Byte>): string {
    if bs == [] then "" else [HexDigit(bs[0] / 16), HexDigit(bs[0] % 16)] + HexText(bs[1..])
  }

  function Prefixed(bs: seq<Byte>): string { "0x" + HexText(bs) }

  function HashTypeName(h: HashType): string {
    match h case Data => "data" case Type => "type" case Data1 => "data1" case Data2 => "data2"
  }

  /** A script as both programs hand it on. */
  datatype Script = Script(codeHash: string, hashType: string, args: string)

  function Shown(p: Packed): Script { Script(Prefixed(p.codeHash), HashTypeName(p.hashType), Prefixed(p.args)) }

  function MintScript(t: string): Option<Script> {
    if MintBytes(t).None? || MintDecode(MintBytes(t).value).None? then None else Some(Shown(MintDecode(MintBytes(t).value).value))
  }

  function FaucetScript(t: string): Option<Script> {
    if FaucetBytes(t).None? || FaucetDecode(FaucetBytes(t).value).None? then None else Some(Shown(FaucetDecode(FaucetBytes(t).value).value))
  }

  // ---- the decoders accept exactly the encodings ----

  /** The parts of an encoding, and where they lie. */
  lemma Layout(a: seq<Byte>, b: seq<Byte>, c: seq<Byte>, d: seq<Byte>, code: seq<Byte>, hash: Byte, length: seq<Byte>, args: seq<Byte>)
    requires |a| == |b| == |c| == |d| == |length| == 4 && |code| == 32
    ensures var bs := a + b + c + d + code + [hash] + length + args;
      && |bs| == 53 + |args| && bs[0..4] == a && bs[4..8] == b && bs[8..12] == c && bs[12..16] == d
      && bs[16..48] == code && bs[48] == hash && bs[49..53] == length && bs[53..] == args
  {
  }

  lemma ReadsSlice(bs: seq<Byte>, offset: nat, n: nat)
    requires n < WORD && offset + 4 <= |bs| && bs[offset..offset + 4] == Word(n)
    ensures ReadWord(bs, offset) == Some(n)
  {
    WordReads(n);
    var w := Word(n);
    assert w[0] == bs[offset] && w[1] == bs[offset + 1] && w[2] == bs[offset + 2] && w[3] == bs[offset + 3];
  }

  lemma EncodedWords(p: Packed)
    requires p.Valid()
    ensures var bs := Encode(p);
      && |bs| == 53 + |p.args| && ReadWord(bs, 0) == Some(|bs|) && ReadWord(bs, 4) == Some(16) && ReadWord(bs, 8) == Some(48)
      && ReadWord(bs, 12) == Some(49) && ReadWord(bs, 49) == Some(|p.args|)
      && bs[16..48] == p.codeHash && bs[48] == HashByte(p.hashType) && bs[53..] == p.args
  {
    Layout(Word(53 + |p.args|), Word(16), Word(48), Word(49), p.codeHash, HashByte(p.hashType), Word(|p.args|), p.args);
    var bs := Encode(p);
    hide Word, ReadWord, Encode;
    ReadsSlice(bs, 0, |bs|);
    ReadsSlice(bs, 4, 16);
    ReadsSlice(bs, 8, 48);
    ReadsSlice(bs, 12, 49);
    ReadsSlice(bs, 49, |p.args|);
  }

  lemma DecodesEncoded(p: Packed)
    requires p.Valid()
    ensures MintDecode(Encode(p)) == Some(p)
  {
    EncodedWords(p);
    hide Encode, ReadWord;
    assert Encode(p)[53..53 + |p.args|] == Encode(p)[53..];
  }

  lemma DecodedWords(bs: seq<Byte>)
    requires MintDecode(bs).Some?
    ensures var p := MintDecode(bs).value;
      && p.Valid() && |bs| == 53 + |p.args| && ReadWord(bs, 0) == Some(|bs|) && ReadWord(bs, 4) == Some(16)
      && ReadWord(bs, 8) == Some(48)
      && ReadWord(bs, 12) == Some(49) && ReadWord(bs, 49) == Some(|p.args|)
      && bs[16..48] == p.codeHash && bs[48] == HashByte(p.hashType) && bs[53..] == p.args
  {
    assert ReadWord(bs, 0).Some? ==> |bs| >= 4;
    hide ReadWord;
    assert bs[53..|bs|] == bs[53..];
  }

  lemma EncodesDecoded(bs: seq<Byte>)
    requires MintDecode(bs).Some?
    ensures MintDecode(bs).value.Valid() && Encode(MintDecode(bs).value) == bs
  {
    DecodedWords(bs);
    hide MintDecode, ReadWord, Word;
    ReadIsWord(bs, 0);
    ReadIsWord(bs, 4);
    ReadIsWord(bs, 8);
    ReadIsWord(bs, 12);
    ReadIsWord(bs, 49);
    Rejoin(bs);
  }

  lemma Rejoin(bs: seq<Byte>)
    requires |bs| >= 53
    ensures bs == bs[0..4] + bs[4..8] + bs[8..12] + bs[12..16] + bs[16..48] + [bs[48]] + bs[49..53] + bs[53..]
  {
  }

  /** The bytes of an encoding, one by one, little end first. */
  lemma EncodingBytes(p: Packed)
    requires p.Valid()
    ensures var bs, n, m := Encode(p), 53 + |p.args|, |p.args|;
      && |bs| == n && bs[0..4] == [n % 256, n / 256 % 256, n / 65536 % 256, n / 16777216]
      && bs[4..16] == [16, 0, 0, 0, 48, 0, 0, 0, 49, 0, 0, 0] && bs[16..48] == p.codeHash
      && bs[48] == (match p.hashType case Data => 0 case Type => 1 case Data1 => 2 case Data2 => 4)
      && bs[49..53] == [m % 256, m / 256 % 256, m / 65536 % 256, m / 16777216] && bs[53..] == p.args
  {
    Layout(Word(53 + |p.args|), Word(16), Word(48), Word(49), p.codeHash, HashByte(p.hashType), Word(|p.args|), p.args);
    var bs := Encode(p);
    assert bs[4..16] == bs[4..8] + bs[8..12] + bs[12..16];
  }

  /** The decoder is the inverse of the encoder, both ways: it accepts exactly the encodings of
      scripts with a 32-byte code hash and a known hash type. */
  lemma DecodeIsInverse(bs: seq<Byte>, p: Packed)
    ensures MintDecode(bs) == Some(p) <==> p.Valid() && bs == Encode(p)
  {
    if MintDecode(bs) == Some(p) { EncodesDecoded(bs); }
    if p.Valid() { DecodesEncoded(p); }
    hide MintDecode, Encode;
  }

  lemma DecodersAgree(bs: seq<Byte>)
    ensures FaucetDecode(bs) == MintDecode(bs)
  {
    hide ReadWord, FromHashByte;
    if MintDecode(bs).Some? || FaucetDecode(bs).Some? { assert bs[53..] == bs[53..|bs|]; }
  }

  /** An encoding in hexadecimal under the prefix `0X`. */
  ghost predicate UpperCase(t: string) {
    "0X" <= t && IsHex(t[2..]) && |t| % 2 == 0 && exists p: Packed :: p.Valid() && Pairs(t[2..]) == Encode(p)
  }

  lemma UpperCaseFound(t: string)
    requires "0X" <= t && FaucetScript(t).Some?
    ensures UpperCase(t)
  {
    hide FaucetDecode, MintDecode, Shown, Pairs, IsHex, Encode;
    var bs := FaucetBytes(t).value;
    DecodersAgree(bs);
    DecodeIsInverse(bs, MintDecode(bs).value);
  }

  lemma UpperPrefix(t: string)
    requires "0X" <= t
    ensures |t| >= 2 && t[0] == '0' && t[1] == 'X' && !("0x" <= t)
  {
    assert "0X"[0] == '0' && "0X"[1] == 'X' && "0x"[1] == 'x';
  }

  lemma SomeBytes(body: string, p: Packed)
    requires IsHex(body) && |body| % 2 == 0 && p.Valid() && Pairs(body) == Encode(p)
    ensures |body| >= 2
  {
    assert |Encode(p)| == 53 + |p.args| by { EncodedWords(p); }
    hide Encode;
    assert body != "";
  }

  lemma UpperBytes(t: string, bs: seq<Byte>)
    requires "0X" <= t && IsHex(t[2..]) && |t| % 2 == 0 && |t[2..]| >= 2 && Pairs(t[2..]) == bs
    ensures FaucetBytes(t) == Some(bs)
  {
    UpperPrefix(t);
    hide IsHex, Pairs;
  }

  lemma UpperCaseReads(t: string, p: Packed)
    requires "0X" <= t && IsHex(t[2..]) && |t| % 2 == 0 && p.Valid() && Pairs(t[2..]) == Encode(p)
    ensures FaucetScript(t).Some?
  {
    hide FaucetBytes, FaucetDecode, MintDecode, Shown, Pairs, IsHex, Encode;
    SomeBytes(t[2..], p);
    UpperBytes(t, Encode(p));
    DecodersAgree(Encode(p));
    DecodeIsInverse(Encode(p), p);
  }

  lemma NeitherReads(t: string)
    requires !("0x" <= t) && !("0X" <= t)
    ensures FaucetBytes(t).None?
  {
    if |t| >= 2 { assert "0x" == ['0', 'x'] && "0X" == ['0', 'X'] && t[..2] == [t[0], t[1]]; }
    hide IsHex, Pairs;
  }

  lemma LowerReads(t: string)
    requires "0x" <= t
    ensures FaucetBytes(t) == MintBytes(t) && !("0X" <= t)
  {
    assert "0x"[0] == '0' && "0x"[1] == 'x' && "0X"[1] == 'X';
    hide IsHex, Pairs;
  }

  lemma MintReadsLower(t: string)
    ensures "0X" <= t ==> MintScript(t).None?
  {
    if "0X" <= t { UpperPrefix(t); }
    hide MintDecode, Pairs, IsHex, Shown;
  }

  /** The two programs read the same script, or both none, from exactly those texts that are not an
      encoding under the prefix `0X`; that one the faucet alone accepts. */
  lemma ProgramsAgree(t: string)
    ensures MintScript(t) == FaucetScript(t) <==> !UpperCase(t)
  {
    hide MintBytes, FaucetBytes, MintDecode, FaucetDecode, Pairs, IsHex, Shown, Encode;
    if "0X" <= t {
      MintReadsLower(t);
      if FaucetScript(t).Some? { UpperCaseFound(t); }
      if UpperCase(t) {
        var p: Packed :| p.Valid() && Pairs(t[2..]) == Encode(p);
        UpperCaseReads(t, p);
      }
    } else if "0x" <= t {
      LowerReads(t);
      if MintBytes(t).Some? { DecodersAgree(MintBytes(t).value); }
    } else {
      NeitherReads(t);
      NoMint(t);
    }
  }

  lemma NoMint(t: string)
    requires !("0x" <= t)
    ensures MintBytes(t).None?
  {
  }

  // ---- texts and bytes ----

  lemma DigitOfHex(n: nat)
    requires n < 16
    ensures Digit(HexDigit(n)) == Some(n)
  {
  }

  lemma {:induction false} HexRoundTrip(bs: seq<Byte>)
    ensures |HexText(bs)| == 2 * |bs| && IsHex(HexText(bs)) && Pairs(HexText(bs)) == bs
  {
    if bs != [] {
      HexRoundTrip(bs[1..]);
      DigitOfHex(bs[0] / 16);
      DigitOfHex(bs[0] % 16);
      assert HexText(bs)[2..] == HexText(bs[1..]);
    }
  }

  /** Every script survives being packed, printed and read back, by either program. */
  lemma ScriptRoundTrip(p: Packed)
    requires p.Valid()
    ensures MintScript(Prefixed(Encode(p))) == Some(Shown(p)) == FaucetScript(Prefixed(Encode(p)))
  {
    hide Encode, MintDecode, FaucetDecode, HexText, FaucetScript, Shown;
    var bs := Encode(p);
    EncodedWords(p);
    DecodesEncoded(p);
    PrefixedReads(bs);
    ProgramsAgree(Prefixed(bs));
  }

  lemma PrefixedReads(bs: seq<Byte>)
    requires bs != []
    ensures MintBytes(Prefixed(bs)) == Some(bs) && !("0X" <= Prefixed(bs))
  {
    HexRoundTrip(bs);
    assert Prefixed(bs)[2..] == HexText(bs);
    assert Prefixed(bs)[1] == 'x' && "0X"[1] == 'X';
    hide HexText, Pairs;
  }

  const DIGITS := "0123456789abcdef"

  const CAPITALS := "0123456789ABCDEF"

  /** A hexadecimal digit in either case, and the one that is printed. */
  lemma DigitExactly(c: char, n: nat)
    requires n < 16
    ensures HexDigit(n) == DIGITS[n] && (Digit(c) == Some(n) <==> c == DIGITS[n] || c == CAPITALS[n])
  {
  }

  /** `hex_bytes`: pushes two digits a byte. */
  method HexBytes(bs: seq<Byte>) returns (t: string)
    ensures t == Prefixed(bs)
    ensures |t| == 2 + 2 * |bs| && t[0] == '0' && t[1] == 'x'
    ensures forall i :: 0 <= i < |bs| ==> t[2 + 2 * i] == DIGITS[bs[i] / 16] && t[3 + 2 * i] == DIGITS[bs[i] % 16]
  {
    t := "0x";
    var i := 0;
    while i < |bs|
      invariant 0 <= i <= |bs| && t + HexText(bs[i..]) == Prefixed(bs)
      invariant |t| == 2 + 2 * i && t[0] == '0' && t[1] == 'x'
      invariant forall k :: 0 <= k < i ==> t[2 + 2 * k] == DIGITS[bs[k] / 16] && t[3 + 2 * k] == DIGITS[bs[k] % 16]
    {
      assert bs[i..][1..] == bs[i + 1..];
      DigitExactly('0', bs[i] / 16);
      DigitExactly('0', bs[i] % 16);
      t := t + [HexDigit(bs[i] / 16), HexDigit(bs[i] % 16)];
      i := i + 1;
    }
  }

  /** How a decoded script is handed on: the two parts in hexadecimal and the name of the hash type. */
  lemma ShownTexts(p: Packed)
    ensures var s := Shown(p);
      && |s.codeHash| == 2 + 2 * |p.codeHash| && |s.args| == 2 + 2 * |p.args| && s.codeHash[..2] == "0x" == s.args[..2]
      && (forall i :: 0 <= i < |p.codeHash| ==> s.codeHash[2 + 2 * i] == DIGITS[p.codeHash[i] / 16] && s.codeHash[3 + 2 * i] == DIGITS[p.codeHash[i] % 16])
      && (forall i :: 0 <= i < |p.args| ==> s.args[2 + 2 * i] == DIGITS[p.args[i] / 16] && s.args[3 + 2 * i] == DIGITS[p.args[i] % 16])
      && s.hashType == (match p.hashType case Data => "data" case Type => "type" case Data1 => "data1" case Data2 => "data2")
  {
    PrefixedTexts(p.codeHash);
    PrefixedTexts(p.args);
    hide Prefixed, HexText;
  }

  lemma PrefixedTexts(bs: seq<Byte>)
    ensures var t := Prefixed(bs);
      && |t| == 2 + 2 * |bs| && t[..2] == "0x"
      && forall i :: 0 <= i < |bs| ==> t[2 + 2 * i] == DIGITS[bs[i] / 16] && t[3 + 2 * i] == DIGITS[bs[i] % 16]
  {
    HexRoundTrip(bs);
    hide Pairs, IsHex, HexText, HexDigit, Digit;
    forall i | 0 <= i < |bs| ensures Prefixed(bs)[2 + 2 * i] == DIGITS[bs[i] / 16] && Prefixed(bs)[3 + 2 * i] == DIGITS[bs[i] % 16] {
      HexTextAt(bs, i);
      DigitExactly('0', bs[i] / 16);
      DigitExactly('0', bs[i] % 16);
    }
  }

  // ---- payment hashes ----

  /** Two characters as the standard library reads them in base 16: a leading plus is allowed. */
  function Radix(c: char, d: char): Option<Byte> {
    if c == '+' then Digit(d)
    else if Digit(c).Some? && Digit(d).Some? then Some(Digit(c).value * 16 + Digit(d).value)
    else None
  }

  /** The bytes of a text without its prefix. */
  function HashBody(raw: seq<Byte>): seq<Byte> { if [48, 120] <= raw then raw[2..] else raw }

  /** Byte `i` of a body of 64 bytes; no byte above 127 is a digit. */
  function BodyByte(body: seq<Byte>, i: nat): Option<Byte>
    requires |body| == 64 && i < 32
  {
    Radix(body[i * 2] as char, body[i * 2 + 1] as char)
  }

  /** A text can be cut here: at its ends, or where no character of several bytes goes on. */
  predicate Boundary(body: seq<Byte>, at: nat)
    requires at <= |body|
  {
    at == 0 || at == |body| || body[at] < 128 || body[at] >= 192
  }

  datatype Parsed = Parsed(hash: seq<Byte>) | Invalid | Panics

  /** The first pair that is no byte stops the loop. */
  predicate StopsAt(body: seq<Byte>, i: nat)
    requires |body| == 64
  {
    i < 32 && BodyByte(body, i).None? && forall k :: 0 <= k < i ==> BodyByte(body, k).Some?
  }

  /** The pair that stops the loop would cut a character. */
  predicate Cuts(body: seq<Byte>) {
    |body| == 64 && exists i :: 0 <= i < 32 && StopsAt(body, i) && !(Boundary(body, i * 2) && Boundary(body, i * 2 + 2))
  }

  /** `hash_from_hex` on the bytes of any text: fills the 32 bytes in place, and fails at the first
      pair that is no byte, or stops the program where that pair would cut a character. */
  method HashFromHex(raw: seq<Byte>) returns (result: Parsed)
    ensures result.Parsed? <==> |HashBody(raw)| == 64 && forall i :: 0 <= i < 32 ==> BodyByte(HashBody(raw), i).Some?
    ensures result.Parsed? ==> |result.hash| == 32 && forall i :: 0 <= i < 32 ==> Some(result.hash[i]) == BodyByte(HashBody(raw), i)
    ensures result.Panics? <==> Cuts(HashBody(raw))
  {
    var body := HashBody(raw);
    if |body| != 64 { return Invalid; }
    var out := new Byte[32](_ => 0);
    var i := 0;
    while i < 32
      invariant 0 <= i <= 32
      invariant forall k :: 0 <= k < i ==> BodyByte(body, k) == Some(out[k])
    {
      var b := BodyByte(body, i);
      if b.None? {
        assert StopsAt(body, i) && forall k :: 0 <= k < 32 && StopsAt(body, k) ==> k == i;
        return if Boundary(body, i * 2) && Boundary(body, i * 2 + 2) then Invalid else Panics;
      }
      out[i] := b.value;
      i := i + 1;
    }
    assert forall k :: 0 <= k < 32 ==> BodyByte(body, k).Some?;
    return Parsed(out[..]);
  }

  lemma {:induction false} HexTextAt(bs: seq<Byte>, i: nat)
    requires i < |bs|
    ensures |HexText(bs)| == 2 * |bs| && HexText(bs)[i * 2] == HexDigit(bs[i] / 16)
      && HexText(bs)[i * 2 + 1] == HexDigit(bs[i] % 16)
  {
    if i > 0 {
      HexTextAt(bs[1..], i - 1);
    } else if |bs| > 1 {
      HexTextAt(bs[1..], 0);
    }
  }

  predicate Ascii(t: string) { forall i :: 0 <= i < |t| ==> t[i] as nat < 128 }

  /** The bytes of an ASCII text. */
  function Bytes(t: string): (bs: seq<Byte>)
    requires Ascii(t)
    ensures |bs| == |t| && forall i :: 0 <= i < |t| ==> bs[i] == t[i] as nat
  {
    if t == "" then [] else
      var b: Byte := t[0] as nat;
      [b] + Bytes(t[1..])
  }

  lemma {:induction false} HexIsAscii(bs: seq<Byte>)
    ensures Ascii(HexText(bs))
  {
    if bs != [] { HexIsAscii(bs[1..]); }
  }

  /** A hash printed by the mint reads back to the same 32 bytes. */
  lemma HashRoundTrip(bs: seq<Byte>)
    requires |bs| == 32
    ensures Ascii(Prefixed(bs))
    ensures var body := HashBody(Bytes(Prefixed(bs))); |body| == 64 && forall i :: 0 <= i < 32 ==> BodyByte(body, i) == Some(bs[i])
  {
    HexIsAscii(bs);
    HexTextAt(bs, 0);
    var raw := Bytes(Prefixed(bs));
    assert raw[0] == 48 && raw[1] == 120;
    assert [48, 120] <= raw;
    forall i | 0 <= i < 32 ensures BodyByte(raw[2..], i) == Some(bs[i]) {
      HexTextAt(bs, i);
      DigitOfHex(bs[i] / 16);
      DigitOfHex(bs[i] % 16);
      assert raw[2..][i * 2] as char == HexText(bs)[i * 2] && raw[2..][i * 2 + 1] as char == HexText(bs)[i * 2 + 1];
    }
  }

  // ---- the attributes of an invoice ----

  /** One attribute: without a script, with something that is no text, or with a text. */
  datatype Attribute = Other | NotText | Packs(text: string)

  datatype Found = Nothing | Refused | Single(script: Script)

  function Scripts(attrs: seq<Attribute>): (scripts: seq<Attribute>)
    ensures forall s :: s in scripts ==> !s.Other?
  {
    if attrs == [] then [] else Scripts(attrs[..|attrs| - 1]) + (if attrs[|attrs| - 1].Other? then [] else [attrs[|attrs| - 1]])
  }

  /** `invoiceUdtScript`: refuses an absent list, collects the scripts, then decides. */
  function FaucetFound(listed: Option<seq<Attribute>>): Found {
    var scripts := if listed.Some? then Scripts(listed.value) else [];
    if listed.None? || |scripts| > 1 then Refused
    else if scripts == [] then Nothing
    else if scripts[0].NotText? || FaucetScript(scripts[0].text).None? then Refused
    else Single(FaucetScript(scripts[0].text).value)
  }

  lemma {:induction false} ScriptsGrow(attrs: seq<Attribute>, n: nat)
    requires n <= |attrs|
    ensures Scripts(attrs[..n]) <= Scripts(attrs)
    ensures n < |attrs| && !attrs[n].Other? ==> Scripts(attrs[..n]) + [attrs[n]] <= Scripts(attrs)
    decreases |attrs|
  {
    if n == |attrs| {
      assert attrs[..n] == attrs;
    } else {
      assert attrs[..|attrs| - 1][..n] == attrs[..n];
      ScriptsGrow(attrs[..|attrs| - 1], n);
    }
  }

  function MintFound(t: string): Found {
    if MintScript(t).Some? then Single(MintScript(t).value) else Refused
  }

  /** What the mint makes of the only script is what the faucet makes of it, unless it is upper-case. */
  lemma OnlyScript(attrs: seq<Attribute>, t: string)
    requires Scripts(attrs) == [Packs(t)]
    ensures MintFound(t) == FaucetFound(Some(attrs)) || (UpperCase(t) && !MintFound(t).Single?)
  {
    ProgramsAgree(t);
    if UpperCase(t) {
      MintReadsLower(t);
      assert MintScript(t).None?;
    }
    hide UpperCase, MintScript, FaucetScript, Scripts;
    assert Scripts(attrs)[0] == Packs(t) && |Scripts(attrs)| == 1;
  }

  /** Attribute `i` is the only one that carries a script. */
  predicate Only(attrs: seq<Attribute>, i: nat) {
    i < |attrs| && !attrs[i].Other? && forall k :: 0 <= k < |attrs| && k != i ==> attrs[k].Other?
  }

  predicate Two(attrs: seq<Attribute>) { exists i, j :: 0 <= i < j < |attrs| && !attrs[i].Other? && !attrs[j].Other? }

  /** `udt_type_script`: one pass that remembers the only script seen so far and refuses a second
      one, or one that is no text, on sight. An absent list counts as an empty one. It finds what the
      faucet finds, unless an encoding under the prefix `0X` tells them apart. */
  method UdtTypeScript(listed: Option<seq<Attribute>>) returns (found: Found)
    ensures found.Nothing? <==> listed.None? || forall i :: 0 <= i < |listed.value| ==> listed.value[i].Other?
    ensures listed.Some? && Two(listed.value) ==> found == Refused
    ensures listed.Some? ==> forall i: nat :: Only(listed.value, i) ==>
      var a := listed.value[i];
      found == if a.Packs? && MintScript(a.text).Some? then Single(MintScript(a.text).value) else Refused
    ensures listed.Some? && (forall t :: Packs(t) in listed.value ==> !UpperCase(t)) ==> found == FaucetFound(listed)
    ensures listed.Some? && found.Single? ==> FaucetFound(listed) == found
  {
    hide UpperCase, MintScript, FaucetScript, FaucetFound, Scripts;
    if listed.None? { return Nothing; }
    var attrs := listed.value;
    var encoded: Option<string> := None;
    ghost var at := 0;
    var i := 0;
    ScriptsStep(attrs, 0);
    while i < |attrs|
      invariant 0 <= i <= |attrs|
      invariant encoded.Some? ==> Scripts(attrs[..i]) == [Packs(encoded.value)] && at < i && attrs[at] == Packs(encoded.value)
      invariant encoded.None? ==> Scripts(attrs[..i]) == []
      invariant forall k :: 0 <= k < i && (encoded.None? || k != at) ==> attrs[k].Other?
    {
      ScriptsStep(attrs, i);
      if !attrs[i].Other? {
        if attrs[i].NotText? || encoded.Some? {
          RefusedOnSight(attrs, i);
          return Refused;
        }
        encoded := Some(attrs[i].text);
        at := i;
      }
      i := i + 1;
    }
    assert attrs[..i] == attrs;
    if encoded.None? {
      NoScripts(attrs);
      return Nothing;
    }
    OnlyScript(attrs, encoded.value);
    assert Only(attrs, at) && forall k: nat :: Only(attrs, k) ==> k == at;
    var script := MintScript(encoded.value);
    return if script.Some? then Single(script.value) else Refused;
  }

  lemma ScriptsStep(attrs: seq<Attribute>, i: nat)
    requires i <= |attrs|
    ensures Scripts(attrs[..0]) == []
    ensures i < |attrs| ==> Scripts(attrs[..i + 1]) == Scripts(attrs[..i]) + (if attrs[i].Other? then [] else [attrs[i]])
  {
    if i < |attrs| { assert attrs[..i + 1][..i] == attrs[..i]; }
  }

  lemma NoScripts(attrs: seq<Attribute>)
    requires Scripts(attrs) == []
    ensures FaucetFound(Some(attrs)) == Nothing
  {
  }

  lemma RefusedOnSight(attrs: seq<Attribute>, i: nat)
    requires i < |attrs| && !attrs[i].Other? && (attrs[i].NotText? || Scripts(attrs[..i]) != [])
    ensures FaucetFound(Some(attrs)) == Refused && Scripts(attrs) != []
  {
    ScriptsGrow(attrs, i);
    hide FaucetScript, Scripts;
    assert Scripts(attrs[..i]) + [attrs[i]] <= Scripts(attrs);
    if |Scripts(attrs)| == 1 { assert Scripts(attrs)[0] == attrs[i]; }
  }
}
