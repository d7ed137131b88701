/** The decryption utility: base64-decode the text, decrypt it with AES in
    ECB mode under the UTF-8 bytes of the key, strip the padding and decode
    the result as UTF-8. Base64, the block cipher and the UTF-8 decoder are
    parameters; the key's UTF-8 length, the block alignment and the padding
    strip are modelled. */
module Decrypt {
  import opened Base
  import opened Padding

  /** The routines the utility calls but this model does not define: the
      base64 decoder, one AES block decryption under a key, and the strict
      UTF-8 decoder, each failing with the message of its exception. */
  datatype Ops = Ops(
    b64decode: string -> Result<seq<byte>, string>,
    decryptBlock: (seq<byte>, seq<byte>) -> seq<byte>,
    utf8decode: seq<byte> -> Result<string, string>)

  /** Why the utility shows an error instead of the plaintext. */
  datatype DecryptError =
    | MissingInput
    | Base64Error(message: string)
    | KeyLength(bytes: nat)
    | Unaligned(bytes: nat)
    | PadIndexError
    | Utf8Error(message: string)

  /** The number of bytes UTF-8 uses for one code point. */
  function Utf8Width(c: char): (n: nat)
    ensures 1 <= n <= 4
    ensures n == 1 <==> c as int < 0x80
  {
    if c as int < 0x80 then 1
    else if c as int < 0x800 then 2
    else if c as int < 0x1_0000 then 3
    else 4
  }

  /** The length of `s.encode("utf-8")`. */
  function Utf8Length(s: string): (n: nat)
    ensures |s| <= n <= 4 * |s|
  {
    if s == [] then 0 else Utf8Width(s[0]) + Utf8Length(s[1..])
  }

  /** The key encodes to one byte per character exactly when it is ASCII. */
  lemma {:induction false} Utf8LengthAscii(s: string)
    ensures Utf8Length(s) == |s| <==> forall i :: 0 <= i < |s| ==> s[i] as int < 0x80
  {
    if s != [] {
      Utf8LengthAscii(s[1..]);
      assert forall i :: 1 <= i < |s| ==> s[i] == s[1..][i - 1];
    }
  }

  /** The UTF-8 bytes of `s`. */
  function Utf8Encode(s: string): (b: seq<byte>)
    ensures |b| == Utf8Length(s)
  {
    if s == [] then []
    else
      var c := s[0] as int;
      var head: seq<byte> :=
        if c < 0x80 then [c as byte]
        else if c < 0x800 then [(0xc0 + c / 0x40) as byte, (0x80 + c % 0x40) as byte]
        else if c < 0x1_0000 then
          [(0xe0 + c / 0x1000) as byte, (0x80 + c / 0x40 % 0x40) as byte, (0x80 + c % 0x40) as byte]
        else
          [(0xf0 + c / 0x4_0000) as byte, (0x80 + c / 0x1000 % 0x40) as byte,
           (0x80 + c / 0x40 % 0x40) as byte, (0x80 + c % 0x40) as byte];
      head + Utf8Encode(s[1..])
  }

  /** AES accepts keys of 16, 24 or 32 bytes. */
  predicate IsAesKeyLength(n: nat) {
    n == 16 || n == 24 || n == 32
  }

  /** ECB: every block decrypted on its own under the same key. */
  function EcbDecrypt(decryptBlock: (seq<byte>, seq<byte>) -> seq<byte>, key: seq<byte>, data: seq<byte>): seq<byte>
    requires |data| % BlockSize == 0
    decreases |data|
  {
    if data == [] then [] else decryptBlock(key, data[..BlockSize]) + EcbDecrypt(decryptBlock, key, data[BlockSize..])
  }

  /** The utility on the stripped ciphertext text and the key as typed. */
  function DecryptText(ops: Ops, encText: string, key: string): (r: Result<string, DecryptError>)
    ensures encText == [] || key == [] ==> r == Failure(MissingInput)
    ensures encText != [] && key != [] && ops.b64decode(encText).Failure? ==>
      r == Failure(Base64Error(ops.b64decode(encText).error))
    ensures r.Success? ==>
      && ops.b64decode(encText).Success?
      && IsAesKeyLength(Utf8Length(key))
      && |ops.b64decode(encText).value| % BlockSize == 0
    ensures encText != [] && key != [] && ops.b64decode(encText).Success? && !IsAesKeyLength(Utf8Length(key)) ==>
      r == Failure(KeyLength(Utf8Length(key)))
  {
    if encText == [] || key == [] then Failure(MissingInput)
    else match ops.b64decode(encText)
      case Failure(message) => Failure(Base64Error(message))
      case Success(raw) =>
        var keyBytes := Utf8Encode(key);
        if !IsAesKeyLength(|keyBytes|) then Failure(KeyLength(|keyBytes|))
        else if |raw| % BlockSize != 0 then Failure(Unaligned(|raw|))
        else match StripPadding(EcbDecrypt(ops.decryptBlock, keyBytes, raw))
          case Failure(_) => Failure(PadIndexError)
          case Success(plain) =>
            match ops.utf8decode(plain)
            case Failure(message) => Failure(Utf8Error(message))
            case Success(text) => Success(text)
  }

  /** The round trip: text whose UTF-8 bytes were padded and encrypted in
      ECB mode under a valid key, then base64-encoded, decrypts back to the
      same text. */
  lemma DecryptRoundTrip(ops: Ops, encText: string, key: string, raw: seq<byte>, plain: seq<byte>, text: string)
    requires encText != [] && key != []
    requires ops.b64decode(encText) == Success(raw)
    requires IsAesKeyLength(Utf8Length(key))
    requires |raw| % BlockSize == 0
    requires EcbDecrypt(ops.decryptBlock, Utf8Encode(key), raw) == Pad(plain)
    requires ops.utf8decode(plain) == Success(text)
    ensures DecryptText(ops, encText, key) == Success(text)
  {
    StripPad(plain);
  }

  /** Ciphertext of no bytes decrypts to no bytes, whose last byte the strip
      then fails to read. */
  lemma EmptyCiphertextFails(ops: Ops, encText: string, key: string)
    requires encText != [] && key != []
    requires ops.b64decode(encText) == Success([])
    requires IsAesKeyLength(Utf8Length(key))
    ensures DecryptText(ops, encText, key) == Failure(PadIndexError)
  {
  }
}
