/**
  The cipher layer of `src/utils/encryption.js`: raw AES-GCM keys carried as
  Base64 text, and the stored ciphertext frame, which is the Base64 text of
  the 12-byte random IV followed by the AES-GCM output for the UTF-16 bytes of
  `JSON.stringify(data)`.

  AES-GCM itself (NIST SP 800-38D) is a parameter: a pair of functions `seal`
  and `open` that satisfy `Authenticated`, the two facts the layer relies on.
  Both hold of AES-GCM with a 128-bit tag: opening what was sealed under the
  same key and IV gives the plaintext back, and a ciphertext opens under a
  key and IV only if it is exactly what sealing its plaintext there gives.
*/
module CipherEngine {
  import opened Js
  import Base64
  import Utf16Bytes
  import JsonText

  /** The IV length `encryptData` draws (section 8.2.2 of NIST SP 800-38D). */
  const IvLength := 12

  /** The length of a generated key: AES-256. */
  const GeneratedKeyLength := 32

  /** The raw key lengths AES accepts (128, 192 or 256 bits). */
  predicate ValidKeyLength(n: int)
  {
    n == 16 || n == 24 || n == 32
  }

  /** An authenticated cipher over (key, iv, input). */
  datatype Aead = Aead(
    seal: (seq<Byte>, seq<Byte>, seq<Byte>) -> seq<Byte>,
    open: (seq<Byte>, seq<Byte>, seq<Byte>) -> Option<seq<Byte>>)

  ghost predicate Authenticated(c: Aead)
  {
    (forall k: seq<Byte>, iv: seq<Byte>, p: seq<Byte> | ValidKeyLength(|k|) && |iv| == IvLength ::
       c.open(k, iv, c.seal(k, iv, p)) == Some(p))
    && (forall k: seq<Byte>, iv: seq<Byte>, x: seq<Byte> | c.open(k, iv, x).Some? ::
       x == c.seal(k, iv, c.open(k, iv, x).value))
  }

  function Zeros(n: nat): (z: seq<Byte>)
    ensures |z| == n && forall i | 0 <= i < n :: z[i] == 0
  {
    seq(n, _ => 0)
  }

  /** A cipher that appends a constant 16-byte tag: it shows `Authenticated`
      can be met. */
  function TagOnly(): Aead
  {
    Aead(
      (k: seq<Byte>, iv: seq<Byte>, p: seq<Byte>) => p + Zeros(16),
      (k: seq<Byte>, iv: seq<Byte>, x: seq<Byte>) =>
        if |x| >= 16 && x[|x| - 16..] == Zeros(16) then Some(x[..|x| - 16]) else None)
  }

  lemma TagOnlyAuthenticated()
    ensures Authenticated(TagOnly())
  {
    var c := TagOnly();
    forall k: seq<Byte>, iv: seq<Byte>, p: seq<Byte> | ValidKeyLength(|k|) && |iv| == IvLength
      ensures c.open(k, iv, c.seal(k, iv, p)) == Some(p)
    {
      var x := p + Zeros(16);
      assert x[|x| - 16..] == Zeros(16);
      assert x[..|x| - 16] == p;
    }
    forall k: seq<Byte>, iv: seq<Byte>, x: seq<Byte> | c.open(k, iv, x).Some?
      ensures x == c.seal(k, iv, c.open(k, iv, x).value)
    {
      assert x == x[..|x| - 16] + x[|x| - 16..];
    }
  }

  /** Why a call of the layer throws. */
  datatype CryptoError =
    | CryptoUnavailable   // window.crypto.subtle is missing or refuses
    | BadKey              // the key text is not Base64 of a 16, 24 or 32-byte key
    | NotSerializable     // JSON.stringify gave undefined, so str2ab throws
    | BadBase64           // atob rejects the stored text
    | NotAuthentic        // AES-GCM decryption fails
    | BadText             // the plaintext is not whole UTF-16 code units
    | BadJson             // JSON.parse rejects the plaintext

  // ---------------------------------------------------------------------
  // Keys
  // ---------------------------------------------------------------------

  /** `btoa(String.fromCharCode(...new Uint8Array(exportedKey)))` */
  function ExportKey(raw: seq<Byte>): (s: string)
    ensures |s| == 4 * ((|raw| + 2) / 3)
  {
    Base64.Encode(raw)
  }

  /** `importEncryptionKey`: atob, then `importKey("raw", …)`, which refuses
      any length other than 16, 24 or 32 bytes. */
  function ImportKey(keyB64: string): (r: Result<seq<Byte>, CryptoError>)
    ensures r.Success? <==> Base64.Decode(keyB64).Some? && ValidKeyLength(|Base64.Decode(keyB64).value|)
    ensures r.Success? ==> Base64.Decode(keyB64) == Some(r.value)
    ensures r.Failure? ==> r.error == BadKey
  {
    match Base64.Decode(keyB64)
    case None => Failure(BadKey)
    case Some(raw) => if ValidKeyLength(|raw|) then Success(raw) else Failure(BadKey)
  }

  /** An exported key imports back to the same bytes. */
  lemma ImportExport(raw: seq<Byte>)
    requires ValidKeyLength(|raw|)
    ensures ImportKey(ExportKey(raw)) == Success(raw)
  {
    Base64.DecodeEncode(raw);
  }

  /** `generateEncryptionKey`: 32 random bytes, exported as Base64; the
      failure of the Web Crypto API is rethrown. */
  method GenerateEncryptionKey(subtleAvailable: bool) returns (r: Result<string, CryptoError>)
    ensures subtleAvailable <==> r.Success?
    ensures !subtleAvailable ==> r == Failure(CryptoUnavailable)
    ensures r.Success? ==> |r.value| >= GeneratedKeyLength
    ensures r.Success? ==> ImportKey(r.value).Success? && |ImportKey(r.value).value| == GeneratedKeyLength
  {
    if !subtleAvailable {
      return Failure(CryptoUnavailable);
    }
    assert |Zeros(GeneratedKeyLength)| == GeneratedKeyLength;
    var raw: seq<Byte> :| |raw| == GeneratedKeyLength;
    ImportExport(raw);
    r := Success(ExportKey(raw));
  }

  // ---------------------------------------------------------------------
  // The ciphertext frame
  // ---------------------------------------------------------------------

  /** The bytes `encryptData` writes: IV, then cipher output. */
  function Frame(iv: seq<Byte>, ct: seq<Byte>): seq<Byte>
  {
    iv + ct
  }

  /** `slice(0, 12)` and `slice(12)`: both clamp to the length. */
  function SplitFrame(b: seq<Byte>): (seq<Byte>, seq<Byte>)
  {
    var n := if |b| < IvLength then |b| else IvLength;
    (b[..n], b[n..])
  }

  /** Splitting a frame built with a 12-byte IV gives back that IV and that ciphertext. */
  lemma SplitOfFrame(iv: seq<Byte>, ct: seq<Byte>)
    requires |iv| == IvLength
    ensures SplitFrame(Frame(iv, ct)) == (iv, ct)
  {
    assert (iv + ct)[..IvLength] == iv;
    assert (iv + ct)[IvLength..] == ct;
  }

  /** Splitting loses nothing: any byte string is the frame of its two parts. */
  lemma FrameOfSplit(b: seq<Byte>)
    ensures Frame(SplitFrame(b).0, SplitFrame(b).1) == b
  {
    var n := if |b| < IvLength then |b| else IvLength;
    assert b[..n] + b[n..] == b;
  }

  /** `target.set(source, offset)` on a Uint8Array. */
  method SetAt(target: array<Byte>, source: seq<Byte>, offset: nat)
    requires offset + |source| <= target.Length
    modifies target
    ensures target[..] == old(target[..offset]) + source + old(target[offset + |source|..])
  {
    var i := 0;
    while i < |source|
      invariant 0 <= i <= |source|
      invariant forall j | 0 <= j < target.Length ::
        target[j] == if offset <= j < offset + i then source[j - offset] else old(target[j])
    {
      target[offset + i] := source[i];
      i := i + 1;
    }
  }

  /** Lines 89-91: a zero-filled Uint8Array of the combined length, the IV
      set at 0 and the cipher output at `iv.length`. */
  method BuildFrame(iv: seq<Byte>, ct: seq<Byte>) returns (frame: array<Byte>)
    ensures frame[..] == Frame(iv, ct)
  {
    frame := new Byte[|iv| + |ct|](_ => 0);
    SetAt(frame, iv, 0);
    SetAt(frame, ct, |iv|);
  }

  // ---------------------------------------------------------------------
  // Encryption and decryption
  // ---------------------------------------------------------------------

  /** `encryptData(data, keyB64)` once the IV is drawn. */
  function EncryptWith(c: Aead, data: Value, keyB64: string, iv: seq<Byte>): (r: Result<string, CryptoError>)
    ensures r.Success? <==> ImportKey(keyB64).Success? && data != Undefined
    ensures r.Failure? ==> r.error == (if ImportKey(keyB64).Failure? then BadKey else NotSerializable)
    ensures r.Success? && |iv| == IvLength ==>
      Base64.Decode(r.value).Some? && SplitFrame(Base64.Decode(r.value).value).0 == iv
  {
    match ImportKey(keyB64)
    case Failure(e) => Failure(e)
    case Success(key) =>
      match JsonText.Stringify(data)
      case None => Failure(NotSerializable)
      case Some(json) =>
        var ct := c.seal(key, iv, Utf16Bytes.EncodeString(json));
        Base64.DecodeEncode(Frame(iv, ct));
        if |iv| == IvLength then SplitOfFrame(iv, ct); Success(Base64.Encode(Frame(iv, ct)))
        else Success(Base64.Encode(Frame(iv, ct)))
  }

  /** `encryptData`: import the key, draw a fresh random IV, serialise,
      encrypt, frame and encode. Every failure is rethrown. */
  method EncryptData(c: Aead, data: Value, keyB64: string) returns (r: Result<string, CryptoError>, ghost iv: seq<Byte>)
    ensures |iv| == IvLength
    ensures r == EncryptWith(c, data, keyB64, iv)
    ensures r.Success? <==> ImportKey(keyB64).Success? && data != Undefined
  {
    assert |Zeros(IvLength)| == IvLength;
    iv := Zeros(IvLength);
    var key := ImportKey(keyB64);
    if key.Failure? {
      return Failure(key.error), iv;
    }
    var drawn: seq<Byte> :| |drawn| == IvLength;
    iv := drawn;
    var json := JsonText.Stringify(data);
    if json.None? {
      return Failure(NotSerializable), iv;
    }
    var buffer := Utf16Bytes.Str2Ab(json.value);
    var sealed := c.seal(key.value, drawn, buffer[..]);
    var frame := BuildFrame(drawn, sealed);
    r := Success(Base64.Encode(frame[..]));
  }

  /** `decryptData` up to the AES-GCM step: the plaintext bytes. */
  function OpenFrame(c: Aead, frameB64: string, keyB64: string): (r: Result<seq<Byte>, CryptoError>)
    ensures ImportKey(keyB64).Failure? ==> r == Failure(BadKey)
    ensures ImportKey(keyB64).Success? && Base64.Decode(frameB64).None? ==> r == Failure(BadBase64)
    ensures r.Failure? ==> r.error == BadKey || r.error == BadBase64 || r.error == NotAuthentic
    ensures r.Success? ==> ImportKey(keyB64).Success? && Base64.Decode(frameB64).Some?
  {
    match ImportKey(keyB64)
    case Failure(e) => Failure(e)
    case Success(key) =>
      match Base64.Decode(frameB64)
      case None => Failure(BadBase64)
      case Some(bytes) =>
        var (iv, ct) := SplitFrame(bytes);
        match c.open(key, iv, ct)
        case None => Failure(NotAuthentic)
        case Some(p) => Success(p)
  }

  /** `decryptData(frameB64, keyB64)`: every failure is rethrown. */
  function DecryptWith(c: Aead, frameB64: string, keyB64: string): (r: Result<Value, CryptoError>)
    ensures OpenFrame(c, frameB64, keyB64).Failure? ==> r == Failure(OpenFrame(c, frameB64, keyB64).error)
    ensures r.Success? ==> r.value != Undefined
    ensures r.Success? ==>
      OpenFrame(c, frameB64, keyB64).Success? && Utf16Bytes.DecodeString(OpenFrame(c, frameB64, keyB64).value).Some?
  {
    match OpenFrame(c, frameB64, keyB64)
    case Failure(e) => Failure(e)
    case Success(p) =>
      match Utf16Bytes.DecodeString(p)
      case None => Failure(BadText)
      case Some(text) =>
        match JsonText.Parse(text)
        case None => Failure(BadJson)
        case Some(v) => Success(v)
  }

  /** Decrypting what was encrypted under the same key gives the data back:
      `JSON.parse(JSON.stringify(data))`, which is `data` itself. */
  lemma DecryptEncrypt(c: Aead, data: Value, keyB64: string, iv: seq<Byte>)
    requires Authenticated(c) && |iv| == IvLength
    requires ImportKey(keyB64).Success? && data != Undefined
    ensures EncryptWith(c, data, keyB64, iv).Success?
    ensures JsonText.Parse(JsonText.Stringify(data).value) == Some(data)
    ensures DecryptWith(c, EncryptWith(c, data, keyB64, iv).value, keyB64) == Success(data)
  {
    var key := ImportKey(keyB64).value;
    var json := JsonText.Stringify(data).value;
    var plain := Utf16Bytes.EncodeString(json);
    var ct := c.seal(key, iv, plain);
    Base64.DecodeEncode(Frame(iv, ct));
    SplitOfFrame(iv, ct);
    Utf16Bytes.DecodeEncode(json);
    JsonText.ParseStringify(data);
  }

  /** Only genuine ciphertexts open: when the frame opens under a key, its
      cipher part is exactly what sealing the recovered plaintext under that
      key and the frame's IV gives. */
  lemma OpenOnlyGenuine(c: Aead, frameB64: string, keyB64: string)
    requires Authenticated(c)
    requires OpenFrame(c, frameB64, keyB64).Success?
    ensures Base64.Decode(frameB64).Some? && ImportKey(keyB64).Success?
    ensures var (iv, ct) := SplitFrame(Base64.Decode(frameB64).value);
      ct == c.seal(ImportKey(keyB64).value, iv, OpenFrame(c, frameB64, keyB64).value)
  {
  }

  /** The stored text determines its IV: two encryptions give the same text
      only when they drew the same IV. */
  lemma FrameRevealsIv(c: Aead, data: Value, keyB64: string, iv1: seq<Byte>, iv2: seq<Byte>)
    requires |iv1| == IvLength && |iv2| == IvLength
    requires EncryptWith(c, data, keyB64, iv1).Success?
    requires EncryptWith(c, data, keyB64, iv1) == EncryptWith(c, data, keyB64, iv2)
    ensures iv1 == iv2
  {
    var key := ImportKey(keyB64).value;
    var plain := Utf16Bytes.EncodeString(JsonText.Stringify(data).value);
    var f1 := Frame(iv1, c.seal(key, iv1, plain));
    var f2 := Frame(iv2, c.seal(key, iv2, plain));
    Base64.EncodeInjective(f1, f2);
    SplitOfFrame(iv1, c.seal(key, iv1, plain));
    SplitOfFrame(iv2, c.seal(key, iv2, plain));
  }
}
