/**
 * The credential vault: `CryptoUtils` of src/utils/crypto.ts. A record is
 * base64(salt(16) ‖ iv(12) ‖ AES-256-GCM ciphertext-with-tag), the key comes from PBKDF2
 * (section 5.2 of RFC 8018) with HMAC-SHA-256 and 100 000 iterations, and the password
 * marker is a base64 SHA-256 digest (FIPS 180-4).
 *
 * The WebCrypto and text-codec calls are fields of `Primitives`, functions the model does not
 * look inside; `Sound` lists the only facts the proofs rely on.
 */
module CredentialVault {
  import opened Wrappers
  import opened Base64

  const SALT_LENGTH: nat := 16
  const IV_LENGTH: nat := 12
  const ITERATIONS: nat := 100000
  /** AES-GCM key length in bits requested from `deriveKey`. */
  const KEY_LENGTH: nat := 256
  /** Length in bytes of the AES-GCM authentication tag (WebCrypto's default of 128 bits). */
  const TAG_LENGTH: nat := 16
  /** Length in bytes of a SHA-256 digest. */
  const DIGEST_LENGTH: nat := 32
  /** The one error every decryption failure is turned into. */
  const DECRYPT_ERROR := "Failed to decrypt data. Invalid password or corrupted data."

  datatype Pbkdf2Params = Pbkdf2Params(hash: string, iterations: nat, keyBits: nat)

  /** What `deriveKey` asks PBKDF2 for: SHA-256, 100 000 iterations, a 256-bit AES-GCM key. */
  const KDF_PARAMS := Pbkdf2Params("SHA-256", ITERATIONS, KEY_LENGTH)

  /** The primitives `CryptoUtils` calls, as total functions. */
  datatype Primitives = Primitives(
    /** `crypto.subtle.deriveKey` with PBKDF2: parameters, password bytes, salt -> key bytes */
    pbkdf2: (Pbkdf2Params, seq<byte>, seq<byte>) -> seq<byte>,
    /** `crypto.subtle.encrypt` with AES-GCM: key, iv, plaintext -> ciphertext ‖ tag */
    gcmSeal: (seq<byte>, seq<byte>, seq<byte>) -> seq<byte>,
    /** `crypto.subtle.decrypt` with AES-GCM: `None` when it rejects (tag mismatch, bad input) */
    gcmOpen: (seq<byte>, seq<byte>, seq<byte>) -> Option<seq<byte>>,
    /** `crypto.subtle.digest('SHA-256', ·)` */
    sha256: seq<byte> -> seq<byte>,
    /** `TextEncoder.encode` */
    utf8Encode: string -> seq<byte>,
    /** `new TextDecoder().decode` (replaces malformed input, never throws, drops a leading byte order mark) */
    utf8Decode: seq<byte> -> string)

  /** U+FEFF, the byte order mark. */
  const BOM: char := '\U{FEFF}'

  /** The text does not begin with a byte order mark. */
  predicate NoBom(s: string)
  {
    |s| == 0 || s[0] != BOM
  }

  /**
   * What `new TextDecoder()` gives back for the encoding of `s`: `s` itself, except that a
   * leading byte order mark is dropped, since `ignoreBOM` defaults to false.
   */
  function StripBom(s: string): (r: string)
    ensures NoBom(s) ==> r == s
    ensures !NoBom(s) ==> [BOM] + r == s
  {
    if NoBom(s) then s else s[1..]
  }

  /**
   * The assumed behaviour of the primitives: PBKDF2 yields keyBits / 8 bytes; AES-GCM opens
   * what it sealed under the same key and iv, accepts nothing that is not such a sealing
   * (authenticity), and adds a 16-byte tag; SHA-256 yields 32 bytes; UTF-8 decoding inverts
   * encoding on every string of Unicode scalar values, except that it drops a leading byte
   * order mark.
   */
  ghost predicate Sound(p: Primitives)
  {
    (forall prm, pw, salt :: |p.pbkdf2(prm, pw, salt)| == prm.keyBits / 8) &&
    (forall k, iv, m :: p.gcmOpen(k, iv, p.gcmSeal(k, iv, m)) == Some(m)) &&
    (forall k, iv, c :: p.gcmOpen(k, iv, c).Some? ==> c == p.gcmSeal(k, iv, p.gcmOpen(k, iv, c).value)) &&
    (forall k, iv, m :: |p.gcmSeal(k, iv, m)| == |m| + TAG_LENGTH) &&
    (forall x :: |p.sha256(x)| == DIGEST_LENGTH) &&
    (forall s :: p.utf8Decode(p.utf8Encode(s)) == StripBom(s))
  }

  // ------------------------------------------------------------ key derivation

  /** `deriveKey(password, salt)`. */
  function DeriveKey(p: Primitives, password: string, salt: seq<byte>): (key: seq<byte>)
  {
    p.pbkdf2(KDF_PARAMS, p.utf8Encode(password), salt)
  }

  /** The derived key is 256 bits long, whatever the password and salt. */
  lemma DerivedKeyLength(p: Primitives, password: string, salt: seq<byte>)
    requires Sound(p)
    ensures |DeriveKey(p, password, salt)| * 8 == KEY_LENGTH
  {
  }

  // ---------------------------------------------------------------- the layout

  /** `Uint8Array.prototype.set(src, offset)`. */
  method SetAt(a: array<byte>, src: seq<byte>, offset: nat)
    requires offset + |src| <= a.Length
    modifies a
    ensures a[..] == old(a[..])[..offset] + src + old(a[..])[offset + |src|..]
  {
    ghost var before := a[..];
    var i := 0;
    while i < |src|
      invariant 0 <= i <= |src|
      invariant forall k :: 0 <= k < offset ==> a[k] == before[k]
      invariant forall k :: 0 <= k < i ==> a[offset + k] == src[k]
      invariant forall k :: offset + i <= k < a.Length ==> a[k] == before[k]
    {
      a[offset + i] := src[i];
      i := i + 1;
    }
    assert a[..] == before[..offset] + src + before[offset + |src|..];
  }

  /**
   * The buffer `encrypt` builds with its three `combined.set` calls: the salt at [0, 16),
   * the iv at [16, 28) and the ciphertext from 28 on.
   */
  method Combine(salt: seq<byte>, iv: seq<byte>, ciphertext: seq<byte>) returns (combined: seq<byte>)
    requires |salt| == SALT_LENGTH && |iv| == IV_LENGTH
    ensures |combined| == SALT_LENGTH + IV_LENGTH + |ciphertext|
    ensures combined[..SALT_LENGTH] == salt
    ensures combined[SALT_LENGTH..SALT_LENGTH + IV_LENGTH] == iv
    ensures combined[SALT_LENGTH + IV_LENGTH..] == ciphertext
  {
    var buffer := new byte[|salt| + |iv| + |ciphertext|];
    SetAt(buffer, salt, 0);
    SetAt(buffer, iv, |salt|);
    SetAt(buffer, ciphertext, |salt| + |iv|);
    combined := buffer[..];
  }

  /** The three slices `decrypt` takes; like `Uint8Array.prototype.slice`, they clamp to the length. */
  function Split(combined: seq<byte>): (parts: (seq<byte>, seq<byte>, seq<byte>))
  {
    var n := |combined|;
    var a := if n < SALT_LENGTH then n else SALT_LENGTH;
    var b := if n < SALT_LENGTH + IV_LENGTH then n else SALT_LENGTH + IV_LENGTH;
    (combined[..a], combined[a..b], combined[b..])
  }

  /** The slices of `decrypt` undo the `set` calls of `encrypt` exactly. */
  lemma SplitInvertsLayout(salt: seq<byte>, iv: seq<byte>, ciphertext: seq<byte>)
    requires |salt| == SALT_LENGTH && |iv| == IV_LENGTH
    ensures Split(salt + iv + ciphertext) == (salt, iv, ciphertext)
  {
    var c := salt + iv + ciphertext;
    assert c[..SALT_LENGTH] == salt;
    assert c[SALT_LENGTH..SALT_LENGTH + IV_LENGTH] == iv;
    assert c[SALT_LENGTH + IV_LENGTH..] == ciphertext;
  }

  // ---------------------------------------------------------- encrypt / decrypt

  /** The ciphertext (with tag) that `encrypt` seals under the key derived from the password. */
  function SealedBody(p: Primitives, plaintext: string, password: string, salt: seq<byte>, iv: seq<byte>): seq<byte>
  {
    p.gcmSeal(DeriveKey(p, password, salt), iv, p.utf8Encode(plaintext))
  }

  /** The record `encrypt` returns for given salt and iv (the random draws). */
  function Sealed(p: Primitives, plaintext: string, password: string, salt: seq<byte>, iv: seq<byte>): string
  {
    Encode(salt + iv + SealedBody(p, plaintext, password, salt, iv))
  }

  /**
   * `CryptoUtils.encrypt`. The random salt and iv that `crypto.getRandomValues` draws
   * (16 and 12 bytes) are parameters.
   */
  method Encrypt(p: Primitives, plaintext: string, password: string, salt: seq<byte>, iv: seq<byte>)
    returns (record: string)
    requires |salt| == SALT_LENGTH && |iv| == IV_LENGTH
    ensures record == Sealed(p, plaintext, password, salt, iv)
  {
    var key := DeriveKey(p, password, salt);
    var encrypted := p.gcmSeal(key, iv, p.utf8Encode(plaintext));
    var combined := Combine(salt, iv, encrypted);
    assert combined == salt + iv + encrypted;
    BinaryRoundTrip(combined);
    record := Btoa(FromCharCodes(combined)).value;
  }

  /** `CryptoUtils.decrypt`: every failure along the way raises the one vault error. */
  function Decrypt(p: Primitives, record: string, password: string): (r: Result<string, string>)
    ensures r.Failure? ==> r.error == DECRYPT_ERROR
  {
    match Atob(record)
    case Failure(_) => Failure(DECRYPT_ERROR)
    case Success(binary) =>
      var (salt, iv, encrypted) := Split(ToUint8Array(binary));
      match p.gcmOpen(DeriveKey(p, password, salt), iv, encrypted)
      case None => Failure(DECRYPT_ERROR)
      case Some(plain) => Success(p.utf8Decode(plain))
  }

  /** Decryption, step by step on the bytes a record decodes to. */
  lemma DecryptBytes(p: Primitives, record: string, password: string, combined: seq<byte>)
    requires Decode(record) == Success(combined)
    ensures Decrypt(p, record, password) ==
      var (salt, iv, encrypted) := Split(combined);
      match p.gcmOpen(DeriveKey(p, password, salt), iv, encrypted)
      case None => Failure(DECRYPT_ERROR)
      case Some(plain) => Success(p.utf8Decode(plain))
  {
    CharCodesOfBytes(combined);
  }

  /**
   * Round trip: a record decrypts, under the password it was made with, to its plaintext; the
   * decoder drops a leading byte order mark, so only a plaintext without one comes back whole.
   */
  lemma DecryptEncrypt(p: Primitives, plaintext: string, password: string, salt: seq<byte>, iv: seq<byte>)
    requires Sound(p)
    requires |salt| == SALT_LENGTH && |iv| == IV_LENGTH
    ensures Decrypt(p, Sealed(p, plaintext, password, salt, iv), password) == Success(StripBom(plaintext))
    ensures NoBom(plaintext) ==> Decrypt(p, Sealed(p, plaintext, password, salt, iv), password) == Success(plaintext)
    ensures !NoBom(plaintext) ==> Decrypt(p, Sealed(p, plaintext, password, salt, iv), password) != Success(plaintext)
  {
    var body := SealedBody(p, plaintext, password, salt, iv);
    DecodeEncode(salt + iv + body);
    DecryptBytes(p, Sealed(p, plaintext, password, salt, iv), password, salt + iv + body);
    SplitInvertsLayout(salt, iv, body);
  }

  /**
   * Anything that is not a sealing fails: a record decrypts under a password only if it is
   * base64 of salt ‖ iv ‖ gcmSeal(key of that password and salt, iv, m), and the result is then
   * the text of m.
   */
  lemma DecryptAcceptsOnlySealed(p: Primitives, record: string, password: string)
    requires Sound(p)
    requires Decrypt(p, record, password).Success?
    ensures exists salt: seq<byte>, iv: seq<byte>, m: seq<byte> ::
      |salt| == SALT_LENGTH && |iv| == IV_LENGTH &&
      Decode(record) == Success(salt + iv + p.gcmSeal(DeriveKey(p, password, salt), iv, m)) &&
      Decrypt(p, record, password) == Success(p.utf8Decode(m))
  {
    var combined := Decode(record).value;
    DecryptBytes(p, record, password, combined);
    var (salt, iv, encrypted) := Split(combined);
    var m := p.gcmOpen(DeriveKey(p, password, salt), iv, encrypted).value;
    assert encrypted == p.gcmSeal(DeriveKey(p, password, salt), iv, m);
    assert |encrypted| >= TAG_LENGTH;
    assert |salt| == SALT_LENGTH && |iv| == IV_LENGTH;
    assert combined == salt + iv + encrypted;
  }

  /**
   * A record whose bytes are too short to hold salt, iv and a tag (fewer than 44) never
   * decrypts, whatever the password.
   */
  lemma ShortRecordFails(p: Primitives, record: string, password: string, combined: seq<byte>)
    requires Sound(p)
    requires Decode(record) == Success(combined)
    requires |combined| < SALT_LENGTH + IV_LENGTH + TAG_LENGTH
    ensures Decrypt(p, record, password) == Failure(DECRYPT_ERROR)
  {
    DecryptBytes(p, record, password, combined);
    assert |Split(combined).2| < TAG_LENGTH;
  }

  /**
   * A wrong password fails unless the stored ciphertext happens to be a valid sealing under
   * the wrong password's key as well (a collision the authenticity of AES-GCM rules out in practice).
   */
  lemma WrongPasswordFails(p: Primitives, plaintext: string, password: string, other: string,
                           salt: seq<byte>, iv: seq<byte>)
    requires Sound(p)
    requires |salt| == SALT_LENGTH && |iv| == IV_LENGTH
    requires forall m :: p.gcmSeal(DeriveKey(p, other, salt), iv, m) != SealedBody(p, plaintext, password, salt, iv)
    ensures Decrypt(p, Sealed(p, plaintext, password, salt, iv), other) == Failure(DECRYPT_ERROR)
  {
    var body := SealedBody(p, plaintext, password, salt, iv);
    DecodeEncode(salt + iv + body);
    DecryptBytes(p, Sealed(p, plaintext, password, salt, iv), other, salt + iv + body);
    SplitInvertsLayout(salt, iv, body);
    var key := DeriveKey(p, other, salt);
    var result := p.gcmOpen(key, iv, body);
    assert result.Some? ==> body == p.gcmSeal(key, iv, result.value);
  }

  /** Fresh randomness shows: two records with different salts or ivs are different strings. */
  lemma FreshDrawsGiveDistinctRecords(p: Primitives, m1: string, pw1: string, salt1: seq<byte>, iv1: seq<byte>,
                                      m2: string, pw2: string, salt2: seq<byte>, iv2: seq<byte>)
    requires |salt1| == SALT_LENGTH && |iv1| == IV_LENGTH
    requires |salt2| == SALT_LENGTH && |iv2| == IV_LENGTH
    requires salt1 != salt2 || iv1 != iv2
    ensures Sealed(p, m1, pw1, salt1, iv1) != Sealed(p, m2, pw2, salt2, iv2)
  {
    var c1 := salt1 + iv1 + SealedBody(p, m1, pw1, salt1, iv1);
    var c2 := salt2 + iv2 + SealedBody(p, m2, pw2, salt2, iv2);
    DecodeEncode(c1);
    DecodeEncode(c2);
    if Encode(c1) == Encode(c2) {
      assert c1 == c2;
      SplitInvertsLayout(salt1, iv1, SealedBody(p, m1, pw1, salt1, iv1));
      SplitInvertsLayout(salt2, iv2, SealedBody(p, m2, pw2, salt2, iv2));
      assert false;
    }
  }

  // ------------------------------------------------------------- password hash

  /** `CryptoUtils.hashPassword`: base64 of SHA-256 of the UTF-8 password; no salt enters it. */
  function HashPassword(p: Primitives, password: string): (digest: string)
  {
    Encode(p.sha256(p.utf8Encode(password)))
  }

  /** `hashPassword` is what `btoa(String.fromCharCode(...digest))` returns, and is 44 characters long. */
  lemma HashPasswordShape(p: Primitives, password: string)
    requires Sound(p)
    ensures Btoa(FromCharCodes(p.sha256(p.utf8Encode(password)))) == Success(HashPassword(p, password))
    ensures |HashPassword(p, password)| == 44
  {
    BinaryRoundTrip(p.sha256(p.utf8Encode(password)));
    EncodeLength(p.sha256(p.utf8Encode(password)));
  }

  // ------------------------------------------------------- the assumptions hold

  /** Three bytes per character: a concrete encoding used only to show `Sound` can be met. */
  function ToyUtf8Encode(s: string): seq<byte>
  {
    if |s| == 0 then [] else
      var v := s[0] as int;
      [v / 65536, v / 256 % 256, v % 256] + ToyUtf8Encode(s[1..])
  }

  function ToyUtf8Decode(b: seq<byte>): string
    decreases |b|
  {
    if |b| < 3 then [] else
      var v := b[0] as int * 65536 + b[1] as int * 256 + b[2] as int;
      var c := if v < 0xD800 || (0xE000 <= v < 0x110000) then v as char else '?';
      [c] + ToyUtf8Decode(b[3..])
  }

  lemma ThreeDigits(v: nat)
    requires v < 0x110000
    ensures v / 65536 < 256
    ensures v / 65536 * 65536 + v / 256 % 256 * 256 + v % 256 == v
  {
    var a, r := v / 65536, v % 65536;
    var b, c := r / 256, r % 256;
    assert v == (a * 256 + b) * 256 + c;
    assert v / 256 == a * 256 + b;
    assert v / 256 % 256 == b;
    assert v % 256 == c;
  }

  lemma {:induction false} ToyUtf8RoundTrip(s: string)
    ensures ToyUtf8Decode(ToyUtf8Encode(s)) == s
  {
    if |s| > 0 {
      var v := s[0] as int;
      var e := ToyUtf8Encode(s);
      assert e[3..] == ToyUtf8Encode(s[1..]);
      ThreeDigits(v);
      assert e[0] as int * 65536 + e[1] as int * 256 + e[2] as int == v;
      ToyUtf8RoundTrip(s[1..]);
      assert [s[0]] + s[1..] == s;
    }
  }

  /** Primitives that satisfy every assumption of `Sound` (a tag of 16 zero bytes, no secrecy). */
  function ToyPrimitives(): Primitives
  {
    Primitives(
      (prm: Pbkdf2Params, pw: seq<byte>, salt: seq<byte>) => seq(prm.keyBits / 8, _ => 0),
      (k: seq<byte>, iv: seq<byte>, m: seq<byte>) => m + seq(TAG_LENGTH, _ => 0),
      (k: seq<byte>, iv: seq<byte>, c: seq<byte>) =>
        if |c| >= TAG_LENGTH && c[|c| - TAG_LENGTH..] == seq(TAG_LENGTH, _ => 0)
        then Some(c[..|c| - TAG_LENGTH]) else None,
      (x: seq<byte>) => seq(DIGEST_LENGTH, _ => 0),
      ToyUtf8Encode,
      (b: seq<byte>) => StripBom(ToyUtf8Decode(b)))
  }

  /** The assumptions are consistent: some primitives meet them all. */
  lemma SoundIsSatisfiable()
    ensures Sound(ToyPrimitives())
  {
    var p := ToyPrimitives();
    forall k, iv, m ensures p.gcmOpen(k, iv, p.gcmSeal(k, iv, m)) == Some(m) {
      var c := m + seq(TAG_LENGTH, _ => 0);
      assert c[|c| - TAG_LENGTH..] == seq(TAG_LENGTH, _ => 0);
      assert c[..|c| - TAG_LENGTH] == m;
    }
    forall k, iv, c | p.gcmOpen(k, iv, c).Some?
      ensures c == p.gcmSeal(k, iv, p.gcmOpen(k, iv, c).value)
    {
      assert c == c[..|c| - TAG_LENGTH] + c[|c| - TAG_LENGTH..];
    }
    forall s ensures p.utf8Decode(p.utf8Encode(s)) == StripBom(s) {
      ToyUtf8RoundTrip(s);
    }
  }
}
