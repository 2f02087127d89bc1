/** Sealing credential material: format v1, an HMAC counter-mode keystream with a tag, and
    format v2, which hands the work to AES-GCM where that is installed. scrypt, HMAC and
    AES-GCM are functions this model is given; nothing is said here about secrecy. */
module SecretBox {
  import opened Tasks
  import opened Base64
  import opened Cipher
  import opened Text

  // ---------- the format ----------

  datatype SealError = Malformed | BadBase64 | UnknownVersion | NoAesGcm | BadTag | CounterOverflow

  datatype Result<T> = Ok(value: T) | Err(error: SealError)

  datatype Blob = Blob(version: string, salt: seq<Byte>, nonce: seq<Byte>, ciphertext: seq<Byte>, tag: seq<Byte>)

  function JoinBlob(b: Blob): string {
    Join([b.version, Encode(b.salt), Encode(b.nonce), Encode(b.ciphertext), Encode(b.tag)], '$')
  }

  function SplitBlob(text: string): Result<Blob> {
    var pieces := Split(text, '$');
    if |pieces| != 5 then Err(Malformed)
    else
      var salt, nonce, ciphertext, tag := Decode(pieces[1]), Decode(pieces[2]), Decode(pieces[3]), Decode(pieces[4]);
      if salt.None? || nonce.None? || ciphertext.None? || tag.None? then Err(BadBase64)
      else Ok(Blob(pieces[0], salt.value, nonce.value, ciphertext.value, tag.value))
  }

  lemma JoinStep(first: string, rest: seq<string>, sep: char)
    requires rest != []
    ensures Join([first] + rest, sep) == first + [sep] + Join(rest, sep)
  {
    assert ([first] + rest)[1..] == rest;
  }

  /** The five fields in order, with four separators. */
  lemma BlobLayout(b: Blob)
    ensures JoinBlob(b) == b.version + ['$'] + (Encode(b.salt) + ['$'] + (Encode(b.nonce) + ['$']
                           + (Encode(b.ciphertext) + ['$'] + Encode(b.tag))))
  {
    var (s, n, c, t) := (Encode(b.salt), Encode(b.nonce), Encode(b.ciphertext), Encode(b.tag));
    assert [b.version, s, n, c, t] == [b.version] + ([s] + ([n] + ([c] + [t])));
    JoinStep(c, [t], '$');
    JoinStep(n, [c] + [t], '$');
    JoinStep(s, [n] + ([c] + [t]), '$');
    JoinStep(b.version, [s] + ([n] + ([c] + [t])), '$');
  }

  /** A blob comes apart into what it was made of, because no version and no base64url text
      holds a `$`. */
  lemma SplitJoinBlob(b: Blob)
    requires Free(b.version, '$')
    ensures SplitBlob(JoinBlob(b)) == Ok(b)
  {
    EncodeAlphabet(b.salt);
    EncodeAlphabet(b.nonce);
    EncodeAlphabet(b.ciphertext);
    EncodeAlphabet(b.tag);
    SplitJoin([b.version, Encode(b.salt), Encode(b.nonce), Encode(b.ciphertext), Encode(b.tag)], '$');
    RoundTrip(b.salt);
    RoundTrip(b.nonce);
    RoundTrip(b.ciphertext);
    RoundTrip(b.tag);
  }

  // ---------- sealing and opening ----------

  type DerivedKey = k: seq<Byte> | |k| == 64 witness seq(64, _ => 0)

  /** AES-GCM by key, nonce and data; decryption fails on a bad tag. */
  datatype Aead = Aead(
    encrypt: (seq<Byte>, seq<Byte>, seq<Byte>) -> seq<Byte>,
    decrypt: (seq<Byte>, seq<Byte>, seq<Byte>) -> Option<seq<Byte>>)

  /** What a host provides. AES-GCM may not be installed. */
  datatype Host = Host(scrypt: (seq<Byte>, seq<Byte>) -> DerivedKey, hmac: Hmac, aead: Option<Aead>)

  function EncKey(key: DerivedKey): seq<Byte> {
    key[..32]
  }

  function MacKey(key: DerivedKey): seq<Byte> {
    key[32..]
  }

  /** `salt` and `nonce` are the random bytes drawn for this blob. */
  function Seal(h: Host, passphrase: seq<Byte>, data: seq<Byte>, salt: seq<Byte>, nonce: seq<Byte>): Result<string> {
    var key := h.scrypt(passphrase, salt);
    if h.aead.Some? then Ok(JoinBlob(Blob("v2", salt, nonce, h.aead.value.encrypt(EncKey(key), nonce, data), [])))
    else
      match KeystreamOf(h.hmac, EncKey(key), nonce, |data|)
      case None => Err(CounterOverflow)
      case Some(pad) =>
        var ciphertext := XorAll(data, pad);
        Ok(JoinBlob(Blob("v1", salt, nonce, ciphertext, h.hmac(MacKey(key), nonce + ciphertext))))
  }

  function Open(h: Host, passphrase: seq<Byte>, text: string): Result<seq<Byte>> {
    match SplitBlob(text)
    case Err(e) => Err(e)
    case Ok(b) =>
      var key := h.scrypt(passphrase, b.salt);
      if b.version == "v2" then
        if h.aead.None? then Err(NoAesGcm)
        else
          match h.aead.value.decrypt(EncKey(key), b.nonce, b.ciphertext)
          case None => Err(BadTag)
          case Some(data) => Ok(data)
      else if b.version != "v1" then Err(UnknownVersion)
      else if h.hmac(MacKey(key), b.nonce + b.ciphertext) != b.tag then Err(BadTag)
      else
        match KeystreamOf(h.hmac, EncKey(key), b.nonce, |b.ciphertext|)
        case None => Err(CounterOverflow)
        case Some(pad) => Ok(XorAll(b.ciphertext, pad))
  }

  /** What is in a v1 blob: under the first half of the derived key each byte of the data differs
      from its ciphertext in just the bits of its keystream byte, which is taken from the MAC of
      nonce and block number; and the tag is the MAC of nonce and ciphertext under the other half. */
  lemma SealedIsMasked(h: Host, passphrase: seq<Byte>, data: seq<Byte>, salt: seq<Byte>, nonce: seq<Byte>, i: nat)
    requires h.aead.None? && i < |data| <= 32 * COUNTERS
    ensures Seal(h, passphrase, data, salt, nonce).Ok? && SplitBlob(Seal(h, passphrase, data, salt, nonce).value).Ok?
    ensures
      var b := SplitBlob(Seal(h, passphrase, data, salt, nonce).value).value;
      var key := h.scrypt(passphrase, salt);
      && b.version == "v1" && b.salt == salt && b.nonce == nonce && |b.ciphertext| == |data|
      && Differ(b.ciphertext[i], data[i], h.hmac(key[..32], nonce + BigEndian(i / 32, 8))[i % 32])
      && b.tag == h.hmac(key[32..], nonce + b.ciphertext)
  {
    var key := h.scrypt(passphrase, salt);
    var pad := KeystreamOf(h.hmac, EncKey(key), nonce, |data|).value;
    var ciphertext := XorAll(data, pad);
    SplitJoinBlob(Blob("v1", salt, nonce, ciphertext, h.hmac(MacKey(key), nonce + ciphertext)));
    KeystreamBytes(h.hmac, EncKey(key), nonce, |data|, i, i);
    XorAllDiffers(data, pad, i);
  }

  /** Where AES-GCM is installed the blob is v2, and what it holds is AES-GCM's. */
  lemma SealedByAesGcm(h: Host, passphrase: seq<Byte>, data: seq<Byte>, salt: seq<Byte>, nonce: seq<Byte>)
    requires h.aead.Some?
    ensures Seal(h, passphrase, data, salt, nonce).Ok?
    ensures SplitBlob(Seal(h, passphrase, data, salt, nonce).value)
            == Ok(Blob("v2", salt, nonce, h.aead.value.encrypt(h.scrypt(passphrase, salt)[..32], nonce, data), []))
  {
    SplitJoinBlob(Blob("v2", salt, nonce, h.aead.value.encrypt(EncKey(h.scrypt(passphrase, salt)), nonce, data), []));
  }

  /** A v1 blob fails authentication if and only if its tag is not the MAC of its nonce and
      ciphertext; nothing else is looked at before that is known. */
  lemma TagIsChecked(h: Host, passphrase: seq<Byte>, text: string)
    requires SplitBlob(text).Ok? && SplitBlob(text).value.version == "v1"
    ensures
      var b := SplitBlob(text).value;
      Open(h, passphrase, text) == Err(BadTag)
      <==> b.tag != h.hmac(h.scrypt(passphrase, b.salt)[32..], b.nonce + b.ciphertext)
  {
  }

  /** Two hosts share the standard functions; AES-GCM, where both have it, undoes itself. */
  ghost predicate Agree(a: Host, b: Host) {
    && a.scrypt == b.scrypt && a.hmac == b.hmac
    && (a.aead.Some? && b.aead.Some? ==>
    forall key, nonce, data :: b.aead.value.decrypt(key, nonce, a.aead.value.encrypt(key, nonce, data)) == Some(data))
  }

  /** What one host seals another one opens with the same passphrase, for all data, salts and
      nonces. The one exception is a v2 blob brought to a host without AES-GCM, and that is
      reported; a host that gains AES-GCM still opens its v1 blobs. */
  lemma SealedOpens(a: Host, b: Host, passphrase: seq<Byte>, data: seq<Byte>, salt: seq<Byte>, nonce: seq<Byte>)
    requires Agree(a, b)
    ensures
      match Seal(a, passphrase, data, salt, nonce)
      case Err(e) => e == CounterOverflow && a.aead.None? && |data| > 32 * COUNTERS
      case Ok(text) => Open(b, passphrase, text) == if a.aead.Some? && b.aead.None? then Err(NoAesGcm) else Ok(data)
  {
    var key := a.scrypt(passphrase, salt);
    if a.aead.Some? {
      SplitJoinBlob(Blob("v2", salt, nonce, a.aead.value.encrypt(EncKey(key), nonce, data), []));
    } else if |data| <= 32 * COUNTERS {
      var pad := KeystreamOf(a.hmac, EncKey(key), nonce, |data|).value;
      var ciphertext := XorAll(data, pad);
      SplitJoinBlob(Blob("v1", salt, nonce, ciphertext, a.hmac(MacKey(key), nonce + ciphertext)));
      XorAllTwice(data, pad);
    }
  }

  /** And the other way: anything that opens as v1 is what sealing the result again, with the
      salt and nonce it carries, produces. */
  lemma OpenedSeals(h: Host, passphrase: seq<Byte>, text: string, data: seq<Byte>)
    requires h.aead.None? && Open(h, passphrase, text) == Ok(data)
    ensures SplitBlob(text).Ok?
    ensures var b := SplitBlob(text).value;
            b.version == "v1" && Seal(h, passphrase, data, b.salt, b.nonce) == Ok(JoinBlob(b))
  {
    var b := SplitBlob(text).value;
    var key := h.scrypt(passphrase, b.salt);
    var pad := KeystreamOf(h.hmac, EncKey(key), b.nonce, |b.ciphertext|).value;
    XorAllTwice(b.ciphertext, pad);
  }

  /** A blob that comes apart is refused for its version if and only if that is neither of the two. */
  lemma UnknownVersionExactly(h: Host, passphrase: seq<Byte>, text: string)
    requires SplitBlob(text).Ok?
    ensures Open(h, passphrase, text) == Err(UnknownVersion) <==> SplitBlob(text).value.version !in {"v1", "v2"}
  {
  }

  /** The format error is for text without exactly four separators, whatever is in it. */
  lemma MalformedExactly(h: Host, passphrase: seq<Byte>, text: string)
    ensures Open(h, passphrase, text) == Err(Malformed) <==> Occurrences(text, '$') != 4
  {
    SplitCount(text, '$');
  }
}
