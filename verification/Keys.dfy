/** Object-store keys: where verified blobs and staged uploads live. */
module Keys {
  type Digest = string
  type Uuid = string

  const STORAGE_KEY_PREFIX := "cas/sha256/"
  const STAGING_UPLOAD_PREFIX := "staging/uploads/"
  const DIGEST_PREFIX := "sha256:"

  predicate LowerHex(c: char) {
    '0' <= c <= '9' || 'a' <= c <= 'f'
  }

  /** What `ParseDigest` accepts: sha256: followed by 64 lower-case hexadecimal characters. */
  predicate ValidDigest(d: Digest) {
    && |d| == 71
    && DIGEST_PREFIX <= d
    && forall k | 7 <= k < 71 :: LowerHex(d[k])
  }

  /** The digest-addressed key, or the empty text for a malformed digest. */
  function StorageKey(d: Digest): string {
    if ValidDigest(d) then
      var raw := d[7..];
      STORAGE_KEY_PREFIX + raw[..2] + "/" + raw[2..4] + "/" + raw
    else ""
  }

  function StagingKey(id: Uuid): string {
    STAGING_UPLOAD_PREFIX + id
  }

  /** Keys as the protocol handles them; `KeyText` is the text the object store sees. */
  datatype Key = Cas(digest: Digest) | Staging(id: Uuid)

  function KeyText(k: Key): string {
    match k
    case Cas(d) => StorageKey(d)
    case Staging(id) => StagingKey(id)
  }

  predicate ValidKey(k: Key) {
    k.Cas? ==> ValidDigest(k.digest)
  }

  /** Reads the digest back out of a storage key. */
  lemma StorageKeyRoundTrip(d: Digest)
    requires ValidDigest(d)
    ensures |StorageKey(d)| == 81
    ensures StorageKey(d)[..11] == "cas/sha256/" && StorageKey(d)[13] == '/' && StorageKey(d)[16] == '/'
    ensures StorageKey(d)[11..13] == d[7..9] && StorageKey(d)[14..16] == d[9..11]
    ensures DIGEST_PREFIX + StorageKey(d)[17..] == d
  {
    var raw, key := d[7..], StorageKey(d);
    assert key == STORAGE_KEY_PREFIX + (raw[..2] + "/" + raw[2..4] + "/" + raw);
    assert key[..11] == STORAGE_KEY_PREFIX && key[11..] == raw[..2] + "/" + raw[2..4] + "/" + raw;
    assert key[11..13] == raw[..2] == d[7..9] && key[14..16] == raw[2..4] == d[9..11];
    assert key[17..] == raw;
    assert d == d[..7] + d[7..];
  }

  /** Distinct digests and uploads never share an object, and no staged upload is under a CAS key. */
  lemma KeySpacesAreDisjoint(a: Key, b: Key)
    requires ValidKey(a) && ValidKey(b)
    ensures KeyText(a) == KeyText(b) <==> a == b
    ensures a.Cas? && b.Staging? ==> KeyText(a) != KeyText(b)
    ensures KeyText(a) != ""
  {
    if a.Cas? {
      StorageKeyRoundTrip(a.digest);
    }
    if b.Cas? {
      StorageKeyRoundTrip(b.digest);
    }
    if a.Cas? && b.Staging? {
      assert KeyText(a)[..11][0] == 'c' && KeyText(b)[0] == 's';
    }
    if a.Staging? && b.Cas? {
      assert KeyText(a)[0] == 's' && KeyText(b)[..11][0] == 'c';
    }
    if a.Staging? && b.Staging? {
      assert KeyText(a)[16..] == a.id && KeyText(b)[16..] == b.id;
    }
  }
}
