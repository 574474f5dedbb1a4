/**
 * `verify_canonical_sha256`: reconciles a document's declared SHA-256 digest
 * with the digest of its canonical bytes. The hash function itself (FIPS
 * 180-4 SHA-256, the `cork_hash::sha256` wrapper) is a parameter: any total
 * function from byte strings to 32-byte digests.
 */
module Integrity {
  import opened Proto

  type Digest256 = d: seq<byte> | |d| == 32 witness seq(32, _ => 0)

  /** `cork_hash::sha256`, left abstract. */
  type Sha256Fn = seq<byte> -> Digest256

  const DigestLengthMessage := "sha256.bytes32 must be 32 bytes"

  /** `Sha256Verification`. */
  datatype Verification =
    | MatchOrMissing
    | Mismatch(expected: Digest256, provided: seq<byte>)

  /** The declared digest bytes; an absent `sha256` field reads as empty. */
  function DeclaredDigest(doc: CanonicalJsonDocument): seq<byte> {
    if doc.sha256.Some? then doc.sha256.value.bytes32 else []
  }

  /** A declared digest that is neither empty nor 32 bytes long. */
  predicate MalformedDigest(doc: CanonicalJsonDocument) {
    |DeclaredDigest(doc)| != 0 && |DeclaredDigest(doc)| != 32
  }

  /** The document is unchecked (no digest) or its digest is that of its bytes. */
  predicate DigestAgrees(doc: CanonicalJsonDocument, sha256: Sha256Fn) {
    DeclaredDigest(doc) == [] || DeclaredDigest(doc) == sha256(doc.canonicalJsonUtf8)
  }

  /** `verify_canonical_sha256`. */
  function VerifyCanonicalSha256(doc: CanonicalJsonDocument, sha256: Sha256Fn): (r: Result<Verification>)
    // a malformed declaration is the only error, and it is an invalid_argument
    ensures r.Err? <==> MalformedDigest(doc)
    ensures r.Err? ==> r.error == Status.InvalidArgument(DigestLengthMessage)
    // a pass exactly when the digest is absent, empty or right
    ensures r == Ok(MatchOrMissing) <==> !MalformedDigest(doc) && DigestAgrees(doc, sha256)
    // a mismatch carries the computed digest and the declared bytes unchanged
    ensures r.Ok? && r.value.Mismatch? ==>
      && r.value.expected == sha256(doc.canonicalJsonUtf8)
      && r.value.provided == DeclaredDigest(doc)
      && |r.value.provided| == 32
      && r.value.provided != r.value.expected
  {
    match doc.sha256
    case None => Ok(MatchOrMissing)
    case Some(sha) =>
      if |sha.bytes32| == 0 then Ok(MatchOrMissing)
      else if |sha.bytes32| != 32 then Err(Status.InvalidArgument(DigestLengthMessage))
      else
        var computed := sha256(doc.canonicalJsonUtf8);
        if sha.bytes32 == computed then Ok(MatchOrMissing)
        else Ok(Mismatch(computed, sha.bytes32))
  }

  /** Without a declared digest the verdict is a pass whatever the document's bytes and schema. */
  lemma UncheckedIgnoresContent(doc: CanonicalJsonDocument, other: CanonicalJsonDocument, sha256: Sha256Fn)
    requires DeclaredDigest(doc) == [] && DeclaredDigest(other) == []
    ensures VerifyCanonicalSha256(doc, sha256) == VerifyCanonicalSha256(other, sha256) == Ok(MatchOrMissing)
  {
  }

  /** Changing any one byte of a correct digest turns the pass into a mismatch. */
  lemma AlteredDigestMismatches(doc: CanonicalJsonDocument, sha256: Sha256Fn, i: nat, b: byte)
    requires DeclaredDigest(doc) == sha256(doc.canonicalJsonUtf8)
    requires i < 32 && b != DeclaredDigest(doc)[i]
    ensures VerifyCanonicalSha256(doc, sha256) == Ok(MatchOrMissing)
    ensures
      var altered := doc.(sha256 := Some(Sha256(DeclaredDigest(doc)[i := b])));
      VerifyCanonicalSha256(altered, sha256)
        == Ok(Mismatch(sha256(doc.canonicalJsonUtf8), DeclaredDigest(doc)[i := b]))
  {
    var altered := doc.(sha256 := Some(Sha256(DeclaredDigest(doc)[i := b])));
    assert DeclaredDigest(altered)[i] != sha256(doc.canonicalJsonUtf8)[i];
  }
}
