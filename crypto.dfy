/** The hash, MAC and HKDF algorithms the key schedule resolves from a cipher suite,
    and the key-derivation primitives themselves, which the model leaves
    uninterpreted: they are values handed to the modelled code. */
module Crypto {
  import opened Wrappers
  import opened Bytes
  import opened TlsConstants

  datatype HkdfAlgorithm = TlsHkdfSha256 | TlsHkdfSha384
  datatype MacAlgorithm = HmacSha256 | HmacSha384
  datatype DigestAlgorithm = Sha256 | Sha384

  /** The MAC an HKDF algorithm is built on. */
  function MacAlgorithmOf(h: HkdfAlgorithm): MacAlgorithm
  {
    match h
    case TlsHkdfSha256 => HmacSha256
    case TlsHkdfSha384 => HmacSha384
  }

  /** `AlgorithmResolver.getHKDFAlgorithm`: the suite's hash, section B.4 of RFC 8446. */
  function HkdfAlgorithmOf(c: CipherSuite): HkdfAlgorithm
  {
    if c == TlsAes256GcmSha384 then TlsHkdfSha384 else TlsHkdfSha256
  }

  /** `AlgorithmResolver.getDigestAlgorithm(TLS13, c)`. */
  function DigestAlgorithmOf(c: CipherSuite): DigestAlgorithm
  {
    if c == TlsAes256GcmSha384 then Sha384 else Sha256
  }

  /** `AlgorithmResolver.getCipher(c).getKeySize()`: the AEAD key length in bytes. */
  function CipherKeySize(c: CipherSuite): nat
  {
    match c
    case TlsAes256GcmSha384 => 32
    case TlsChacha20Poly1305Sha256 => 32
    case _ => 16
  }

  /** The HKDF-Expand-Label labels of sections 7.2 and 7.3 of RFC 8446 and of
      section 5.1 of draft-ietf-tls-esni-02. */
  const TRAFFIC_UPD_LABEL: string := "traffic upd"
  const IV_LABEL: string := "iv"
  const KEY_LABEL: string := "key"
  const ESNI_KEY_LABEL: string := "esni key"
  const ESNI_IV_LABEL: string := "esni iv"

  /** The key-derivation primitives. A `None` result is the checked exception the
      Java primitive raises: `NoSuchAlgorithmException` for `macLength` and
      `digest`, `CryptoException` for `expandLabel` and `extract`. */
  datatype Hkdf = Hkdf(
    macLength: MacAlgorithm -> Option<nat>,
    expandLabel: (HkdfAlgorithm, Bytes, string, Bytes, nat) -> Option<Bytes>,
    extract: (HkdfAlgorithm, Option<Bytes>, Bytes) -> Option<Bytes>,
    digest: (DigestAlgorithm, Bytes) -> Option<Bytes>)

  /** HKDF-Expand-Label returns as many bytes as it is asked for. */
  ghost predicate ExpandsToLength(h: Hkdf)
  {
    forall a, s, l, c, n :: h.expandLabel(a, s, l, c, n).Some? ==> |h.expandLabel(a, s, l, c, n).value| == n
  }
}
