/** The TLS constants the modelled preparators and handlers use: connection ends,
    named groups, cipher suites, point formats, curve types and the KeyUpdate flag.
    Only the enumeration members the model needs are present. */
module TlsConstants {
  import opened Wrappers
  import opened Bytes

  /** Which side of the connection a role is. */
  datatype ConnectionEndType = Client | Server

  /** The named groups of section 4.2.7 of RFC 8446 used here. */
  datatype NamedGroup = Secp256r1 | Secp384r1 | Secp521r1 | EcdhX25519 | EcdhX448 | Ffdhe2048

  /** `NamedGroup.getValue()`: the two-byte wire code. */
  function NamedGroupValue(g: NamedGroup): (r: Bytes)
    ensures |r| == 2
  {
    match g
    case Secp256r1 => [0x00, 0x17]
    case Secp384r1 => [0x00, 0x18]
    case Secp521r1 => [0x00, 0x19]
    case EcdhX25519 => [0x00, 0x1D]
    case EcdhX448 => [0x00, 0x1E]
    case Ffdhe2048 => [0x01, 0x00]
  }

  /** `NamedGroup.toString()`: the enumeration constant's name. */
  function NamedGroupName(g: NamedGroup): string
  {
    match g
    case Secp256r1 => "SECP256R1"
    case Secp384r1 => "SECP384R1"
    case Secp521r1 => "SECP521R1"
    case EcdhX25519 => "ECDH_X25519"
    case EcdhX448 => "ECDH_X448"
    case Ffdhe2048 => "FFDHE2048"
  }

  /** `NamedGroup.getNamedGroup(byte[])`: the group a wire code names, or null. */
  function NamedGroupFromValue(b: Bytes): (r: Option<NamedGroup>)
    ensures r.Some? ==> NamedGroupValue(r.value) == b
  {
    if b == [0x00, 0x17] then Some(Secp256r1)
    else if b == [0x00, 0x18] then Some(Secp384r1)
    else if b == [0x00, 0x19] then Some(Secp521r1)
    else if b == [0x00, 0x1D] then Some(EcdhX25519)
    else if b == [0x00, 0x1E] then Some(EcdhX448)
    else if b == [0x01, 0x00] then Some(Ffdhe2048)
    else None
  }

  /** Every group is found again from its wire code. */
  lemma NamedGroupValueRoundTrip(g: NamedGroup)
    ensures NamedGroupFromValue(NamedGroupValue(g)) == Some(g)
  {
  }

  /** The cipher suites used here: the five of section B.4 of RFC 8446 and two
      TLS 1.2 suites, one of them a CCM_8 suite. */
  datatype CipherSuite =
    | TlsAes128GcmSha256
    | TlsAes256GcmSha384
    | TlsChacha20Poly1305Sha256
    | TlsAes128CcmSha256
    | TlsAes128Ccm8Sha256
    | TlsEcdheEcdsaWithAes128Ccm8
    | TlsEcdheRsaWithAes128GcmSha256

  /** `CipherSuite.getByteValue()`: the two-byte wire code. */
  function CipherSuiteValue(c: CipherSuite): (r: Bytes)
    ensures |r| == 2
  {
    match c
    case TlsAes128GcmSha256 => [0x13, 0x01]
    case TlsAes256GcmSha384 => [0x13, 0x02]
    case TlsChacha20Poly1305Sha256 => [0x13, 0x03]
    case TlsAes128CcmSha256 => [0x13, 0x04]
    case TlsAes128Ccm8Sha256 => [0x13, 0x05]
    case TlsEcdheEcdsaWithAes128Ccm8 => [0xC0, 0xAE]
    case TlsEcdheRsaWithAes128GcmSha256 => [0xC0, 0x2F]
  }

  /** `CipherSuite.getCipherSuite(byte[])`: the suite a wire code names, or null. */
  function CipherSuiteFromValue(b: Bytes): (r: Option<CipherSuite>)
    ensures r.Some? ==> CipherSuiteValue(r.value) == b
  {
    if b == [0x13, 0x01] then Some(TlsAes128GcmSha256)
    else if b == [0x13, 0x02] then Some(TlsAes256GcmSha384)
    else if b == [0x13, 0x03] then Some(TlsChacha20Poly1305Sha256)
    else if b == [0x13, 0x04] then Some(TlsAes128CcmSha256)
    else if b == [0x13, 0x05] then Some(TlsAes128Ccm8Sha256)
    else if b == [0xC0, 0xAE] then Some(TlsEcdheEcdsaWithAes128Ccm8)
    else if b == [0xC0, 0x2F] then Some(TlsEcdheRsaWithAes128GcmSha256)
    else None
  }

  /** Every suite is found again from its wire code. */
  lemma CipherSuiteValueRoundTrip(c: CipherSuite)
    ensures CipherSuiteFromValue(CipherSuiteValue(c)) == Some(c)
  {
  }

  /** `CipherSuite.isCCM_8()`: the suite's name contains "CCM_8". */
  predicate IsCcm8(c: CipherSuite)
  {
    c == TlsAes128Ccm8Sha256 || c == TlsEcdheEcdsaWithAes128Ccm8
  }

  /** The EC point formats of section 5.1.2 of RFC 8422. */
  datatype ECPointFormat = Uncompressed | AnsiX962CompressedPrime | AnsiX962CompressedChar2

  /** The curve types of section 5.4 of RFC 8422. */
  datatype EllipticCurveType = ExplicitPrime | ExplicitChar2 | NamedCurve

  /** `EllipticCurveType.getValue()`. */
  function CurveTypeValue(t: EllipticCurveType): byte
  {
    match t
    case ExplicitPrime => 1
    case ExplicitChar2 => 2
    case NamedCurve => 3
  }

  /** The request_update field of a KeyUpdate message (section 4.6.3 of RFC 8446). */
  datatype KeyUpdateRequest = UpdateNotRequested | UpdateRequested

  /** The TLS 1.3 secret a record-layer key set is derived from. */
  datatype Tls13KeySetType =
    | NoTrafficSecrets
    | EarlyTrafficSecrets
    | HandshakeTrafficSecrets
    | ApplicationTrafficSecrets

  /** A signature and hash algorithm pair of section 7.4.1.4.1 of RFC 5246. */
  datatype SignatureAndHashAlgorithm = SignatureAndHashAlgorithm(hash: byte, signature: byte)

  /** `SignatureAndHashAlgorithm.getByteValue()`: hash byte, then signature byte. */
  function SignatureAndHashValue(a: SignatureAndHashAlgorithm): (r: Bytes)
    ensures |r| == 2
  {
    [a.hash, a.signature]
  }
}
