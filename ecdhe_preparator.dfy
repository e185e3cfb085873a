/** The ECDHE ServerKeyExchange preparator (sections 5.1.2 and 5.4 of RFC 8422):
    it negotiates the named-group and point-format lists into the message
    computations, fixes the curve type and the named group, reads the domain
    parameters (retrying once), generates the ephemeral key pair, serializes the
    public point and signs client random, server random and the ECParameters and
    point. */
module EcdhePreparator {
  import opened Wrappers
  import opened Bytes
  import opened TlsConstants
  import opened Lists
  import opened EcdheLists

  /** A list held in the computations: the value the preparator serialized, or
      bytes that do not deserialize to a list (a value set from elsewhere). */
  datatype EncodedList<T> = Encoded(items: seq<T>) | Undecodable(raw: Bytes)

  /** The intermediate values of the message, none sent on the wire. */
  datatype EcdheComputations = EcdheComputations(
    namedGroupList: Option<EncodedList<NamedGroup>>,
    ecPointFormatList: Option<EncodedList<ECPointFormat>>,
    clientServerRandom: Option<Bytes>,
    privateKey: Option<nat>)

  const NO_COMPUTATIONS: EcdheComputations := EcdheComputations(None, None, None, None)

  /** The configuration entries the preparator reads. */
  datatype EcdheConfig = EcdheConfig(
    enforceSettings: bool,
    defaultServerSupportedPointFormats: seq<ECPointFormat>,
    defaultClientNamedGroups: seq<NamedGroup>,
    defaultServerNamedGroups: seq<NamedGroup>,
    defaultSelectedNamedGroup: NamedGroup)

  /** What the chooser supplies. `badSecureRandom` stands for the state of the
      context's random source the key pair is drawn from. */
  datatype EcdheChooser = EcdheChooser(
    config: EcdheConfig,
    serverSupportedPointFormats: seq<ECPointFormat>,
    clientSupportedPointFormats: seq<ECPointFormat>,
    clientSupportedNamedGroups: seq<NamedGroup>,
    serverSupportedNamedGroups: seq<NamedGroup>,
    connectionEndType: ConnectionEndType,
    ecCurveType: EllipticCurveType,
    clientRandom: Bytes,
    serverRandom: Bytes,
    selectedSigHashAlgorithm: SignatureAndHashAlgorithm,
    badSecureRandom: nat)

  /** Domain parameters and points are opaque values to the preparator. */
  datatype EcDomainParameters = EcDomainParameters(id: nat)
  datatype EcPoint = EcPoint(id: nat)
  datatype EcKeyPair = EcKeyPair(privateKey: nat, publicPoint: EcPoint)

  /** The outcome of reading ECParameters: the parameters, an IOException or an
      IndexOutOfBoundsException. */
  datatype ReadOutcome = Parsed(params: EcDomainParameters) | ReadIoFailure | ReadIndexFailure

  /** The elliptic-curve and signature primitives: reading ECParameters from a
      stream, key-pair generation, point serialization (`None`: IOException) and
      signing (`None`: CryptoException). */
  datatype EcdhePrimitives = EcdhePrimitives(
    readEcParameters: (seq<NamedGroup>, seq<ECPointFormat>, Bytes) -> ReadOutcome,
    generateKeyPair: (nat, EcDomainParameters) -> EcKeyPair,
    serializePoint: (seq<ECPointFormat>, EcPoint) -> Option<Bytes>,
    sign: (SignatureAndHashAlgorithm, Bytes) -> Option<Bytes>)

  const NO_COMPUTATIONS_MESSAGE: string := "Message computations not initialized"
  const NO_GROUPS_MESSAGE: string := "No groups specified in message computations"
  const NO_FORMATS_MESSAGE: string := "No or empty point formats specified in message computations"
  const DOMAIN_PARAMETERS_MESSAGE: string := "Failed to generate EC domain parameters"
  const READ_FORMATS_MESSAGE: string := "Couldn't read list of EC point formats from computations"
  const SERIALIZE_KEY_MESSAGE: string := "Could not serialize EC public key"
  const EXPLICIT_CURVES_MESSAGE: string := "Signing of explicit curves not implemented yet."

  /** The named groups a computations list holds; one that does not deserialize
      stands for the configured default group alone. */
  function GroupsOrDefault(l: EncodedList<NamedGroup>, default: NamedGroup): (r: seq<NamedGroup>)
    ensures l.Encoded? ==> r == l.items
    ensures l.Undecodable? ==> r == [default]
  {
    match l
    case Encoded(items) => items
    case Undecodable(_) => [default]
  }

  /** The point formats a computations list holds; one that does not deserialize
      stands for the uncompressed format alone. */
  function FormatsOrUncompressed(l: EncodedList<ECPointFormat>): (r: seq<ECPointFormat>)
    ensures l.Encoded? ==> r == l.items
    ensures l.Undecodable? ==> r == [Uncompressed]
  {
    match l
    case Encoded(items) => items
    case Undecodable(_) => [Uncompressed]
  }

  /** The ECParameters of a named curve: curve type NAMED_CURVE, then the group's code. */
  function NamedCurveParameters(group: Bytes): Bytes
  {
    [CurveTypeValue(NamedCurve)] + group
  }

  /** The signed contents: client random || server random, then ECParameters
      (curve type and named group), then the point with its one-byte length. The
      length is written with `write(int)`, which keeps only its low byte. */
  function SignatureContents(clientServerRandom: Bytes, namedGroup: Bytes, publicKeyLength: nat, publicKey: Bytes): Bytes
  {
    clientServerRandom + NamedCurveParameters(namedGroup) + [LowByte(publicKeyLength)] + publicKey
  }

  /** The fields of signed contents, as a verifier splits them. */
  datatype SignedFields = SignedFields(clientServerRandom: Bytes, curveType: byte, namedGroup: Bytes,
    pointLength: byte, publicKey: Bytes)

  /** Splits signed contents whose randoms take `randomLength` bytes and whose
      named group takes two; the point is what the length byte says. */
  function ParseSignatureContents(b: Bytes, randomLength: nat): Option<SignedFields>
  {
    if |b| < randomLength + 4 then None
    else
      var n := b[randomLength + 3] as nat;
      if |b| != randomLength + 4 + n then None
      else Some(SignedFields(b[..randomLength], b[randomLength], b[randomLength + 1..randomLength + 3],
        b[randomLength + 3], b[randomLength + 4..]))
  }

  /** Signed contents split back into what was signed, when the point is shorter
      than 256 bytes (as section 5.4 of RFC 8422 demands of its length field). */
  lemma SignatureContentsRoundTrip(clientServerRandom: Bytes, namedGroup: Bytes, publicKey: Bytes)
    requires |namedGroup| == 2 && |publicKey| < 256
    ensures ParseSignatureContents(SignatureContents(clientServerRandom, namedGroup, |publicKey|, publicKey),
      |clientServerRandom|)
      == Some(SignedFields(clientServerRandom, CurveTypeValue(NamedCurve), namedGroup, |publicKey| as byte, publicKey))
  {
    var b := SignatureContents(clientServerRandom, namedGroup, |publicKey|, publicKey);
    var m := |clientServerRandom|;
    assert b == clientServerRandom + ([CurveTypeValue(NamedCurve)] + namedGroup + [LowByte(|publicKey|)] + publicKey);
    assert b[..m] == clientServerRandom;
    assert b[m + 1..m + 3] == namedGroup;
    assert b[m + 4..] == publicKey;
  }

  /** The point length byte is the point's length modulo 256. */
  lemma SignatureContentsLengthByte(clientServerRandom: Bytes, namedGroup: Bytes, publicKeyLength: nat, publicKey: Bytes)
    requires |namedGroup| == 2
    ensures var b := SignatureContents(clientServerRandom, namedGroup, publicKeyLength, publicKey);
      |b| == |clientServerRandom| + 4 + |publicKey|
      && b[|clientServerRandom| + 3] as nat == publicKeyLength % 256
  {
  }

  /** The ServerKeyExchange message and the fields the preparator sets. */
  class EcdheServerKeyExchangeMessage {
    var computations: Option<EcdheComputations>
    var curveType: Option<byte>
    var namedGroup: Option<Bytes>
    var publicKey: Option<Bytes>
    var publicKeyLength: Option<nat>
    var signatureAndHashAlgorithm: Option<Bytes>
    var signature: Option<Bytes>
    var signatureLength: Option<nat>

    constructor ()
      ensures computations.None? && curveType.None? && namedGroup.None? && publicKey.None?
      ensures publicKeyLength.None? && signatureAndHashAlgorithm.None? && signature.None? && signatureLength.None?
    {
      computations, curveType, namedGroup, publicKey := None, None, None, None;
      publicKeyLength, signatureAndHashAlgorithm, signature, signatureLength := None, None, None, None;
    }

    /** Creates the computations unless they exist. */
    method PrepareComputations()
      modifies this`computations
      ensures computations == if old(computations).None? then Some(NO_COMPUTATIONS) else old(computations)
    {
      if computations.None? {
        computations := Some(NO_COMPUTATIONS);
      }
    }
  }

  class ECDHEServerKeyExchangePreparator {
    const chooser: EcdheChooser
    const prims: EcdhePrimitives
    const msg: EcdheServerKeyExchangeMessage
    /** The ephemeral key pair, once generated. */
    var pubEcParams: Option<EcPoint>
    var privEcParams: Option<nat>

    constructor (chooser: EcdheChooser, prims: EcdhePrimitives, msg: EcdheServerKeyExchangeMessage)
      ensures this.chooser == chooser && this.prims == prims && this.msg == msg
      ensures pubEcParams.None? && privEcParams.None?
    {
      this.chooser := chooser;
      this.prims := prims;
      this.msg := msg;
      pubEcParams, privEcParams := None, None;
    }

    /** The named-group list the preparator negotiates. */
    function Groups(): seq<NamedGroup>
    {
      NamedGroupList(chooser.clientSupportedNamedGroups, chooser.serverSupportedNamedGroups,
        chooser.config.enforceSettings, chooser.connectionEndType, chooser.config.defaultClientNamedGroups,
        chooser.config.defaultServerNamedGroups)
    }

    /** The point-format list the preparator negotiates. */
    function Formats(): seq<ECPointFormat>
    {
      PointFormatList(chooser.serverSupportedPointFormats, chooser.clientSupportedPointFormats,
        chooser.config.defaultServerSupportedPointFormats, chooser.config.enforceSettings)
    }

    /** The computations hold a named-group list. */
    predicate HasGroupList()
      reads msg`computations
    {
      msg.computations.Some? && msg.computations.value.namedGroupList.Some?
    }

    /** The computations hold both lists. */
    predicate HasLists()
      reads msg`computations
    {
      HasGroupList() && msg.computations.value.ecPointFormatList.Some?
    }

    /** The key pair exists and the computations hold a decodable point-format list. */
    predicate KeyAndFormatsReady()
      reads this`pubEcParams, this`privEcParams, msg`computations
    {
      pubEcParams.Some? && privEcParams.Some? && msg.computations.Some?
      && msg.computations.value.ecPointFormatList.Some? && msg.computations.value.ecPointFormatList.value.Encoded?
    }

    /** Every field the signed contents are built from is set. */
    predicate SignedFieldsSet()
      reads msg`namedGroup, msg`publicKeyLength, msg`publicKey, msg`computations
    {
      msg.namedGroup.Some? && msg.publicKeyLength.Some? && msg.publicKey.Some? && msg.computations.Some?
      && msg.computations.value.clientServerRandom.Some?
    }

    /** Client random followed by server random. */
    function ClientServerRandom(): Bytes
    {
      chooser.clientRandom + chooser.serverRandom
    }

    // -------------------------------------------------------------------------
    // The lists

    /** `generateNamedGroupList`: with enforced settings, collect the client groups
        the server lacks, remove them, and fall back to the local end's defaults. */
    method GenerateNamedGroupList() returns (err: Option<Exception>)
      modifies msg`computations
      ensures err.Some? <==> old(msg.computations).None?
      ensures err.Some? ==> err.value == NullPointerException && msg.computations == old(msg.computations)
      ensures err.None? ==> msg.computations == Some(old(msg.computations).value.(namedGroupList := Some(Encoded(Groups()))))
    {
      if msg.computations.None? {
        return Some(NullPointerException);
      }
      var shared := chooser.clientSupportedNamedGroups;
      if chooser.config.enforceSettings {
        var unsupported := CollectMissing(shared, chooser.serverSupportedNamedGroups);
        shared := DropIn(shared, unsupported);
        if shared == [] {
          if chooser.connectionEndType == Client {
            shared := chooser.config.defaultClientNamedGroups;
          } else {
            shared := chooser.config.defaultServerNamedGroups;
          }
        }
      }
      msg.computations := Some(msg.computations.value.(namedGroupList := Some(Encoded(shared))));
      err := None;
    }

    /** `generatePointFormatList`: the server's formats (or the defaults); unless
        settings are enforced, collect those the client lacks and remove them; fall
        back to a copy of the defaults. */
    method GeneratePointFormatList() returns (err: Option<Exception>)
      modifies msg`computations
      ensures err.Some? <==> old(msg.computations).None?
      ensures err.Some? ==> err.value == NullPointerException && msg.computations == old(msg.computations)
      ensures err.None? ==>
        msg.computations == Some(old(msg.computations).value.(ecPointFormatList := Some(Encoded(Formats()))))
    {
      if msg.computations.None? {
        return Some(NullPointerException);
      }
      var shared := chooser.serverSupportedPointFormats;
      if shared == [] {
        shared := chooser.config.defaultServerSupportedPointFormats;
      }
      var unsupported: seq<ECPointFormat> := [];
      if !chooser.config.enforceSettings {
        unsupported := CollectMissing(shared, chooser.clientSupportedPointFormats);
      }
      assert chooser.config.enforceSettings ==> DropIn(shared, unsupported) == shared by {
        if chooser.config.enforceSettings {
          DropInNothing(shared);
        }
      }
      shared := DropIn(shared, unsupported);
      if shared == [] {
        shared := chooser.config.defaultServerSupportedPointFormats;
      }
      msg.computations := Some(msg.computations.value.(ecPointFormatList := Some(Encoded(shared))));
      err := None;
    }

    method PrepareCurveType()
      modifies msg`curveType
      ensures msg.curveType == Some(CurveTypeValue(NamedCurve))
    {
      msg.curveType := Some(CurveTypeValue(NamedCurve));
    }

    /** `prepareNamedGroup`: the first group of the computations list, or the
        default group when the list does not deserialize. */
    method PrepareNamedGroup() returns (err: Option<Exception>)
      modifies msg`namedGroup
      ensures msg.computations.None? || msg.computations.value.namedGroupList.None? ==> err == Some(NullPointerException)
      ensures err.Some? ==> msg.namedGroup == old(msg.namedGroup)
      ensures msg.computations.Some? && msg.computations.value.namedGroupList.Some? ==>
        var groups := GroupsOrDefault(msg.computations.value.namedGroupList.value, chooser.config.defaultSelectedNamedGroup);
        (groups == [] ==> err == Some(IndexOutOfBoundsException))
        && (groups != [] ==> err.None? && msg.namedGroup == Some(NamedGroupValue(groups[0])))
    {
      if msg.computations.None? || msg.computations.value.namedGroupList.None? {
        return Some(NullPointerException);
      }
      var groups := GroupsOrDefault(msg.computations.value.namedGroupList.value, chooser.config.defaultSelectedNamedGroup);
      if |groups| == 0 {
        return Some(IndexOutOfBoundsException);
      }
      msg.namedGroup := Some(NamedGroupValue(groups[0]));
      err := None;
    }

    // -------------------------------------------------------------------------
    // Domain parameters and key pair

    /** `generateEcParameters`: missing computations or lists are preparation
        errors; the ECParameters named by the curve-type and named-group fields are
        read, and on an IOException read once more as NAMED_CURVE with the first
        group of the list. A second failure is a preparation error. */
    method GenerateEcParameters() returns (r: Result<EcDomainParameters>)
      ensures msg.computations.None? ==> r == Failure(PreparationException(NO_COMPUTATIONS_MESSAGE))
      ensures msg.computations.Some? && msg.computations.value.namedGroupList.None? ==>
        r == Failure(PreparationException(NO_GROUPS_MESSAGE))
      ensures HasGroupList() && msg.computations.value.ecPointFormatList.None? ==>
        r == Failure(PreparationException(NO_FORMATS_MESSAGE))
      ensures HasLists() ==>
        var groups := GroupsOrDefault(msg.computations.value.namedGroupList.value, chooser.config.defaultSelectedNamedGroup);
        var formats := FormatsOrUncompressed(msg.computations.value.ecPointFormatList.value);
        (msg.curveType.None? || msg.namedGroup.None? ==> r == Failure(NullPointerException))
        && (msg.curveType.Some? && msg.namedGroup.Some? ==>
          var first := prims.readEcParameters(groups, formats, [msg.curveType.value] + msg.namedGroup.value);
          (first.Parsed? ==> r == Success(first.params))
          && (first.ReadIndexFailure? ==> r == Failure(IndexOutOfBoundsException))
          && (first.ReadIoFailure? && groups == [] ==> r == Failure(IndexOutOfBoundsException))
          && (first.ReadIoFailure? && groups != [] ==>
            var second := prims.readEcParameters(groups, formats, NamedCurveParameters(NamedGroupValue(groups[0])));
            r == if second.Parsed? then Success(second.params)
                 else Failure(PreparationException(DOMAIN_PARAMETERS_MESSAGE))))
    {
      if msg.computations.None? {
        return Failure(PreparationException(NO_COMPUTATIONS_MESSAGE));
      }
      var comps := msg.computations.value;
      if comps.namedGroupList.None? {
        return Failure(PreparationException(NO_GROUPS_MESSAGE));
      }
      if comps.ecPointFormatList.None? {
        return Failure(PreparationException(NO_FORMATS_MESSAGE));
      }
      var groups := GroupsOrDefault(comps.namedGroupList.value, chooser.config.defaultSelectedNamedGroup);
      var formats := FormatsOrUncompressed(comps.ecPointFormatList.value);
      if msg.curveType.None? || msg.namedGroup.None? {
        return Failure(NullPointerException);
      }
      var input := [msg.curveType.value] + msg.namedGroup.value;
      var outcome := prims.readEcParameters(groups, formats, input);
      if outcome.ReadIndexFailure? {
        return Failure(IndexOutOfBoundsException);
      }
      if outcome.ReadIoFailure? {
        if |groups| == 0 {
          return Failure(IndexOutOfBoundsException);
        }
        input := NamedCurveParameters(NamedGroupValue(groups[0]));
        outcome := prims.readEcParameters(groups, formats, input);
        if !outcome.Parsed? {
          return Failure(PreparationException(DOMAIN_PARAMETERS_MESSAGE));
        }
      }
      r := Success(outcome.params);
    }

    /** The ECParameters every read in the pipeline sees: NAMED_CURVE and the
        first negotiated group. */
    function PipelineParameters(): Bytes
      requires Groups() != []
    {
      NamedCurveParameters(NamedGroupValue(Groups()[0]))
    }

    /** The outcome of reading the pipeline's ECParameters. */
    function PipelineRead(): ReadOutcome
      requires Groups() != []
    {
      prims.readEcParameters(Groups(), Formats(), PipelineParameters())
    }

    /** The key pair the pipeline draws, once its parameters were read. */
    function PipelineKeyPair(): EcKeyPair
      requires Groups() != [] && PipelineRead().Parsed?
    {
      prims.generateKeyPair(chooser.badSecureRandom, PipelineRead().params)
    }

    /** `setEcDhParams`: the computations, both lists, curve type and named group,
        then the domain parameters and a key pair drawn for them. Both reads see
        the same ECParameters, so an IOException on the first is repeated by the
        retry and ends in a preparation error. */
    method SetEcDhParams() returns (err: Option<Exception>)
      modifies msg`computations, msg`curveType, msg`namedGroup, this`pubEcParams, this`privEcParams
      ensures msg.computations.Some? && msg.curveType == Some(CurveTypeValue(NamedCurve))
      ensures msg.computations.value == old(if msg.computations.None? then NO_COMPUTATIONS else msg.computations.value)
        .(namedGroupList := Some(Encoded(Groups())), ecPointFormatList := Some(Encoded(Formats())))
      ensures Groups() == [] ==> err == Some(IndexOutOfBoundsException) && msg.namedGroup == old(msg.namedGroup)
      ensures Groups() != [] ==> msg.namedGroup == Some(NamedGroupValue(Groups()[0]))
      ensures Groups() != [] && PipelineRead().ReadIndexFailure? ==> err == Some(IndexOutOfBoundsException)
      ensures Groups() != [] && PipelineRead().ReadIoFailure? ==>
        err == Some(PreparationException(DOMAIN_PARAMETERS_MESSAGE))
      ensures err.None? <==> Groups() != [] && PipelineRead().Parsed?
      ensures err.None? ==>
        pubEcParams == Some(PipelineKeyPair().publicPoint) && privEcParams == Some(PipelineKeyPair().privateKey)
      ensures err.Some? ==> pubEcParams == old(pubEcParams) && privEcParams == old(privEcParams)
    {
      msg.PrepareComputations();
      err := GenerateNamedGroupList();
      err := GeneratePointFormatList();
      PrepareCurveType();
      err := PrepareNamedGroup();
      if err.Some? { return; }
      var params := GenerateEcParameters();
      if params.Failure? {
        return Some(params.error);
      }
      var keyPair := prims.generateKeyPair(chooser.badSecureRandom, params.value);
      pubEcParams := Some(keyPair.publicPoint);
      privEcParams := Some(keyPair.privateKey);
      err := None;
    }

    // -------------------------------------------------------------------------
    // The public value

    /** `preparePrivateKey`: the private scalar goes into the computations. */
    method PreparePrivateKey() returns (err: Option<Exception>)
      modifies msg`computations
      ensures err.Some? <==> old(msg.computations).None? || privEcParams.None?
      ensures err.Some? ==> err.value == NullPointerException && msg.computations == old(msg.computations)
      ensures err.None? ==> msg.computations == Some(old(msg.computations).value.(privateKey := privEcParams))
    {
      if msg.computations.None? || privEcParams.None? {
        return Some(NullPointerException);
      }
      msg.computations := Some(msg.computations.value.(privateKey := privEcParams));
      err := None;
    }

    /** `prepareSerializedPublicKey`: the point serialized in the formats of the
        computations. */
    method PrepareSerializedPublicKey() returns (err: Option<Exception>)
      modifies msg`publicKey
      ensures pubEcParams.None? || msg.computations.None? || msg.computations.value.ecPointFormatList.None? ==>
        err == Some(NullPointerException)
      ensures err.Some? ==> msg.publicKey == old(msg.publicKey)
      ensures pubEcParams.Some? && msg.computations.Some? && msg.computations.value.ecPointFormatList.Some? ==>
        match msg.computations.value.ecPointFormatList.value
        case Undecodable(_) => err == Some(PreparationException(READ_FORMATS_MESSAGE))
        case Encoded(formats) =>
          var point := prims.serializePoint(formats, pubEcParams.value);
          (point.None? ==> err == Some(PreparationException(SERIALIZE_KEY_MESSAGE)))
          && (point.Some? ==> err.None? && msg.publicKey == point)
    {
      if pubEcParams.None? || msg.computations.None? || msg.computations.value.ecPointFormatList.None? {
        return Some(NullPointerException);
      }
      var list := msg.computations.value.ecPointFormatList.value;
      if list.Undecodable? {
        return Some(PreparationException(READ_FORMATS_MESSAGE));
      }
      var point := prims.serializePoint(list.items, pubEcParams.value);
      if point.None? {
        return Some(PreparationException(SERIALIZE_KEY_MESSAGE));
      }
      msg.publicKey := point;
      err := None;
    }

    /** `prepareSerializedPublicKeyLength`: the length of the serialized point. */
    method PrepareSerializedPublicKeyLength() returns (err: Option<Exception>)
      modifies msg`publicKeyLength
      ensures err.Some? <==> msg.publicKey.None?
      ensures err.Some? ==> err.value == NullPointerException && msg.publicKeyLength == old(msg.publicKeyLength)
      ensures err.None? ==> msg.publicKeyLength == Some(|msg.publicKey.value|)
    {
      if msg.publicKey.None? {
        return Some(NullPointerException);
      }
      msg.publicKeyLength := Some(|msg.publicKey.value|);
      err := None;
    }

    /** `prepareClientServerRandom`: client random followed by server random. */
    method PrepareClientServerRandom() returns (err: Option<Exception>)
      modifies msg`computations
      ensures err.Some? <==> old(msg.computations).None?
      ensures err.Some? ==> err.value == NullPointerException && msg.computations == old(msg.computations)
      ensures err.None? ==>
        msg.computations == Some(old(msg.computations).value.(clientServerRandom := Some(ClientServerRandom())))
    {
      if msg.computations.None? {
        return Some(NullPointerException);
      }
      var random := ClientServerRandom();
      msg.computations := Some(msg.computations.value.(clientServerRandom := Some(random)));
      err := None;
    }

    /** `prepareEcDhParams`: private key, public point and its length, randoms. The
        key pair must exist before the point is serialized. */
    method PrepareEcDhParams() returns (err: Option<Exception>)
      modifies msg`computations, msg`publicKey, msg`publicKeyLength
      ensures old(KeyAndFormatsReady()) ==>
        var point := prims.serializePoint(old(msg.computations).value.ecPointFormatList.value.items, pubEcParams.value);
        (point.None? ==> err == Some(PreparationException(SERIALIZE_KEY_MESSAGE)))
        && (point.Some? ==>
          err.None? && msg.publicKey == point && msg.publicKeyLength == Some(|point.value|)
          && msg.computations == Some(old(msg.computations).value.(privateKey := privEcParams,
            clientServerRandom := Some(ClientServerRandom()))))
    {
      err := PreparePrivateKey();
      if err.Some? { return; }
      if pubEcParams.None? {
        return Some(NullPointerException);
      }
      err := PrepareSerializedPublicKey();
      if err.Some? { return; }
      err := PrepareSerializedPublicKeyLength();
      if err.Some? { return; }
      err := PrepareClientServerRandom();
    }

    // -------------------------------------------------------------------------
    // The signature

    /** `generateSignatureContents`: only named curves can be signed; the signed
        bytes are client and server random, curve type and named group, then the
        point's one-byte length and the point. */
    method GenerateSignatureContents() returns (r: Result<Bytes>)
      ensures chooser.ecCurveType != NamedCurve ==> r == Failure(UnsupportedOperationException(EXPLICIT_CURVES_MESSAGE))
      ensures chooser.ecCurveType == NamedCurve ==>
        (!SignedFieldsSet() ==> r == Failure(NullPointerException))
        && (SignedFieldsSet() ==>
          r == Success(SignatureContents(msg.computations.value.clientServerRandom.value, msg.namedGroup.value,
            msg.publicKeyLength.value, msg.publicKey.value)))
    {
      if chooser.ecCurveType != NamedCurve {
        return Failure(UnsupportedOperationException(EXPLICIT_CURVES_MESSAGE));
      }
      var ecParams: Bytes := [CurveTypeValue(NamedCurve)];
      if msg.namedGroup.None? {
        return Failure(NullPointerException);
      }
      ecParams := ecParams + msg.namedGroup.value;
      if msg.publicKeyLength.None? {
        return Failure(NullPointerException);
      }
      ecParams := ecParams + [LowByte(msg.publicKeyLength.value)];
      if msg.publicKey.None? {
        return Failure(NullPointerException);
      }
      ecParams := ecParams + msg.publicKey.value;
      if msg.computations.None? || msg.computations.value.clientServerRandom.None? {
        return Failure(NullPointerException);
      }
      assert ecParams == NamedCurveParameters(msg.namedGroup.value) + [LowByte(msg.publicKeyLength.value)]
        + msg.publicKey.value;
      var random := msg.computations.value.clientServerRandom.value;
      assert random + ecParams
        == SignatureContents(random, msg.namedGroup.value, msg.publicKeyLength.value, msg.publicKey.value);
      r := Success(random + ecParams);
    }

    /** `generateSignature`: the signature over the signed contents; `Success(None)`
        is a CryptoException from the signer. */
    method GenerateSignature(algorithm: SignatureAndHashAlgorithm) returns (r: Result<Option<Bytes>>)
      ensures chooser.ecCurveType != NamedCurve ==> r == Failure(UnsupportedOperationException(EXPLICIT_CURVES_MESSAGE))
      ensures chooser.ecCurveType == NamedCurve && !SignedFieldsSet() ==> r == Failure(NullPointerException)
      ensures chooser.ecCurveType == NamedCurve && SignedFieldsSet() ==>
        r == Success(prims.sign(algorithm, SignatureContents(msg.computations.value.clientServerRandom.value,
          msg.namedGroup.value, msg.publicKeyLength.value, msg.publicKey.value)))
    {
      var contents := GenerateSignatureContents();
      if contents.Failure? {
        return Failure(contents.error);
      }
      r := Success(prims.sign(algorithm, contents.value));
    }

    method PrepareSignatureAndHashAlgorithm(algorithm: SignatureAndHashAlgorithm)
      modifies msg`signatureAndHashAlgorithm
      ensures msg.signatureAndHashAlgorithm == Some(SignatureAndHashValue(algorithm))
    {
      msg.signatureAndHashAlgorithm := Some(SignatureAndHashValue(algorithm));
    }

    method PrepareSignature(signature: Bytes)
      modifies msg`signature
      ensures msg.signature == Some(signature)
    {
      msg.signature := Some(signature);
    }

    method PrepareSignatureLength() returns (err: Option<Exception>)
      modifies msg`signatureLength
      ensures err.Some? <==> msg.signature.None?
      ensures err.Some? ==> err.value == NullPointerException && msg.signatureLength == old(msg.signatureLength)
      ensures err.None? ==> msg.signatureLength == Some(|msg.signature.value|)
    {
      if msg.signature.None? {
        return Some(NullPointerException);
      }
      msg.signatureLength := Some(|msg.signature.value|);
      err := None;
    }

    /** The point the pipeline serializes, once its parameters were read. */
    function PipelinePublicKey(): Option<Bytes>
      requires Groups() != [] && PipelineRead().Parsed?
    {
      prims.serializePoint(Formats(), PipelineKeyPair().publicPoint)
    }

    /** The contents signed for a named group and a serialized point. */
    function ContentsFor(namedGroup: Bytes, publicKey: Bytes): Bytes
    {
      SignatureContents(ClientServerRandom(), namedGroup, |publicKey|, publicKey)
    }

    /** The signature sent for a named group and a point: the signer's, or empty
        when it fails. */
    function SignatureFor(namedGroup: Bytes, publicKey: Bytes): Bytes
    {
      match prims.sign(chooser.selectedSigHashAlgorithm, ContentsFor(namedGroup, publicKey))
      case Some(signature) => signature
      case None => []
    }

    /** The contents the pipeline signs for a serialized point. */
    function PipelineContents(publicKey: Bytes): Bytes
      requires Groups() != []
    {
      ContentsFor(NamedGroupValue(Groups()[0]), publicKey)
    }

    /** The signature the pipeline sends for a serialized point. */
    function PipelineSignature(publicKey: Bytes): Bytes
      requires Groups() != []
    {
      SignatureFor(NamedGroupValue(Groups()[0]), publicKey)
    }

    /** The signed contents of the pipeline split back into client and server
        random, NAMED_CURVE, the first negotiated group and the point, for a point
        shorter than 256 bytes. */
    lemma PipelineContentsRoundTrip(publicKey: Bytes)
      requires Groups() != [] && |publicKey| < 256
      ensures ParseSignatureContents(PipelineContents(publicKey), |ClientServerRandom()|)
        == Some(SignedFields(ClientServerRandom(), CurveTypeValue(NamedCurve), NamedGroupValue(Groups()[0]),
          |publicKey| as byte, publicKey))
    {
      SignatureContentsRoundTrip(ClientServerRandom(), NamedGroupValue(Groups()[0]), publicKey);
    }

    /** What `prepareHandshakeMessageContents` does once the key pair exists:
        `prepareEcDhParams`, then the signature algorithm, the signature (empty
        when the signer fails) and its length. */
    method PrepareSignedParameters() returns (err: Option<Exception>)
      modifies msg`computations, msg`publicKey, msg`publicKeyLength
      modifies msg`signatureAndHashAlgorithm, msg`signature, msg`signatureLength
      ensures old(KeyAndFormatsReady()) && msg.namedGroup.Some? ==>
        var point := prims.serializePoint(old(msg.computations).value.ecPointFormatList.value.items, pubEcParams.value);
        (point.None? ==> err == Some(PreparationException(SERIALIZE_KEY_MESSAGE)))
        && (point.Some? && chooser.ecCurveType != NamedCurve ==>
          err == Some(UnsupportedOperationException(EXPLICIT_CURVES_MESSAGE)))
        && (point.Some? && chooser.ecCurveType == NamedCurve ==>
          err.None? && msg.publicKey == point && msg.publicKeyLength == Some(|point.value|)
          && msg.signatureAndHashAlgorithm == Some(SignatureAndHashValue(chooser.selectedSigHashAlgorithm))
          && msg.signature == Some(SignatureFor(msg.namedGroup.value, point.value))
          && msg.signatureLength == Some(|SignatureFor(msg.namedGroup.value, point.value)|))
    {
      err := PrepareEcDhParams();
      if err.Some? { return; }
      var algorithm := chooser.selectedSigHashAlgorithm;
      PrepareSignatureAndHashAlgorithm(algorithm);
      var signed := GenerateSignature(algorithm);
      if signed.Failure? {
        return Some(signed.error);
      }
      var signature: Bytes := [];
      if signed.value.Some? {
        signature := signed.value.value;
      }
      PrepareSignature(signature);
      err := PrepareSignatureLength();
    }

    /** `prepareHandshakeMessageContents`: key exchange parameters, then the
        signature algorithm, the signature (empty when the signer fails) and its
        length. */
    method PrepareHandshakeMessageContents() returns (err: Option<Exception>)
      modifies msg`computations, msg`curveType, msg`namedGroup, msg`publicKey, msg`publicKeyLength
      modifies msg`signatureAndHashAlgorithm, msg`signature, msg`signatureLength, this`pubEcParams, this`privEcParams
      ensures Groups() == [] ==> err == Some(IndexOutOfBoundsException)
      ensures Groups() != [] && PipelineRead().ReadIndexFailure? ==> err == Some(IndexOutOfBoundsException)
      ensures Groups() != [] && PipelineRead().ReadIoFailure? ==>
        err == Some(PreparationException(DOMAIN_PARAMETERS_MESSAGE))
      ensures Groups() != [] && PipelineRead().Parsed? && PipelinePublicKey().None? ==>
        err == Some(PreparationException(SERIALIZE_KEY_MESSAGE))
      ensures Groups() != [] && PipelineRead().Parsed? && PipelinePublicKey().Some? ==>
        (chooser.ecCurveType != NamedCurve ==> err == Some(UnsupportedOperationException(EXPLICIT_CURVES_MESSAGE)))
        && (chooser.ecCurveType == NamedCurve ==>
          err.None? && msg.curveType == Some(CurveTypeValue(NamedCurve))
          && msg.namedGroup == Some(NamedGroupValue(Groups()[0]))
          && msg.publicKey == PipelinePublicKey() && msg.publicKeyLength == Some(|PipelinePublicKey().value|)
          && msg.signatureAndHashAlgorithm == Some(SignatureAndHashValue(chooser.selectedSigHashAlgorithm))
          && msg.signature == Some(PipelineSignature(PipelinePublicKey().value))
          && msg.signatureLength == Some(|PipelineSignature(PipelinePublicKey().value)|))
    {
      err := SetEcDhParams();
      if err.Some? { return; }
      err := PrepareSignedParameters();
    }
  }
}
