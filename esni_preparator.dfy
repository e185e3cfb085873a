/** The Encrypted SNI extension preparator: the message it fills and the three
    phases it runs. In CLIENT mode it encrypts the inner ClientHello extension; in
    SERVER mode it copies the client nonce back, and after parsing it derives the
    same keys from the server's key pair and decrypts the received extension. */
module EsniPreparator {
  import opened Wrappers
  import opened Bytes
  import opened TlsConstants
  import opened Crypto
  import opened EsniLayout

  datatype EsniPreparatorMode = ClientMode | ServerMode

  /** The inner ClientESNIInner structure: nonce, server names and padding. */
  datatype ClientEsniInner = ClientEsniInner(nonce: Bytes, serverNameList: seq<Bytes>, padding: Bytes)

  /** The part of a ClientHello the preparator reads: its random, which may be unset. */
  datatype ClientHelloMessage = ClientHelloMessage(random: Option<Bytes>)

  /** One of the server's ESNI key pairs in the configuration. */
  datatype EsniKeyPair = EsniKeyPair(group: Bytes, privateKey: nat)

  /** What the chooser and the configuration supply. */
  datatype EsniChooser = EsniChooser(
    clientSupportedEsniCipherSuites: seq<CipherSuite>,
    esniServerCipherSuites: seq<CipherSuite>,
    clientSupportedEsniNamedGroups: seq<NamedGroup>,
    esniServerKeyShareEntries: seq<KeyShareStoreEntry>,
    esniServerKeyPairs: seq<EsniKeyPair>,
    esniRecordBytes: Bytes,
    clientRandom: Bytes,
    clientKeyShares: seq<KeyShareStoreEntry>,
    esniClientNonce: Bytes,
    keySharePrivateKey: nat)

  /** The operations the preparator delegates: the key schedule, the curves, the
      key-share and inner-structure preparators, the inner-structure serializer and
      parser, and the AEAD. A `None` from `encrypt` or `decrypt` is a failed AEAD
      operation. */
  datatype EsniPrimitives = EsniPrimitives(
    hkdf: Hkdf,
    curves: Curves,
    publicKeyOf: (NamedGroup, nat) -> Bytes,
    prepareInner: ClientEsniInner -> ClientEsniInner,
    serializeInner: ClientEsniInner -> Bytes,
    parseInner: Bytes -> ClientEsniInner,
    encrypt: (CipherSuite, Bytes, Bytes, nat, Bytes, Bytes) -> Option<Bytes>,
    decrypt: (CipherSuite, Bytes, Bytes, nat, Bytes, Bytes) -> Option<Bytes>)

  /** The cipher suite a message's suite field names. A missing field, or a code
      naming no suite, fails at its first use. */
  function ResolveSuite(b: Option<Bytes>): (r: Result<CipherSuite>)
    ensures r.Success? <==> b.Some? && CipherSuiteFromValue(b.value).Some?
    ensures r.Failure? ==> r.error == NullPointerException
    ensures r.Success? ==> CipherSuiteValue(r.value) == b.value
  {
    if b.None? then Failure(NullPointerException)
    else match CipherSuiteFromValue(b.value)
      case None => Failure(NullPointerException)
      case Some(c) => Success(c)
  }

  lemma ResolveSuiteOfValue(c: CipherSuite)
    ensures ResolveSuite(Some(CipherSuiteValue(c))) == Success(c)
  {
    CipherSuiteValueRoundTrip(c);
  }

  const MISSING_PARAMETERS: string := "Missing parameters to prepareAfterParse EncryptedServerNameIndicationExtension"
  const RECORD_DIGEST_MESSAGE: string := "Could not prepare recordDigest"
  const CONTENTS_HASH_MESSAGE: string := "Could not prepare esniContentsHash"
  const MASTER_SECRET_MESSAGE: string := "Could not prepare esniMasterSecret"
  const ESNI_KEY_MESSAGE: string := "Could not prepare esniKey"
  const ESNI_IV_MESSAGE: string := "Could not prepare esniIv"

  /** A NullPointerException becomes the `prepareAfterParse` PreparationException;
      every other exception passes through. */
  function MapMissingParameters(err: Option<Exception>): (r: Option<Exception>)
    ensures r.None? <==> err.None?
    ensures r.Some? ==> r.value != NullPointerException
    ensures err == Some(NullPointerException) ==> r == Some(PreparationException(MISSING_PARAMETERS))
    ensures err.Some? && err.value != NullPointerException ==> r == err
  {
    if err == Some(NullPointerException) then Some(PreparationException(MISSING_PARAMETERS)) else err
  }

  /** The exception a phase reports for `e`: itself, or through the
      `prepareAfterParse` mapping. */
  function Reported(e: Exception, mapped: bool): Option<Exception>
  {
    if mapped then MapMissingParameters(Some(e)) else Some(e)
  }

  /** The client random, ESNIContents and its hash. */
  datatype DerivedContents = DerivedContents(random: Bytes, contents: Bytes, hash: Bytes)

  /** The master secret, key and IV of section 5.1 of draft-ietf-tls-esni-02. */
  datatype EsniKeys = EsniKeys(masterSecret: Bytes, key: Bytes, iv: Bytes)

  /** The key schedule as `prepareEsniMasterSecret`, `prepareEsniKey` and
      `prepareEsniIv` run it: the master secret is HKDF-Extract of the shared
      secret, the key and the IV are expanded from it over the contents hash. A
      missing input is a NullPointerException; a failing derivation raises its
      step's PreparationException and stops the schedule. */
  function EsniKeySchedule(hkdf: Hkdf, suite: Result<CipherSuite>, sharedSecret: Option<Bytes>,
    contentsHash: Option<Bytes>): (r: Result<EsniKeys>)
    ensures sharedSecret.None? || suite.Failure? ==> r == Failure(NullPointerException)
    ensures r.Success? <==>
      suite.Success? && sharedSecret.Some? && contentsHash.Some?
      && var alg := HkdfAlgorithmOf(suite.value);
      var master := hkdf.extract(alg, None, sharedSecret.value);
      master.Some?
      && hkdf.expandLabel(alg, master.value, ESNI_KEY_LABEL, contentsHash.value, CipherKeySize(suite.value)).Some?
      && hkdf.expandLabel(alg, master.value, ESNI_IV_LABEL, contentsHash.value, AEAD_IV_LENGTH).Some?
    ensures r.Success? ==>
      var alg := HkdfAlgorithmOf(suite.value);
      hkdf.extract(alg, None, sharedSecret.value) == Some(r.value.masterSecret)
      && hkdf.expandLabel(alg, r.value.masterSecret, ESNI_KEY_LABEL, contentsHash.value, CipherKeySize(suite.value))
        == Some(r.value.key)
      && hkdf.expandLabel(alg, r.value.masterSecret, ESNI_IV_LABEL, contentsHash.value, AEAD_IV_LENGTH) == Some(r.value.iv)
    ensures r.Failure? ==> r.error in {NullPointerException, PreparationException(MASTER_SECRET_MESSAGE),
      PreparationException(ESNI_KEY_MESSAGE), PreparationException(ESNI_IV_MESSAGE)}
    ensures r.Success? && ExpandsToLength(hkdf) ==>
      |r.value.key| == CipherKeySize(suite.value) && |r.value.iv| == AEAD_IV_LENGTH
  {
    if sharedSecret.None? || suite.Failure? then Failure(NullPointerException)
    else
      var alg := HkdfAlgorithmOf(suite.value);
      match hkdf.extract(alg, None, sharedSecret.value)
      case None => Failure(PreparationException(MASTER_SECRET_MESSAGE))
      case Some(master) =>
        if contentsHash.None? then Failure(NullPointerException)
        else match hkdf.expandLabel(alg, master, ESNI_KEY_LABEL, contentsHash.value, CipherKeySize(suite.value))
          case None => Failure(PreparationException(ESNI_KEY_MESSAGE))
          case Some(key) =>
            match hkdf.expandLabel(alg, master, ESNI_IV_LABEL, contentsHash.value, AEAD_IV_LENGTH)
            case None => Failure(PreparationException(ESNI_IV_MESSAGE))
            case Some(iv) => Success(EsniKeys(master, key, iv))
  }

  /** The key share of the ESNI extension. */
  class KeyShareEntry {
    var groupConfig: Option<NamedGroup>
    var group: Option<Bytes>
    var privateKey: Option<nat>
    var publicKey: Option<Bytes>
    var publicKeyLength: Option<nat>

    constructor ()
      ensures groupConfig.None? && group.None? && privateKey.None? && publicKey.None? && publicKeyLength.None?
    {
      groupConfig, group, privateKey, publicKey, publicKeyLength := None, None, None, None, None;
    }
  }

  /** The values computed on the way to the encrypted SNI, none sent on the wire. */
  class EncryptedSniComputation {
    var esniRecordBytes: Option<Bytes>
    var esniServerPublicKey: Option<Bytes>
    var clientHelloRandom: Option<Bytes>
    var esniContents: Option<Bytes>
    var esniContentsHash: Option<Bytes>
    var esniSharedSecret: Option<Bytes>
    var esniMasterSecret: Option<Bytes>
    var esniKey: Option<Bytes>
    var esniIv: Option<Bytes>
    var clientHelloKeyShare: Option<Bytes>

    constructor ()
      ensures esniRecordBytes.None? && esniServerPublicKey.None? && clientHelloRandom.None?
      ensures esniContents.None? && esniContentsHash.None? && esniSharedSecret.None?
      ensures esniMasterSecret.None? && esniKey.None? && esniIv.None? && clientHelloKeyShare.None?
    {
      esniRecordBytes, esniServerPublicKey, clientHelloRandom := None, None, None;
      esniContents, esniContentsHash, esniSharedSecret := None, None, None;
      esniMasterSecret, esniKey, esniIv, clientHelloKeyShare := None, None, None, None;
    }
  }

  /** The EncryptedServerNameIndication extension message. */
  class EsniExtensionMessage {
    const keyShareEntry: KeyShareEntry
    const computation: EncryptedSniComputation
    var clientEsniInner: ClientEsniInner
    var clientEsniInnerBytes: Option<Bytes>
    var cipherSuite: Option<Bytes>
    var recordDigest: Option<Bytes>
    var recordDigestLength: Option<nat>
    var encryptedSni: Option<Bytes>
    var encryptedSniLength: Option<nat>
    var serverNonce: Option<Bytes>

    constructor (inner: ClientEsniInner)
      ensures fresh(keyShareEntry) && fresh(computation) && clientEsniInner == inner
      ensures clientEsniInnerBytes.None? && cipherSuite.None? && recordDigest.None? && recordDigestLength.None?
      ensures encryptedSni.None? && encryptedSniLength.None? && serverNonce.None?
    {
      keyShareEntry := new KeyShareEntry();
      computation := new EncryptedSniComputation();
      clientEsniInner := inner;
      clientEsniInnerBytes, cipherSuite, recordDigest, recordDigestLength := None, None, None, None;
      encryptedSni, encryptedSniLength, serverNonce := None, None, None;
    }
  }

  /** The preparator. Every step returns the exception it raises, if any, after the
      state changes made before it. */
  class EncryptedServerNameIndicationExtensionPreparator {
    const chooser: EsniChooser
    const prims: EsniPrimitives
    const msg: EsniExtensionMessage
    var mode: EsniPreparatorMode
    /** The serialized inner structures; appended to and never reset. */
    var streamClientEsniInnerBytes: Bytes
    var clientHelloMessage: Option<ClientHelloMessage>

    /** CLIENT mode exactly when the message already names a server or carries a
        server nonce. */
    constructor (chooser: EsniChooser, prims: EsniPrimitives, msg: EsniExtensionMessage)
      ensures this.chooser == chooser && this.prims == prims && this.msg == msg
      ensures mode == ClientMode <==> |msg.clientEsniInner.serverNameList| > 0 || msg.serverNonce.Some?
      ensures mode == ServerMode <==> |msg.clientEsniInner.serverNameList| == 0 && msg.serverNonce.None?
      ensures streamClientEsniInnerBytes == [] && clientHelloMessage.None?
    {
      this.chooser := chooser;
      this.prims := prims;
      this.msg := msg;
      streamClientEsniInnerBytes := [];
      clientHelloMessage := None;
      if |msg.clientEsniInner.serverNameList| > 0 || msg.serverNonce.Some? {
        mode := ClientMode;
      } else {
        mode := ServerMode;
      }
    }

    method SetClientHelloMessage(ch: Option<ClientHelloMessage>)
      modifies this`clientHelloMessage
      ensures clientHelloMessage == ch
    {
      clientHelloMessage := ch;
    }

    method SetEsniPreparatorMode(m: EsniPreparatorMode)
      modifies this`mode
      ensures mode == m
    {
      mode := m;
    }

    // -------------------------------------------------------------------------
    // The steps

    method PrepareClientEsniInner()
      modifies msg`clientEsniInner, msg`clientEsniInnerBytes, this`streamClientEsniInnerBytes
      ensures msg.clientEsniInner == prims.prepareInner(old(msg.clientEsniInner))
      ensures streamClientEsniInnerBytes == old(streamClientEsniInnerBytes) + prims.serializeInner(msg.clientEsniInner)
      ensures msg.clientEsniInnerBytes == Some(streamClientEsniInnerBytes)
    {
      var inner := prims.prepareInner(msg.clientEsniInner);
      msg.clientEsniInner := inner;
      streamClientEsniInnerBytes := streamClientEsniInnerBytes + prims.serializeInner(inner);
      msg.clientEsniInnerBytes := Some(streamClientEsniInnerBytes);
    }

    method PrepareClientEsniInnerBytes()
      modifies msg`clientEsniInnerBytes
      ensures msg.clientEsniInnerBytes == Some(streamClientEsniInnerBytes)
    {
      msg.clientEsniInnerBytes := Some(streamClientEsniInnerBytes);
    }

    method PrepareCipherSuite()
      modifies msg`cipherSuite
      ensures msg.cipherSuite == Some(CipherSuiteValue(Preferred(chooser.clientSupportedEsniCipherSuites,
        IMPLEMENTED_CIPHER_SUITES, chooser.esniServerCipherSuites).selected))
    {
      var selected, found := SelectPreferred(chooser.clientSupportedEsniCipherSuites,
        IMPLEMENTED_CIPHER_SUITES, chooser.esniServerCipherSuites);
      msg.cipherSuite := Some(CipherSuiteValue(selected));
    }

    method PrepareNamedGroup()
      modifies msg.keyShareEntry`groupConfig
      ensures msg.keyShareEntry.groupConfig == Some(Preferred(chooser.clientSupportedEsniNamedGroups,
        IMPLEMENTED_NAMED_GROUPS, ServerGroups(chooser.esniServerKeyShareEntries)).selected)
    {
      var entries := chooser.esniServerKeyShareEntries;
      var server: seq<NamedGroup> := [];
      var i := 0;
      while i < |entries|
        invariant 0 <= i <= |entries|
        invariant server == ServerGroups(entries[..i])
      {
        assert entries[..i + 1] == entries[..i] + [entries[i]];
        ServerGroupsAppend(entries[..i], entries[i]);
        server := server + [entries[i].group];
        i := i + 1;
      }
      assert entries[..i] == entries;
      var selected, found := SelectPreferred(chooser.clientSupportedEsniNamedGroups, IMPLEMENTED_NAMED_GROUPS, server);
      msg.keyShareEntry.groupConfig := Some(selected);
    }

    /** The key-share preparator: the configured private key and its public key
        for the chosen group. */
    method PrepareKeyShareEntry() returns (err: Option<Exception>)
      modifies msg.keyShareEntry`group, msg.keyShareEntry`privateKey, msg.keyShareEntry`publicKey,
        msg.keyShareEntry`publicKeyLength
      ensures err.Some? <==> msg.keyShareEntry.groupConfig.None?
      ensures err.Some? ==> err.value == NullPointerException && unchanged(msg.keyShareEntry)
      ensures err.None? ==>
        var k := msg.keyShareEntry;
        k.group == Some(NamedGroupValue(k.groupConfig.value))
        && k.privateKey == Some(chooser.keySharePrivateKey)
        && k.publicKey == Some(prims.publicKeyOf(k.groupConfig.value, chooser.keySharePrivateKey))
        && k.publicKeyLength == Some(|k.publicKey.value|)
    {
      var k := msg.keyShareEntry;
      if k.groupConfig.None? {
        return Some(NullPointerException);
      }
      var g := k.groupConfig.value;
      var pk := prims.publicKeyOf(g, chooser.keySharePrivateKey);
      k.group := Some(NamedGroupValue(g));
      k.privateKey := Some(chooser.keySharePrivateKey);
      k.publicKey := Some(pk);
      k.publicKeyLength := Some(|pk|);
      err := None;
    }

    method PrepareEsniServerPublicKey() returns (err: Option<Exception>)
      modifies msg.computation`esniServerPublicKey
      ensures |chooser.esniServerKeyShareEntries| == 0 ==> err == Some(IndexOutOfBoundsException)
      ensures |chooser.esniServerKeyShareEntries| > 0 && msg.keyShareEntry.group.None? ==> err == Some(NullPointerException)
      ensures err.Some? ==> unchanged(msg.computation)
      ensures err.None? <==> |chooser.esniServerKeyShareEntries| > 0 && msg.keyShareEntry.group.Some?
      ensures err.None? ==>
        var entries := chooser.esniServerKeyShareEntries;
        msg.computation.esniServerPublicKey
          == Some(entries[MatchOrFirst(EntryGroupValues(entries), msg.keyShareEntry.group.value)].publicKey)
    {
      var entries := chooser.esniServerKeyShareEntries;
      if |entries| == 0 {
        return Some(IndexOutOfBoundsException);
      }
      if msg.keyShareEntry.group.None? {
        return Some(NullPointerException);
      }
      var index := FirstMatchOrFirst(EntryGroupValues(entries), msg.keyShareEntry.group.value);
      msg.computation.esniServerPublicKey := Some(entries[index].publicKey);
      err := None;
    }

    method PrepareEsniRecordBytes()
      modifies msg.computation`esniRecordBytes
      ensures msg.computation.esniRecordBytes == Some(chooser.esniRecordBytes)
    {
      msg.computation.esniRecordBytes := Some(chooser.esniRecordBytes);
    }

    /** The record digest under the suite's hash. */
    method PrepareRecordDigest() returns (err: Option<Exception>)
      modifies msg`recordDigest
      ensures msg.computation.esniRecordBytes.None? || ResolveSuite(msg.cipherSuite).Failure?
        ==> err == Some(NullPointerException)
      ensures msg.computation.esniRecordBytes.Some? && ResolveSuite(msg.cipherSuite).Success? ==>
        var d := prims.hkdf.digest(DigestAlgorithmOf(ResolveSuite(msg.cipherSuite).value),
          msg.computation.esniRecordBytes.value);
        (d.None? ==> err == Some(PreparationException(RECORD_DIGEST_MESSAGE)))
        && (d.Some? ==> err.None? && msg.recordDigest == d)
      ensures err.Some? ==> msg.recordDigest == old(msg.recordDigest)
    {
      if msg.computation.esniRecordBytes.None? {
        return Some(NullPointerException);
      }
      var suite := ResolveSuite(msg.cipherSuite);
      if suite.Failure? {
        return Some(suite.error);
      }
      var d := prims.hkdf.digest(DigestAlgorithmOf(suite.value), msg.computation.esniRecordBytes.value);
      if d.None? {
        return Some(PreparationException(RECORD_DIGEST_MESSAGE));
      }
      msg.recordDigest := d;
      err := None;
    }

    method PrepareRecordDigestLength() returns (err: Option<Exception>)
      modifies msg`recordDigestLength
      ensures err.Some? <==> msg.recordDigest.None?
      ensures err.Some? ==> err.value == NullPointerException && msg.recordDigestLength == old(msg.recordDigestLength)
      ensures err.None? ==> msg.recordDigestLength == Some(|msg.recordDigest.value|)
    {
      if msg.recordDigest.None? {
        return Some(NullPointerException);
      }
      msg.recordDigestLength := Some(|msg.recordDigest.value|);
      err := None;
    }

    /** The random of the ClientHello this extension belongs to, else the chooser's. */
    function ClientRandom(): (r: Result<Bytes>)
      reads this`clientHelloMessage
      ensures clientHelloMessage.None? ==> r == Success(chooser.clientRandom)
      ensures clientHelloMessage.Some? && clientHelloMessage.value.random.None? ==> r == Failure(NullPointerException)
      ensures clientHelloMessage.Some? && clientHelloMessage.value.random.Some? ==> r == Success(clientHelloMessage.value.random.value)
    {
      match clientHelloMessage
      case None => Success(chooser.clientRandom)
      case Some(ch) => if ch.random.None? then Failure(NullPointerException) else Success(ch.random.value)
    }

    method PrepareClientRandom() returns (err: Option<Exception>)
      modifies msg.computation`clientHelloRandom
      ensures err.Some? <==> ClientRandom().Failure?
      ensures err.Some? ==> err.value == NullPointerException && unchanged(msg.computation)
      ensures err.None? ==> msg.computation.clientHelloRandom == Some(ClientRandom().value)
    {
      var r := ClientRandom();
      if r.Failure? {
        return Some(r.error);
      }
      msg.computation.clientHelloRandom := Some(r.value);
      err := None;
    }

    /** All the fields ESNIContents is made of are present. */
    predicate ContentsFieldsPresent()
      reads msg`recordDigestLength, msg`recordDigest, msg.keyShareEntry`group, msg.keyShareEntry`publicKeyLength,
        msg.keyShareEntry`publicKey, msg.computation`clientHelloRandom
    {
      msg.recordDigestLength.Some? && msg.recordDigest.Some? && msg.keyShareEntry.group.Some?
      && msg.keyShareEntry.publicKeyLength.Some? && msg.keyShareEntry.publicKey.Some?
      && msg.computation.clientHelloRandom.Some?
    }

    method PrepareEsniContents() returns (err: Option<Exception>)
      modifies msg.computation`esniContents
      ensures err.Some? <==> !ContentsFieldsPresent()
      ensures err.Some? ==> err.value == NullPointerException && unchanged(msg.computation)
      ensures err.None? ==> msg.computation.esniContents == Some(EsniContents(
        msg.recordDigestLength.value, msg.recordDigest.value, msg.keyShareEntry.group.value,
        msg.keyShareEntry.publicKeyLength.value, msg.keyShareEntry.publicKey.value,
        msg.computation.clientHelloRandom.value))
    {
      if !ContentsFieldsPresent() {
        return Some(NullPointerException);
      }
      msg.computation.esniContents := Some(EsniContents(
        msg.recordDigestLength.value, msg.recordDigest.value, msg.keyShareEntry.group.value,
        msg.keyShareEntry.publicKeyLength.value, msg.keyShareEntry.publicKey.value,
        msg.computation.clientHelloRandom.value));
      err := None;
    }

    /** The hash of ESNIContents under the suite's hash. */
    method PrepareEsniContentsHash() returns (err: Option<Exception>)
      modifies msg.computation`esniContentsHash
      ensures msg.computation.esniContents.None? || ResolveSuite(msg.cipherSuite).Failure?
        ==> err == Some(NullPointerException)
      ensures msg.computation.esniContents.Some? && ResolveSuite(msg.cipherSuite).Success? ==>
        var h := prims.hkdf.digest(DigestAlgorithmOf(ResolveSuite(msg.cipherSuite).value),
          msg.computation.esniContents.value);
        (h.None? ==> err == Some(PreparationException(CONTENTS_HASH_MESSAGE)))
        && (h.Some? ==> err.None? && msg.computation.esniContentsHash == h)
      ensures err.Some? ==> unchanged(msg.computation)
    {
      if msg.computation.esniContents.None? {
        return Some(NullPointerException);
      }
      var suite := ResolveSuite(msg.cipherSuite);
      if suite.Failure? {
        return Some(suite.error);
      }
      var h := prims.hkdf.digest(DigestAlgorithmOf(suite.value), msg.computation.esniContents.value);
      if h.None? {
        return Some(PreparationException(CONTENTS_HASH_MESSAGE));
      }
      msg.computation.esniContentsHash := h;
      err := None;
    }

    /** The shared secret on the client side: its own private key against the
        server's public key, on the group the key share names. */
    function ClientSharedSecret(): (r: Result<Bytes>)
      reads msg.keyShareEntry`group, msg.keyShareEntry`privateKey, msg.computation`esniServerPublicKey
      ensures (msg.keyShareEntry.group.None? || msg.keyShareEntry.privateKey.None?
        || msg.computation.esniServerPublicKey.None?) ==> r == Failure(NullPointerException)
      ensures (msg.keyShareEntry.group.Some? && msg.keyShareEntry.privateKey.Some?
        && msg.computation.esniServerPublicKey.Some?) ==>
        r == ComputeSharedSecret(prims.curves, msg.keyShareEntry.privateKey.value,
          msg.computation.esniServerPublicKey.value, NamedGroupFromValue(msg.keyShareEntry.group.value))
    {
      var k := msg.keyShareEntry;
      if k.group.None? || k.privateKey.None? || msg.computation.esniServerPublicKey.None? then
        Failure(NullPointerException)
      else
        ComputeSharedSecret(prims.curves, k.privateKey.value, msg.computation.esniServerPublicKey.value,
          NamedGroupFromValue(k.group.value))
    }

    method PrepareEsniClientSharedSecret() returns (err: Option<Exception>)
      modifies msg.computation`esniSharedSecret
      ensures err.None? <==> ClientSharedSecret().Success?
      ensures err.Some? ==> err == Some(ClientSharedSecret().error) && unchanged(msg.computation)
      ensures err.None? ==> msg.computation.esniSharedSecret == Some(ClientSharedSecret().value)
    {
      var k := msg.keyShareEntry;
      if k.group.None? || k.privateKey.None? || msg.computation.esniServerPublicKey.None? {
        return Some(NullPointerException);
      }
      var s := ComputeSharedSecret(prims.curves, k.privateKey.value, msg.computation.esniServerPublicKey.value,
        NamedGroupFromValue(k.group.value));
      if s.Failure? {
        return Some(s.error);
      }
      msg.computation.esniSharedSecret := Some(s.value);
      err := None;
    }

    /** The shared secret on the server side: the private key of the first
        configured pair for the client's group, else of pair 0, against the
        client's public key. */
    function ServerSharedSecret(): (r: Result<Bytes>)
      reads msg.keyShareEntry`group, msg.keyShareEntry`publicKey
      ensures msg.keyShareEntry.group.None? ==> r == Failure(NullPointerException)
      ensures msg.keyShareEntry.group.Some? && |chooser.esniServerKeyPairs| == 0 ==> r == Failure(IndexOutOfBoundsException)
      ensures (msg.keyShareEntry.group.Some? && |chooser.esniServerKeyPairs| > 0
        && (NamedGroupFromValue(msg.keyShareEntry.group.value).None? || msg.keyShareEntry.publicKey.None?))
        ==> r == Failure(NullPointerException)
      ensures (msg.keyShareEntry.group.Some? && |chooser.esniServerKeyPairs| > 0
        && NamedGroupFromValue(msg.keyShareEntry.group.value).Some? && msg.keyShareEntry.publicKey.Some?) ==>
        var pairs := chooser.esniServerKeyPairs;
        var g := NamedGroupFromValue(msg.keyShareEntry.group.value).value;
        r == ComputeSharedSecret(prims.curves, pairs[MatchOrFirst(PairGroupValues(pairs), NamedGroupValue(g))].privateKey,
          msg.keyShareEntry.publicKey.value, Some(g))
    {
      var k := msg.keyShareEntry;
      var pairs := chooser.esniServerKeyPairs;
      if k.group.None? then Failure(NullPointerException)
      else if |pairs| == 0 then Failure(IndexOutOfBoundsException)
      else match NamedGroupFromValue(k.group.value)
        case None => Failure(NullPointerException)
        case Some(g) =>
          if k.publicKey.None? then Failure(NullPointerException)
          else ComputeSharedSecret(prims.curves, pairs[MatchOrFirst(PairGroupValues(pairs), NamedGroupValue(g))].privateKey,
            k.publicKey.value, Some(g))
    }

    method PrepareEsniServerSharedSecret() returns (err: Option<Exception>)
      modifies msg.computation`esniSharedSecret
      ensures err.None? <==> ServerSharedSecret().Success?
      ensures err.Some? ==> err == Some(ServerSharedSecret().error) && unchanged(msg.computation)
      ensures err.None? ==> msg.computation.esniSharedSecret == Some(ServerSharedSecret().value)
    {
      var k := msg.keyShareEntry;
      if k.group.None? {
        return Some(NullPointerException);
      }
      var group := NamedGroupFromValue(k.group.value);
      var pairs := chooser.esniServerKeyPairs;
      if |pairs| == 0 {
        return Some(IndexOutOfBoundsException);
      }
      if group.None? {
        return Some(NullPointerException);
      }
      var index := FirstMatchOrFirst(PairGroupValues(pairs), NamedGroupValue(group.value));
      if k.publicKey.None? {
        return Some(NullPointerException);
      }
      var s := ComputeSharedSecret(prims.curves, pairs[index].privateKey, k.publicKey.value, group);
      if s.Failure? {
        return Some(s.error);
      }
      msg.computation.esniSharedSecret := Some(s.value);
      err := None;
    }

    /** The master secret: HKDF-Extract of the shared secret with no salt. */
    method PrepareEsniMasterSecret() returns (err: Option<Exception>)
      modifies msg.computation`esniMasterSecret
      ensures msg.computation.esniSharedSecret.None? || ResolveSuite(msg.cipherSuite).Failure?
        ==> err == Some(NullPointerException)
      ensures msg.computation.esniSharedSecret.Some? && ResolveSuite(msg.cipherSuite).Success? ==>
        var m := prims.hkdf.extract(HkdfAlgorithmOf(ResolveSuite(msg.cipherSuite).value), None,
          msg.computation.esniSharedSecret.value);
        (m.None? ==> err == Some(PreparationException(MASTER_SECRET_MESSAGE)))
        && (m.Some? ==> err.None? && msg.computation.esniMasterSecret == m)
      ensures err.Some? ==> unchanged(msg.computation)
    {
      if msg.computation.esniSharedSecret.None? {
        return Some(NullPointerException);
      }
      var suite := ResolveSuite(msg.cipherSuite);
      if suite.Failure? {
        return Some(suite.error);
      }
      var m := prims.hkdf.extract(HkdfAlgorithmOf(suite.value), None, msg.computation.esniSharedSecret.value);
      if m.None? {
        return Some(PreparationException(MASTER_SECRET_MESSAGE));
      }
      msg.computation.esniMasterSecret := m;
      err := None;
    }

    /** Master secret and contents hash present, and the suite resolved. */
    predicate KeyInputsPresent()
      reads msg`cipherSuite, msg.computation`esniMasterSecret, msg.computation`esniContentsHash
    {
      msg.computation.esniMasterSecret.Some? && msg.computation.esniContentsHash.Some?
      && ResolveSuite(msg.cipherSuite).Success?
    }

    /** The ESNI key: HKDF-Expand-Label(master, "esni key", contents hash, key size). */
    method PrepareEsniKey() returns (err: Option<Exception>)
      modifies msg.computation`esniKey
      ensures !KeyInputsPresent() ==> err == Some(NullPointerException)
      ensures KeyInputsPresent() ==>
        var suite := ResolveSuite(msg.cipherSuite).value;
        var key := prims.hkdf.expandLabel(HkdfAlgorithmOf(suite), msg.computation.esniMasterSecret.value,
          ESNI_KEY_LABEL, msg.computation.esniContentsHash.value, CipherKeySize(suite));
        (key.None? ==> err == Some(PreparationException(ESNI_KEY_MESSAGE)))
        && (key.Some? ==> err.None? && msg.computation.esniKey == key)
      ensures err.Some? ==> unchanged(msg.computation)
    {
      if !KeyInputsPresent() {
        return Some(NullPointerException);
      }
      var suite := ResolveSuite(msg.cipherSuite).value;
      var key := prims.hkdf.expandLabel(HkdfAlgorithmOf(suite), msg.computation.esniMasterSecret.value,
        ESNI_KEY_LABEL, msg.computation.esniContentsHash.value, CipherKeySize(suite));
      if key.None? {
        return Some(PreparationException(ESNI_KEY_MESSAGE));
      }
      msg.computation.esniKey := key;
      err := None;
    }

    /** The ESNI IV: HKDF-Expand-Label(master, "esni iv", contents hash, 12). */
    method PrepareEsniIv() returns (err: Option<Exception>)
      modifies msg.computation`esniIv
      ensures !KeyInputsPresent() ==> err == Some(NullPointerException)
      ensures KeyInputsPresent() ==>
        var iv := prims.hkdf.expandLabel(HkdfAlgorithmOf(ResolveSuite(msg.cipherSuite).value),
          msg.computation.esniMasterSecret.value, ESNI_IV_LABEL, msg.computation.esniContentsHash.value, AEAD_IV_LENGTH);
        (iv.None? ==> err == Some(PreparationException(ESNI_IV_MESSAGE)))
        && (iv.Some? ==> err.None? && msg.computation.esniIv == iv)
      ensures err.Some? ==> unchanged(msg.computation)
      ensures err.None? && ExpandsToLength(prims.hkdf) ==> |msg.computation.esniIv.value| == AEAD_IV_LENGTH
    {
      if !KeyInputsPresent() {
        return Some(NullPointerException);
      }
      var suite := ResolveSuite(msg.cipherSuite).value;
      var iv := prims.hkdf.expandLabel(HkdfAlgorithmOf(suite), msg.computation.esniMasterSecret.value,
        ESNI_IV_LABEL, msg.computation.esniContentsHash.value, AEAD_IV_LENGTH);
      if iv.None? {
        return Some(PreparationException(ESNI_IV_MESSAGE));
      }
      msg.computation.esniIv := iv;
      err := None;
    }

    method PrepareClientHelloKeyShare()
      modifies msg.computation`clientHelloKeyShare
      ensures msg.computation.clientHelloKeyShare == Some(ClientHelloKeyShareBytes(chooser.clientKeyShares))
    {
      var aad := BuildClientHelloKeyShare(chooser.clientKeyShares);
      msg.computation.clientHelloKeyShare := Some(aad);
    }

    /** Suite, ESNI key, IV and AAD present: the AEAD can be set up. */
    predicate AeadInputsPresent()
      reads msg`cipherSuite, msg.computation`esniKey, msg.computation`esniIv, msg.computation`clientHelloKeyShare
    {
      ResolveSuite(msg.cipherSuite).Success? && msg.computation.esniKey.Some?
      && msg.computation.esniIv.Some? && msg.computation.clientHelloKeyShare.Some?
    }

    /** Encrypts the inner bytes; a failed encryption leaves the field unset. */
    method PrepareEncryptedSni() returns (err: Option<Exception>)
      modifies msg`encryptedSni
      ensures err.Some? <==> !AeadInputsPresent() || msg.clientEsniInnerBytes.None?
      ensures err.Some? ==> err.value == NullPointerException && msg.encryptedSni == old(msg.encryptedSni)
      ensures err.None? ==>
        var suite := ResolveSuite(msg.cipherSuite).value;
        msg.encryptedSni == prims.encrypt(suite, msg.computation.esniKey.value, msg.computation.esniIv.value,
          TagBitLength(suite), msg.computation.clientHelloKeyShare.value, msg.clientEsniInnerBytes.value)
    {
      if !AeadInputsPresent() || msg.clientEsniInnerBytes.None? {
        return Some(NullPointerException);
      }
      var suite := ResolveSuite(msg.cipherSuite).value;
      msg.encryptedSni := prims.encrypt(suite, msg.computation.esniKey.value, msg.computation.esniIv.value,
        TagBitLength(suite), msg.computation.clientHelloKeyShare.value, msg.clientEsniInnerBytes.value);
      err := None;
    }

    /** Decrypts the received encrypted SNI; a failed decryption leaves the inner
        bytes unset. */
    method ParseEncryptedSni() returns (err: Option<Exception>)
      modifies msg`clientEsniInnerBytes
      ensures err.Some? <==> !AeadInputsPresent() || msg.encryptedSni.None?
      ensures err.Some? ==> err.value == NullPointerException && msg.clientEsniInnerBytes == old(msg.clientEsniInnerBytes)
      ensures err.None? ==>
        var suite := ResolveSuite(msg.cipherSuite).value;
        msg.clientEsniInnerBytes == prims.decrypt(suite, msg.computation.esniKey.value, msg.computation.esniIv.value,
          TagBitLength(suite), msg.computation.clientHelloKeyShare.value, msg.encryptedSni.value)
    {
      if !AeadInputsPresent() || msg.encryptedSni.None? {
        return Some(NullPointerException);
      }
      var suite := ResolveSuite(msg.cipherSuite).value;
      msg.clientEsniInnerBytes := prims.decrypt(suite, msg.computation.esniKey.value, msg.computation.esniIv.value,
        TagBitLength(suite), msg.computation.clientHelloKeyShare.value, msg.encryptedSni.value);
      err := None;
    }

    method PrepareEncryptedSniLength() returns (err: Option<Exception>)
      modifies msg`encryptedSniLength
      ensures err.Some? <==> msg.encryptedSni.None?
      ensures err.Some? ==> err.value == NullPointerException && msg.encryptedSniLength == old(msg.encryptedSniLength)
      ensures err.None? ==> msg.encryptedSniLength == Some(|msg.encryptedSni.value|)
    {
      if msg.encryptedSni.None? {
        return Some(NullPointerException);
      }
      msg.encryptedSniLength := Some(|msg.encryptedSni.value|);
      err := None;
    }

    method ParseClientEsniInnerBytes() returns (err: Option<Exception>)
      modifies msg`clientEsniInner
      ensures err.Some? <==> msg.clientEsniInnerBytes.None?
      ensures err.Some? ==> err.value == NullPointerException && msg.clientEsniInner == old(msg.clientEsniInner)
      ensures err.None? ==> msg.clientEsniInner == prims.parseInner(msg.clientEsniInnerBytes.value)
    {
      if msg.clientEsniInnerBytes.None? {
        return Some(NullPointerException);
      }
      msg.clientEsniInner := prims.parseInner(msg.clientEsniInnerBytes.value);
      err := None;
    }

    method PrepareServerNonce()
      modifies msg`serverNonce
      ensures msg.serverNonce == Some(chooser.esniClientNonce)
    {
      msg.serverNonce := Some(chooser.esniClientNonce);
    }

    // -------------------------------------------------------------------------
    // The pipelines

    /** What `prepareClientRandom`, `prepareEsniContents` and
        `prepareEsniContentsHash` compute, in that order, from the message as it
        stands: the random, ESNIContents over the record digest, the key share and
        that random, and its hash under the suite's hash, or the first exception. */
    function Contents(): (r: Result<DerivedContents>)
      reads this`clientHelloMessage, msg`recordDigestLength, msg`recordDigest, msg`cipherSuite, msg.keyShareEntry`group,
        msg.keyShareEntry`publicKeyLength, msg.keyShareEntry`publicKey
      ensures (ClientRandom().Failure? || msg.recordDigestLength.None? || msg.recordDigest.None?
        || msg.keyShareEntry.group.None? || msg.keyShareEntry.publicKeyLength.None? || msg.keyShareEntry.publicKey.None?
        || ResolveSuite(msg.cipherSuite).Failure?) ==> r == Failure(NullPointerException)
      ensures r.Failure? ==> r.error in {NullPointerException, PreparationException(CONTENTS_HASH_MESSAGE)}
      ensures r.Success? ==>
        ClientRandom() == Success(r.value.random) && ResolveSuite(msg.cipherSuite).Success?
        && msg.recordDigestLength.Some? && msg.recordDigest.Some? && msg.keyShareEntry.group.Some?
        && msg.keyShareEntry.publicKeyLength.Some? && msg.keyShareEntry.publicKey.Some?
        && r.value.contents == EsniContents(msg.recordDigestLength.value, msg.recordDigest.value,
             msg.keyShareEntry.group.value, msg.keyShareEntry.publicKeyLength.value, msg.keyShareEntry.publicKey.value,
             r.value.random)
        && prims.hkdf.digest(DigestAlgorithmOf(ResolveSuite(msg.cipherSuite).value), r.value.contents) == Some(r.value.hash)
    {
      var k := msg.keyShareEntry;
      match ClientRandom()
      case Failure(e) => Failure(e)
      case Success(random) =>
        if msg.recordDigestLength.None? || msg.recordDigest.None? || k.group.None? || k.publicKeyLength.None?
          || k.publicKey.None? then Failure(NullPointerException)
        else
          var contents := EsniContents(msg.recordDigestLength.value, msg.recordDigest.value, k.group.value,
            k.publicKeyLength.value, k.publicKey.value, random);
          match ResolveSuite(msg.cipherSuite)
          case Failure(e) => Failure(e)
          case Success(suite) =>
            match prims.hkdf.digest(DigestAlgorithmOf(suite), contents)
            case None => Failure(PreparationException(CONTENTS_HASH_MESSAGE))
            case Some(h) => Success(DerivedContents(random, contents, h))
    }

    /** The computation holds the random, contents and hash `Contents` yields. */
    predicate ContentsDerived()
      reads this`clientHelloMessage, msg`recordDigestLength, msg`recordDigest, msg`cipherSuite, msg.keyShareEntry`group,
        msg.keyShareEntry`publicKeyLength, msg.keyShareEntry`publicKey, msg.computation`clientHelloRandom,
        msg.computation`esniContents, msg.computation`esniContentsHash
    {
      var c := msg.computation;
      Contents().Success?
      && c.clientHelloRandom == Some(Contents().value.random) && c.esniContents == Some(Contents().value.contents)
      && c.esniContentsHash == Some(Contents().value.hash)
    }

    /** The key schedule over the current shared secret and contents hash. */
    function Keys(): Result<EsniKeys>
      reads msg`cipherSuite, msg.computation`esniSharedSecret, msg.computation`esniContentsHash
    {
      EsniKeySchedule(prims.hkdf, ResolveSuite(msg.cipherSuite), msg.computation.esniSharedSecret,
        msg.computation.esniContentsHash)
    }

    /** The master secret, the ESNI key and IV are those of the key schedule, and
        the AAD is the ClientHello key share. */
    predicate KeysDerived()
      reads msg`cipherSuite, msg.computation`esniSharedSecret, msg.computation`esniMasterSecret,
        msg.computation`esniContentsHash, msg.computation`esniKey, msg.computation`esniIv, msg.computation`clientHelloKeyShare
    {
      var c := msg.computation;
      Keys().Success?
      && c.esniMasterSecret == Some(Keys().value.masterSecret) && c.esniKey == Some(Keys().value.key)
      && c.esniIv == Some(Keys().value.iv)
      && c.clientHelloKeyShare == Some(ClientHelloKeyShareBytes(chooser.clientKeyShares))
    }

    /** The computation holds the client side's shared secret. */
    predicate ClientSecretDerived()
      reads msg.keyShareEntry`group, msg.keyShareEntry`privateKey, msg.computation`esniServerPublicKey,
        msg.computation`esniSharedSecret
    {
      ClientSharedSecret().Success? && msg.computation.esniSharedSecret == Some(ClientSharedSecret().value)
    }

    /** The computation holds the server side's shared secret. */
    predicate ServerSecretDerived()
      reads msg.keyShareEntry`group, msg.keyShareEntry`publicKey, msg.computation`esniSharedSecret
    {
      ServerSharedSecret().Success? && msg.computation.esniSharedSecret == Some(ServerSharedSecret().value)
    }

    /** The ciphertext is the AEAD encryption of the inner bytes under the
        derived key, IV and AAD, and its length is recorded. */
    predicate Encrypted()
      reads msg`cipherSuite, msg`clientEsniInnerBytes, msg`encryptedSni, msg`encryptedSniLength,
        msg.computation`esniKey, msg.computation`esniIv, msg.computation`clientHelloKeyShare
    {
      AeadInputsPresent() && msg.clientEsniInnerBytes.Some? && msg.encryptedSni.Some?
      && var c := msg.computation;
      var suite := ResolveSuite(msg.cipherSuite).value;
      msg.encryptedSni == prims.encrypt(suite, c.esniKey.value, c.esniIv.value, TagBitLength(suite),
        c.clientHelloKeyShare.value, msg.clientEsniInnerBytes.value)
      && msg.encryptedSniLength == Some(|msg.encryptedSni.value|)
    }

    /** The inner bytes are the AEAD decryption of the received ciphertext under
        the derived key, IV and AAD, and the inner structure is parsed from them. */
    predicate Decrypted()
      reads msg`cipherSuite, msg`clientEsniInnerBytes, msg`clientEsniInner, msg`encryptedSni,
        msg.computation`esniKey, msg.computation`esniIv, msg.computation`clientHelloKeyShare
    {
      AeadInputsPresent() && msg.encryptedSni.Some? && msg.clientEsniInnerBytes.Some?
      && var c := msg.computation;
      var suite := ResolveSuite(msg.cipherSuite).value;
      msg.clientEsniInnerBytes == prims.decrypt(suite, c.esniKey.value, c.esniIv.value, TagBitLength(suite),
        c.clientHelloKeyShare.value, msg.encryptedSni.value)
      && msg.clientEsniInner == prims.parseInner(msg.clientEsniInnerBytes.value)
    }

    /** How the CLIENT steps from the random to the ciphertext's length end: the
        first stage that fails reports its exception (a missing ciphertext is a
        NullPointerException), and the run succeeds exactly when every stage holds
        its result. */
    predicate ClientTailOutcome(err: Option<Exception>)
      reads this, msg, msg.keyShareEntry, msg.computation
    {
      (Contents().Failure? ==> err == Some(Contents().error))
      && (Contents().Success? && ClientSharedSecret().Failure? ==> err == Some(ClientSharedSecret().error))
      && (Contents().Success? && ClientSharedSecret().Success? && Keys().Failure? ==> err == Some(Keys().error))
      && (ContentsDerived() && ClientSecretDerived() && KeysDerived() && !Encrypted() ==> err == Some(NullPointerException))
      && (err.None? <==> ContentsDerived() && ClientSecretDerived() && KeysDerived() && Encrypted())
    }

    /** How the SERVER steps of `prepareAfterParse` end, with each exception
        reported through the mapping when `mapped` holds. */
    predicate ServerTailOutcome(err: Option<Exception>, mapped: bool)
      reads this, msg, msg.keyShareEntry, msg.computation
    {
      (Contents().Failure? ==> err == Reported(Contents().error, mapped))
      && (Contents().Success? && ServerSharedSecret().Failure? ==> err == Reported(ServerSharedSecret().error, mapped))
      && (Contents().Success? && ServerSharedSecret().Success? && Keys().Failure? ==>
        err == Reported(Keys().error, mapped))
      && (ContentsDerived() && ServerSecretDerived() && KeysDerived() && !Decrypted() ==>
        err == Reported(NullPointerException, mapped))
      && (err.None? <==> ContentsDerived() && ServerSecretDerived() && KeysDerived() && Decrypted())
    }

    /** Client random, ESNIContents and its hash: the steps both modes share
        before the shared secret. */
    method DeriveContents() returns (err: Option<Exception>)
      modifies msg.computation`clientHelloRandom, msg.computation`esniContents, msg.computation`esniContentsHash
      ensures ClientFieldsKept()
      ensures err.None? <==> Contents().Success?
      ensures Contents().Failure? ==> err == Some(Contents().error)
      ensures err.None? ==> ContentsDerived()
    {
      err := PrepareClientRandom();
      if err.Some? { return; }
      err := PrepareEsniContents();
      if err.Some? { return; }
      err := PrepareEsniContentsHash();
    }

    /** Master secret, ESNI key and IV, and the key-share AAD: the steps both
        modes share after the shared secret. */
    method DeriveKeys() returns (err: Option<Exception>)
      modifies msg.computation`esniMasterSecret, msg.computation`esniKey, msg.computation`esniIv,
        msg.computation`clientHelloKeyShare
      ensures err.None? <==> Keys().Success?
      ensures Keys().Failure? ==> err == Some(Keys().error)
      ensures err.None? ==> KeysDerived()
    {
      err := PrepareEsniMasterSecret();
      if err.Some? { return; }
      err := PrepareEsniKey();
      if err.Some? { return; }
      err := PrepareEsniIv();
      if err.Some? { return; }
      PrepareClientHelloKeyShare();
    }

    /** The fields the CLIENT branch sets before the contents: the later steps
        leave them alone. */
    twostate predicate ClientFieldsKept()
      reads this, msg, msg.keyShareEntry, msg.computation
    {
      msg.keyShareEntry.groupConfig == old(msg.keyShareEntry.groupConfig)
      && msg.keyShareEntry.group == old(msg.keyShareEntry.group)
      && msg.keyShareEntry.privateKey == old(msg.keyShareEntry.privateKey)
      && msg.keyShareEntry.publicKey == old(msg.keyShareEntry.publicKey)
      && msg.keyShareEntry.publicKeyLength == old(msg.keyShareEntry.publicKeyLength)
      && msg.computation.esniRecordBytes == old(msg.computation.esniRecordBytes)
      && msg.computation.esniServerPublicKey == old(msg.computation.esniServerPublicKey)
      && msg.clientEsniInner == old(msg.clientEsniInner) && msg.clientEsniInnerBytes == old(msg.clientEsniInnerBytes)
      && msg.cipherSuite == old(msg.cipherSuite) && msg.recordDigest == old(msg.recordDigest)
      && msg.recordDigestLength == old(msg.recordDigestLength) && msg.serverNonce == old(msg.serverNonce)
      && streamClientEsniInnerBytes == old(streamClientEsniInnerBytes)
    }

    /** The steps both CLIENT phases end with: contents, keys, AAD, encryption and
        its length. */
    method PrepareClientSecretsAndEncrypt() returns (err: Option<Exception>)
      modifies msg`encryptedSni, msg`encryptedSniLength, msg.computation`clientHelloRandom,
        msg.computation`esniContents, msg.computation`esniContentsHash, msg.computation`esniSharedSecret,
        msg.computation`esniMasterSecret, msg.computation`esniKey, msg.computation`esniIv,
        msg.computation`clientHelloKeyShare
      ensures ClientFieldsKept()
      ensures ClientTailOutcome(err)
    {
      err := DeriveClientSecrets();
      if err.Some? { return; }
      err := EncryptInner();
    }

    method DeriveClientSecrets() returns (err: Option<Exception>)
      modifies msg.computation`clientHelloRandom, msg.computation`esniContents, msg.computation`esniContentsHash,
        msg.computation`esniSharedSecret, msg.computation`esniMasterSecret, msg.computation`esniKey,
        msg.computation`esniIv, msg.computation`clientHelloKeyShare
      ensures ClientFieldsKept()
      ensures Contents().Failure? ==> err == Some(Contents().error)
      ensures Contents().Success? && ClientSharedSecret().Failure? ==> err == Some(ClientSharedSecret().error)
      ensures Contents().Success? && ClientSharedSecret().Success? && Keys().Failure? ==> err == Some(Keys().error)
      ensures err.None? <==> ContentsDerived() && ClientSecretDerived() && KeysDerived()
    {
      err := DeriveContents();
      if err.Some? { return; }
      err := DeriveClientKeys();
    }

    /** The client's shared secret, then the keys derived from it. */
    method DeriveClientKeys() returns (err: Option<Exception>)
      modifies msg.computation`esniSharedSecret, msg.computation`esniMasterSecret, msg.computation`esniKey,
        msg.computation`esniIv, msg.computation`clientHelloKeyShare
      ensures ClientFieldsKept()
      ensures ClientSharedSecret().Failure? ==> err == Some(ClientSharedSecret().error)
      ensures ClientSharedSecret().Success? && Keys().Failure? ==> err == Some(Keys().error)
      ensures err.None? <==> ClientSecretDerived() && KeysDerived()
    {
      err := PrepareEsniClientSharedSecret();
      if err.Some? { return; }
      err := DeriveKeys();
    }

    /** Encrypts the inner bytes and records the ciphertext's length. */
    method EncryptInner() returns (err: Option<Exception>)
      modifies msg`encryptedSni, msg`encryptedSniLength
      ensures ClientFieldsKept()
      ensures err.Some? ==> err == Some(NullPointerException)
      ensures err.None? <==> Encrypted()
      ensures AeadInputsPresent() && msg.clientEsniInnerBytes.Some? ==>
        var suite := ResolveSuite(msg.cipherSuite).value;
        var c := msg.computation;
        (err.None? <==> prims.encrypt(suite, c.esniKey.value, c.esniIv.value, TagBitLength(suite),
          c.clientHelloKeyShare.value, msg.clientEsniInnerBytes.value).Some?)
    {
      err := PrepareEncryptedSni();
      if err.Some? { return; }
      err := PrepareEncryptedSniLength();
    }

    /** The suite and group the CLIENT branch negotiates. */
    function NegotiatedSuite(): CipherSuite
    {
      Preferred(chooser.clientSupportedEsniCipherSuites, IMPLEMENTED_CIPHER_SUITES, chooser.esniServerCipherSuites).selected
    }

    function NegotiatedGroup(): NamedGroup
    {
      Preferred(chooser.clientSupportedEsniNamedGroups, IMPLEMENTED_NAMED_GROUPS,
        ServerGroups(chooser.esniServerKeyShareEntries)).selected
    }

    /** The key share holds the negotiated group, the configured private key and
        its public key. */
    predicate KeyShareSet()
      reads msg.keyShareEntry
    {
      var k := msg.keyShareEntry;
      k.groupConfig == Some(NegotiatedGroup())
      && k.group == Some(NamedGroupValue(NegotiatedGroup()))
      && k.privateKey == Some(chooser.keySharePrivateKey)
      && k.publicKey == Some(prims.publicKeyOf(NegotiatedGroup(), chooser.keySharePrivateKey))
      && k.publicKeyLength == Some(|k.publicKey.value|)
    }

    /** The server's public key is that of the first published share for the
        key share's group, else of share 0. */
    predicate ServerKeyChosen()
      reads msg.keyShareEntry`group, msg.computation`esniServerPublicKey
    {
      var entries := chooser.esniServerKeyShareEntries;
      |entries| > 0 && msg.keyShareEntry.group.Some?
      && msg.computation.esniServerPublicKey
        == Some(entries[MatchOrFirst(EntryGroupValues(entries), msg.keyShareEntry.group.value)].publicKey)
    }

    /** The digest of the configured record under the negotiated suite's hash. */
    function RecordDigestOf(): Option<Bytes>
    {
      prims.hkdf.digest(DigestAlgorithmOf(NegotiatedSuite()), chooser.esniRecordBytes)
    }

    /** The steps of `prepareExtensionContent` that come before the contents. */
    method PrepareClientFields() returns (err: Option<Exception>)
      modifies this`streamClientEsniInnerBytes, msg`clientEsniInner, msg`clientEsniInnerBytes, msg`cipherSuite,
        msg`recordDigest, msg`recordDigestLength, msg.keyShareEntry, msg.computation`esniServerPublicKey,
        msg.computation`esniRecordBytes
      ensures msg.clientEsniInner == prims.prepareInner(old(msg.clientEsniInner))
      ensures streamClientEsniInnerBytes == old(streamClientEsniInnerBytes) + prims.serializeInner(msg.clientEsniInner)
      ensures msg.clientEsniInnerBytes == Some(streamClientEsniInnerBytes)
      ensures msg.cipherSuite == Some(CipherSuiteValue(NegotiatedSuite()))
      ensures KeyShareSet()
      ensures |chooser.esniServerKeyShareEntries| == 0 ==> err == Some(IndexOutOfBoundsException)
      ensures |chooser.esniServerKeyShareEntries| > 0 ==>
        ServerKeyChosen() && msg.computation.esniRecordBytes == Some(chooser.esniRecordBytes)
        && (RecordDigestOf().None? ==> err == Some(PreparationException(RECORD_DIGEST_MESSAGE)))
        && (RecordDigestOf().Some? ==>
          err.None? && msg.recordDigest == RecordDigestOf() && msg.recordDigestLength == Some(|RecordDigestOf().value|))
    {
      PrepareClientEsniInner();
      PrepareClientEsniInnerBytes();
      PrepareCipherSuite();
      ResolveSuiteOfValue(NegotiatedSuite());
      PrepareNamedGroup();
      err := PrepareKeyShareEntry();
      if err.Some? { return; }
      err := PrepareServerKeyAndDigest();
    }

    /** Server public key, record bytes, record digest and its length. */
    method PrepareServerKeyAndDigest() returns (err: Option<Exception>)
      modifies msg`recordDigest, msg`recordDigestLength, msg.computation`esniServerPublicKey,
        msg.computation`esniRecordBytes
      ensures |chooser.esniServerKeyShareEntries| == 0 ==> err == Some(IndexOutOfBoundsException)
      ensures |chooser.esniServerKeyShareEntries| > 0 && msg.keyShareEntry.group.None? ==>
        err == Some(NullPointerException)
      ensures |chooser.esniServerKeyShareEntries| > 0 && msg.keyShareEntry.group.Some? ==>
        ServerKeyChosen() && msg.computation.esniRecordBytes == Some(chooser.esniRecordBytes)
        && (ResolveSuite(msg.cipherSuite).Failure? ==> err == Some(NullPointerException))
        && (ResolveSuite(msg.cipherSuite).Success? ==>
          var d := prims.hkdf.digest(DigestAlgorithmOf(ResolveSuite(msg.cipherSuite).value), chooser.esniRecordBytes);
          (d.None? ==> err == Some(PreparationException(RECORD_DIGEST_MESSAGE)))
          && (d.Some? ==> err.None? && msg.recordDigest == d && msg.recordDigestLength == Some(|d.value|)))
    {
      err := PrepareEsniServerPublicKey();
      if err.Some? { return; }
      PrepareEsniRecordBytes();
      err := PrepareRecordDigest();
      if err.Some? { return; }
      err := PrepareRecordDigestLength();
    }

    /** What the CLIENT pipeline of `prepareExtensionContent` leaves behind: the
        inner structure prepared and appended to the stream, the negotiated suite
        and key share; then, when the server publishes a key share and the record
        digest can be computed, the server key, the record digest and whatever the
        steps from the random to the ciphertext give. The server nonce is not
        touched. */
    twostate predicate ClientContentPrepared(new err: Option<Exception>)
      reads this, msg, msg.keyShareEntry, msg.computation
    {
      msg.serverNonce == old(msg.serverNonce)
      && msg.clientEsniInner == prims.prepareInner(old(msg.clientEsniInner))
      && streamClientEsniInnerBytes == old(streamClientEsniInnerBytes) + prims.serializeInner(msg.clientEsniInner)
      && msg.clientEsniInnerBytes == Some(streamClientEsniInnerBytes)
      && msg.cipherSuite == Some(CipherSuiteValue(NegotiatedSuite()))
      && KeyShareSet()
      && (|chooser.esniServerKeyShareEntries| == 0 ==> err == Some(IndexOutOfBoundsException))
      && (|chooser.esniServerKeyShareEntries| > 0 ==>
        ServerKeyChosen()
        && msg.computation.esniRecordBytes == Some(chooser.esniRecordBytes)
        && (RecordDigestOf().None? ==> err == Some(PreparationException(RECORD_DIGEST_MESSAGE)))
        && (RecordDigestOf().Some? ==>
          msg.recordDigest == RecordDigestOf() && msg.recordDigestLength == Some(|RecordDigestOf().value|)
          && ClientTailOutcome(err)))
    }

    /** The CLIENT branch of `prepareExtensionContent`, in the source's order. */
    method PrepareClientExtensionContent() returns (err: Option<Exception>)
      modifies this`streamClientEsniInnerBytes, msg`clientEsniInner, msg`clientEsniInnerBytes, msg`cipherSuite,
        msg`recordDigest, msg`recordDigestLength, msg`encryptedSni, msg`encryptedSniLength, msg.keyShareEntry,
        msg.computation
      ensures ClientContentPrepared(err)
    {
      err := PrepareClientFields();
      if err.Some? { return; }
      err := PrepareClientSecretsAndEncrypt();
    }

    /** The SERVER branch changes the server nonce and nothing else. */
    twostate predicate OnlyServerNonceSet()
      reads this, msg, msg.keyShareEntry, msg.computation
    {
      msg.serverNonce == Some(chooser.esniClientNonce)
      && msg.clientEsniInner == old(msg.clientEsniInner) && msg.clientEsniInnerBytes == old(msg.clientEsniInnerBytes)
      && msg.cipherSuite == old(msg.cipherSuite) && msg.recordDigest == old(msg.recordDigest)
      && msg.recordDigestLength == old(msg.recordDigestLength) && msg.encryptedSni == old(msg.encryptedSni)
      && msg.encryptedSniLength == old(msg.encryptedSniLength)
      && unchanged(msg.keyShareEntry, msg.computation, this)
    }

    /** `prepareExtensionContent`: the full CLIENT pipeline, or in SERVER mode the
        client nonce copied into the server nonce and nothing else. */
    method PrepareExtensionContent() returns (err: Option<Exception>)
      modifies this`streamClientEsniInnerBytes, msg, msg.keyShareEntry, msg.computation
      ensures mode == ServerMode ==> err.None? && OnlyServerNonceSet()
      ensures mode == ClientMode ==> ClientContentPrepared(err)
    {
      if mode == ServerMode {
        PrepareServerNonce();
        return None;
      }
      err := PrepareClientExtensionContent();
    }

    /** `afterPrepareExtensionContent`: in CLIENT mode the contents, keys and
        encryption are computed again; in SERVER mode nothing happens. */
    method AfterPrepareExtensionContent() returns (err: Option<Exception>)
      modifies msg`encryptedSni, msg`encryptedSniLength, msg.computation
      ensures mode == ServerMode ==> err.None? && unchanged(msg, msg.computation)
      ensures mode == ClientMode ==> ClientTailOutcome(err)
    {
      if mode == ClientMode {
        err := PrepareClientSecretsAndEncrypt();
      } else {
        err := None;
      }
    }

    /** The steps of `prepareAfterParse`, before the exception mapping. */
    method ServerDecryptSteps() returns (err: Option<Exception>)
      modifies msg`clientEsniInnerBytes, msg`clientEsniInner, msg.computation`clientHelloRandom,
        msg.computation`esniContents, msg.computation`esniContentsHash, msg.computation`esniSharedSecret,
        msg.computation`esniMasterSecret, msg.computation`esniKey, msg.computation`esniIv,
        msg.computation`clientHelloKeyShare
      ensures ServerTailOutcome(err, false)
    {
      err := DeriveServerSecrets();
      if err.Some? { return; }
      err := DecryptInner();
    }

    method DeriveServerSecrets() returns (err: Option<Exception>)
      modifies msg.computation`clientHelloRandom, msg.computation`esniContents, msg.computation`esniContentsHash,
        msg.computation`esniSharedSecret, msg.computation`esniMasterSecret, msg.computation`esniKey,
        msg.computation`esniIv, msg.computation`clientHelloKeyShare
      ensures Contents().Failure? ==> err == Some(Contents().error)
      ensures Contents().Success? && ServerSharedSecret().Failure? ==> err == Some(ServerSharedSecret().error)
      ensures Contents().Success? && ServerSharedSecret().Success? && Keys().Failure? ==> err == Some(Keys().error)
      ensures err.None? <==> ContentsDerived() && ServerSecretDerived() && KeysDerived()
    {
      err := DeriveContents();
      if err.Some? { return; }
      err := DeriveServerKeys();
    }

    /** The server's shared secret, then the keys derived from it. */
    method DeriveServerKeys() returns (err: Option<Exception>)
      modifies msg.computation`esniSharedSecret, msg.computation`esniMasterSecret, msg.computation`esniKey,
        msg.computation`esniIv, msg.computation`clientHelloKeyShare
      ensures ServerSharedSecret().Failure? ==> err == Some(ServerSharedSecret().error)
      ensures ServerSharedSecret().Success? && Keys().Failure? ==> err == Some(Keys().error)
      ensures err.None? <==> ServerSecretDerived() && KeysDerived()
    {
      err := PrepareEsniServerSharedSecret();
      if err.Some? { return; }
      err := DeriveKeys();
    }

    /** Decrypts the received encrypted SNI and parses the inner structure. */
    method DecryptInner() returns (err: Option<Exception>)
      modifies msg`clientEsniInnerBytes, msg`clientEsniInner
      ensures err.Some? ==> err == Some(NullPointerException)
      ensures err.None? <==> Decrypted()
      ensures AeadInputsPresent() && msg.encryptedSni.Some? ==>
        var suite := ResolveSuite(msg.cipherSuite).value;
        var c := msg.computation;
        (err.None? <==> prims.decrypt(suite, c.esniKey.value, c.esniIv.value, TagBitLength(suite),
          c.clientHelloKeyShare.value, msg.encryptedSni.value).Some?)
    {
      err := ParseEncryptedSni();
      if err.Some? { return; }
      err := ParseClientEsniInnerBytes();
    }

    /** `prepareAfterParse`: in SERVER mode the received extension is decrypted
        with keys derived from the server's key pair, and a missing parameter
        becomes a PreparationException. In CLIENT mode nothing happens. */
    method PrepareAfterParse() returns (err: Option<Exception>)
      modifies msg`clientEsniInnerBytes, msg`clientEsniInner, msg.computation
      ensures mode == ClientMode ==> err.None? && unchanged(msg, msg.computation)
      ensures err.Some? ==> err.value != NullPointerException
      ensures mode == ServerMode ==> ServerTailOutcome(err, true)
    {
      if mode == ClientMode {
        return None;
      }
      err := ServerDecryptSteps();
      err := MapMissingParameters(err);
    }
  }

  /** The groups of the server's published key shares, in order. */
  function ServerGroups(entries: seq<KeyShareStoreEntry>): (r: seq<NamedGroup>)
    ensures |r| == |entries|
    ensures forall i :: 0 <= i < |entries| ==> r[i] == entries[i].group
  {
    if entries == [] then [] else [entries[0].group] + ServerGroups(entries[1..])
  }

  lemma {:induction false} ServerGroupsAppend(entries: seq<KeyShareStoreEntry>, e: KeyShareStoreEntry)
    ensures ServerGroups(entries + [e]) == ServerGroups(entries) + [e.group]
  {
  }

  /** The wire codes of the published key shares' groups. */
  function EntryGroupValues(entries: seq<KeyShareStoreEntry>): (r: seq<Bytes>)
    ensures |r| == |entries|
    ensures forall i :: 0 <= i < |entries| ==> r[i] == NamedGroupValue(entries[i].group)
  {
    if entries == [] then [] else [NamedGroupValue(entries[0].group)] + EntryGroupValues(entries[1..])
  }

  /** The group codes of the configured key pairs, in order. */
  function PairGroupValues(pairs: seq<EsniKeyPair>): seq<Bytes>
  {
    seq(|pairs|, i requires 0 <= i < |pairs| => pairs[i].group)
  }
}
