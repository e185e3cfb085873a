/** The TLS 1.3 KeyUpdate message (section 4.6.3 of RFC 8446): the handler that
    rotates the application traffic secrets and rekeys the record layer, and the
    preparator that fills the outgoing message. */
module KeyUpdate {
  import opened Wrappers
  import opened Bytes
  import opened TlsConstants
  import opened Crypto

  /** The nonce length of every AEAD cipher of TLS 1.3. */
  const AEAD_IV_LENGTH: nat := 12

  /** The symmetric material of one record-cipher epoch. */
  datatype KeySet = KeySet(
    clientWriteKey: Bytes,
    serverWriteKey: Bytes,
    clientWriteIv: Bytes,
    serverWriteIv: Bytes,
    keySetType: Tls13KeySetType)

  /** A record cipher, as `RecordCipherFactory` builds it from a key set and a suite. */
  datatype RecordCipher = RecordCipher(keySet: KeySet, suite: CipherSuite)

  /** The handler's collaborators that are not part of this model: the HKDF
      primitives and `KeySetGenerator.generateKeySet`, which derives a key set from
      the two traffic secrets (`None`: it raised `NoSuchAlgorithmException` or
      `CryptoException`). */
  datatype KeySchedule = KeySchedule(
    hkdf: Hkdf,
    generateKeySet: (Bytes, Bytes, CipherSuite, Tls13KeySetType) -> Option<KeySet>)

  /** The part of the connection state the KeyUpdate handler reads and writes,
      including the record layer's installed, encrypting and decrypting ciphers. */
  class TlsContext {
    const connectionEndType: ConnectionEndType
    const selectedCipherSuite: CipherSuite
    var talkingConnectionEnd: ConnectionEndType
    var clientApplicationTrafficSecret: Bytes
    var serverApplicationTrafficSecret: Bytes
    var activeClientKeySetType: Tls13KeySetType
    var writeSequenceNumber: nat
    var readSequenceNumber: nat
    var recordCipher: Option<RecordCipher>
    var encryptionCipher: Option<RecordCipher>
    var decryptionCipher: Option<RecordCipher>

    constructor (localEnd: ConnectionEndType, suite: CipherSuite, talking: ConnectionEndType,
                 clientSecret: Bytes, serverSecret: Bytes)
      ensures connectionEndType == localEnd && selectedCipherSuite == suite
      ensures talkingConnectionEnd == talking
      ensures clientApplicationTrafficSecret == clientSecret
      ensures serverApplicationTrafficSecret == serverSecret
      ensures activeClientKeySetType == NoTrafficSecrets
      ensures writeSequenceNumber == 0 && readSequenceNumber == 0
      ensures recordCipher == None && encryptionCipher == None && decryptionCipher == None
    {
      connectionEndType, selectedCipherSuite := localEnd, suite;
      talkingConnectionEnd := talking;
      clientApplicationTrafficSecret, serverApplicationTrafficSecret := clientSecret, serverSecret;
      activeClientKeySetType := NoTrafficSecrets;
      writeSequenceNumber, readSequenceNumber := 0, 0;
      recordCipher, encryptionCipher, decryptionCipher := None, None, None;
    }
  }

  /** A KeyUpdate message; `None` is a flag that was never set. */
  class KeyUpdateMessage {
    var requestUpdate: Option<KeyUpdateRequest>

    constructor (flag: Option<KeyUpdateRequest>)
      ensures requestUpdate == flag
    {
      requestUpdate := flag;
    }
  }

  predicate RequestsUpdate(flag: Option<KeyUpdateRequest>)
  {
    flag == Some(UpdateRequested)
  }

  /** The two tests the handler writes out for "the talking end is this end" and
      "the talking end is the peer". */
  predicate TalkingIsLocal(talking: ConnectionEndType, local: ConnectionEndType)
  {
    (talking == Client && local == Client) || (talking == Server && local == Server)
  }

  predicate TalkingIsPeer(talking: ConnectionEndType, local: ConnectionEndType)
  {
    (talking == Server && local == Client) || (talking == Client && local == Server)
  }

  /** With two connection ends, exactly one of the two tests holds, and the first
      one holds exactly when the ends are equal. */
  lemma RekeyTestsPartition(talking: ConnectionEndType, local: ConnectionEndType)
    ensures TalkingIsLocal(talking, local) != TalkingIsPeer(talking, local)
    ensures TalkingIsLocal(talking, local) <==> talking == local
  {
  }

  /** The next application traffic secret of section 7.2 of RFC 8446:
      HKDF-Expand-Label(secret, "traffic upd", "", Hash.length), where the hash
      length is the length of the suite's HMAC; `None` when the MAC is unavailable
      or the expansion fails. */
  function NextTrafficSecret(hkdf: Hkdf, suite: CipherSuite, secret: Bytes): Option<Bytes>
  {
    var alg := HkdfAlgorithmOf(suite);
    match hkdf.macLength(MacAlgorithmOf(alg))
    case None => None
    case Some(hashLength) => hkdf.expandLabel(alg, secret, TRAFFIC_UPD_LABEL, [], hashLength)
  }

  function WriteIv(hkdf: Hkdf, suite: CipherSuite, secret: Bytes): Option<Bytes>
  {
    hkdf.expandLabel(HkdfAlgorithmOf(suite), secret, IV_LABEL, [], AEAD_IV_LENGTH)
  }

  function WriteKey(hkdf: Hkdf, suite: CipherSuite, secret: Bytes): Option<Bytes>
  {
    hkdf.expandLabel(HkdfAlgorithmOf(suite), secret, KEY_LABEL, [], CipherKeySize(suite))
  }

  /** The traffic secret of one end. */
  function SecretOf(end: ConnectionEndType, clientSecret: Bytes, serverSecret: Bytes): Bytes
  {
    if end == Client then clientSecret else serverSecret
  }

  /** A key set whose write key and IV of `end` are replaced. */
  function WithWritePair(ks: KeySet, end: ConnectionEndType, key: Bytes, iv: Bytes): KeySet
  {
    if end == Client then ks.(clientWriteKey := key, clientWriteIv := iv)
    else ks.(serverWriteKey := key, serverWriteIv := iv)
  }

  /** The key set the handler installs: the generated key set with the write key
      and IV of the LOCAL end re-derived from the local end's traffic secret,
      whichever end is talking. Errors: the generator failing raises
      `UnsupportedOperationException`, an expansion failing `AdjustmentException`. */
  ghost function RekeyedKeySet(schedule: KeySchedule, suite: CipherSuite, local: ConnectionEndType,
                               clientSecret: Bytes, serverSecret: Bytes,
                               keySetType: Tls13KeySetType): Result<KeySet>
  {
    var secret := SecretOf(local, clientSecret, serverSecret);
    match schedule.generateKeySet(clientSecret, serverSecret, suite, keySetType)
    case None => Failure(UnsupportedOperationException("The specified Algorithm is not supported"))
    case Some(generated) =>
      match WriteIv(schedule.hkdf, suite, secret)
      case None => Failure(AdjustmentException)
      case Some(iv) =>
        match WriteKey(schedule.hkdf, suite, secret)
        case None => Failure(AdjustmentException)
        case Some(key) => Success(WithWritePair(generated, local, key, iv))
  }

  /** What a successful rekey installs: the local end's write pair is derived
      from the local end's secret with the labels "key" and "iv" (12 bytes when
      expansion keeps its length promise), and the peer's pair is the generator's. */
  lemma RekeyedKeySetOverwritesLocalPair(schedule: KeySchedule, suite: CipherSuite,
                                         local: ConnectionEndType, clientSecret: Bytes,
                                         serverSecret: Bytes, keySetType: Tls13KeySetType)
    requires RekeyedKeySet(schedule, suite, local, clientSecret, serverSecret, keySetType).Success?
    ensures var ks := RekeyedKeySet(schedule, suite, local, clientSecret, serverSecret, keySetType).value;
            var generated := schedule.generateKeySet(clientSecret, serverSecret, suite, keySetType).value;
            var secret := if local == Client then clientSecret else serverSecret;
            var key := schedule.hkdf.expandLabel(HkdfAlgorithmOf(suite), secret, "key", [], CipherKeySize(suite));
            var iv := schedule.hkdf.expandLabel(HkdfAlgorithmOf(suite), secret, "iv", [], 12);
            key.Some? && iv.Some? &&
            (local == Client ==> ks.clientWriteKey == key.value && ks.clientWriteIv == iv.value &&
                                 ks.serverWriteKey == generated.serverWriteKey &&
                                 ks.serverWriteIv == generated.serverWriteIv) &&
            (local == Server ==> ks.serverWriteKey == key.value && ks.serverWriteIv == iv.value &&
                                 ks.clientWriteKey == generated.clientWriteKey &&
                                 ks.clientWriteIv == generated.clientWriteIv) &&
            ks.keySetType == generated.keySetType &&
            (ExpandsToLength(schedule.hkdf) ==> |iv.value| == 12 && |key.value| == CipherKeySize(suite))
  {
  }

  class KeyUpdateHandler {
    const tlsContext: TlsContext
    const schedule: KeySchedule

    constructor (context: TlsContext, keySchedule: KeySchedule)
      ensures tlsContext == context && schedule == keySchedule
    {
      tlsContext, schedule := context, keySchedule;
    }

    /** Receiving a KeyUpdate changes nothing. */
    method AdjustTlsContext(message: KeyUpdateMessage)
      ensures unchanged(tlsContext)
    {
    }

    /** After sending: rotate both application traffic secrets when the message
        requests an update, then always rekey with the application secrets. */
    method AdjustTlsContextAfterSerialize(message: KeyUpdateMessage) returns (err: Option<Exception>)
      modifies tlsContext
      ensures RekeyedForMessage(schedule, tlsContext, old(message.requestUpdate), err)
    {
      err := RotateIfRequestedAndRekey(message);
    }

    /** Before preparing: only when the peer is the talking end, rotate (if
        requested) and rekey; when this end talks, no state changes. */
    method GetPreparator(message: KeyUpdateMessage) returns (preparator: KeyUpdatePreparator?, err: Option<Exception>)
      modifies tlsContext
      ensures old(tlsContext.talkingConnectionEnd) == tlsContext.connectionEndType ==>
                unchanged(tlsContext) && err.None?
      ensures old(tlsContext.talkingConnectionEnd) != tlsContext.connectionEndType ==>
                RekeyedForMessage(schedule, tlsContext, old(message.requestUpdate), err)
      ensures err.None? <==> preparator != null
      ensures preparator != null ==> fresh(preparator) && preparator.msg == message
    {
      preparator := null;
      err := None;
      if tlsContext.talkingConnectionEnd != tlsContext.connectionEndType {
        err := RotateIfRequestedAndRekey(message);
        if err.Some? {
          return;
        }
      }
      preparator := new KeyUpdatePreparator(message);
    }

    /** The two steps `adjustTlsContextAfterSerialize` and `getPreparator` share. */
    method RotateIfRequestedAndRekey(message: KeyUpdateMessage) returns (err: Option<Exception>)
      modifies tlsContext
      ensures RekeyedForMessage(schedule, tlsContext, old(message.requestUpdate), err)
    {
      if message.requestUpdate == Some(UpdateRequested) {
        err := AdjustApplicationTrafficSecrets();
        if err.Some? {
          return;
        }
      }
      err := SetRecordCipher(ApplicationTrafficSecrets);
    }

    /** Replaces each application traffic secret by its successor. The client
        secret is written before the server secret is derived, so a failure of the
        second derivation leaves the client secret already rotated. */
    method AdjustApplicationTrafficSecrets() returns (err: Option<Exception>)
      modifies tlsContext`clientApplicationTrafficSecret, tlsContext`serverApplicationTrafficSecret
      ensures SecretsRotated(schedule.hkdf, tlsContext, err)
    {
      var alg := HkdfAlgorithmOf(tlsContext.selectedCipherSuite);
      var macLength := schedule.hkdf.macLength(MacAlgorithmOf(alg));
      if macLength.None? {
        return Some(AdjustmentException);
      }
      var client := schedule.hkdf.expandLabel(alg, tlsContext.clientApplicationTrafficSecret,
                                              TRAFFIC_UPD_LABEL, [], macLength.value);
      if client.None? {
        return Some(AdjustmentException);
      }
      tlsContext.clientApplicationTrafficSecret := client.value;
      var server := schedule.hkdf.expandLabel(alg, tlsContext.serverApplicationTrafficSecret,
                                              TRAFFIC_UPD_LABEL, [], macLength.value);
      if server.None? {
        return Some(AdjustmentException);
      }
      tlsContext.serverApplicationTrafficSecret := server.value;
      err := None;
    }

    /** Builds and installs a new record cipher and resets the sequence number of
        exactly one direction: the write direction when this end is talking, the
        read direction otherwise. In both cases the write pair re-derived is the
        local end's own. */
    method SetRecordCipher(keySetType: Tls13KeySetType) returns (err: Option<Exception>)
      modifies tlsContext`activeClientKeySetType, tlsContext`recordCipher,
               tlsContext`writeSequenceNumber, tlsContext`readSequenceNumber,
               tlsContext`encryptionCipher, tlsContext`decryptionCipher
      ensures tlsContext.activeClientKeySetType == keySetType
      ensures RecordLayerRekeyed(schedule, tlsContext, keySetType, err)
    {
      tlsContext.activeClientKeySetType := keySetType;
      var keySet := BuildKeySet(tlsContext.activeClientKeySetType);
      if keySet.Failure? {
        return Some(keySet.error);
      }
      InstallRecordCipher(keySet.value);
      err := None;
    }

    /** The key set of a rekey: the generated key set with the local end's write
        key and IV re-derived from the local end's traffic secret. */
    method BuildKeySet(keySetType: Tls13KeySetType) returns (r: Result<KeySet>)
      ensures r == RekeyedKeySet(schedule, tlsContext.selectedCipherSuite, tlsContext.connectionEndType,
                                 tlsContext.clientApplicationTrafficSecret,
                                 tlsContext.serverApplicationTrafficSecret, keySetType)
    {
      var suite := tlsContext.selectedCipherSuite;
      var alg := HkdfAlgorithmOf(suite);
      var generated := schedule.generateKeySet(tlsContext.clientApplicationTrafficSecret,
                                               tlsContext.serverApplicationTrafficSecret, suite, keySetType);
      if generated.None? {
        return Failure(UnsupportedOperationException("The specified Algorithm is not supported"));
      }
      var keySet := generated.value;
      var talking, local := tlsContext.talkingConnectionEnd, tlsContext.connectionEndType;
      var secret: Bytes;
      if TalkingIsLocal(talking, local) {
        secret := if local == Client then tlsContext.clientApplicationTrafficSecret
                  else tlsContext.serverApplicationTrafficSecret;
      } else {
        secret := if local == Server then tlsContext.serverApplicationTrafficSecret
                  else tlsContext.clientApplicationTrafficSecret;
      }
      var iv := schedule.hkdf.expandLabel(alg, secret, IV_LABEL, [], AEAD_IV_LENGTH);
      if iv.None? {
        return Failure(AdjustmentException);
      }
      var key := schedule.hkdf.expandLabel(alg, secret, KEY_LABEL, [], CipherKeySize(suite));
      if key.None? {
        return Failure(AdjustmentException);
      }
      if local == Client {
        keySet := keySet.(clientWriteIv := iv.value);
        keySet := keySet.(clientWriteKey := key.value);
      } else {
        keySet := keySet.(serverWriteIv := iv.value);
        keySet := keySet.(serverWriteKey := key.value);
      }
      r := Success(keySet);
    }

    /** Installs a record cipher over `keySet` and switches the talking end's
        direction to it with a fresh sequence number. */
    method InstallRecordCipher(keySet: KeySet)
      modifies tlsContext`recordCipher, tlsContext`writeSequenceNumber, tlsContext`readSequenceNumber,
               tlsContext`encryptionCipher, tlsContext`decryptionCipher
      ensures tlsContext.recordCipher == Some(RecordCipher(keySet, tlsContext.selectedCipherSuite))
      ensures tlsContext.talkingConnectionEnd == tlsContext.connectionEndType ==>
        tlsContext.writeSequenceNumber == 0 && tlsContext.encryptionCipher == tlsContext.recordCipher
        && tlsContext.readSequenceNumber == old(tlsContext.readSequenceNumber)
        && tlsContext.decryptionCipher == old(tlsContext.decryptionCipher)
      ensures tlsContext.talkingConnectionEnd != tlsContext.connectionEndType ==>
        tlsContext.readSequenceNumber == 0 && tlsContext.decryptionCipher == tlsContext.recordCipher
        && tlsContext.writeSequenceNumber == old(tlsContext.writeSequenceNumber)
        && tlsContext.encryptionCipher == old(tlsContext.encryptionCipher)
    {
      var talking, local := tlsContext.talkingConnectionEnd, tlsContext.connectionEndType;
      tlsContext.recordCipher := Some(RecordCipher(keySet, tlsContext.selectedCipherSuite));
      if TalkingIsLocal(talking, local) {
        tlsContext.writeSequenceNumber := 0;
        tlsContext.encryptionCipher := tlsContext.recordCipher;
      } else if TalkingIsPeer(talking, local) {
        tlsContext.readSequenceNumber := 0;
        tlsContext.decryptionCipher := tlsContext.recordCipher;
      }
    }
  }

  /** The outcome of `AdjustApplicationTrafficSecrets`: on success both secrets
      are their successors; on failure (always `AdjustmentException`) the server
      secret is unchanged and the client secret is rotated exactly when its own
      derivation succeeded. */
  twostate predicate SecretsRotated(hkdf: Hkdf, ctx: TlsContext, new err: Option<Exception>)
    reads ctx
  {
    var suite := ctx.selectedCipherSuite;
    var nextClient := NextTrafficSecret(hkdf, suite, old(ctx.clientApplicationTrafficSecret));
    var nextServer := NextTrafficSecret(hkdf, suite, old(ctx.serverApplicationTrafficSecret));
    (err.None? <==> nextClient.Some? && nextServer.Some?) &&
    (err.Some? ==> err == Some(AdjustmentException)) &&
    (err.None? ==> ctx.clientApplicationTrafficSecret == nextClient.value &&
                   ctx.serverApplicationTrafficSecret == nextServer.value) &&
    (err.Some? ==> ctx.serverApplicationTrafficSecret == old(ctx.serverApplicationTrafficSecret) &&
                   ctx.clientApplicationTrafficSecret ==
                     (if nextClient.Some? then nextClient.value else old(ctx.clientApplicationTrafficSecret)))
  }

  /** The outcome of `SetRecordCipher` for the secrets the context holds: on
      success the installed cipher carries `RekeyedKeySet` and exactly one
      direction is reset and switched to it; on failure the error is the one
      `RekeyedKeySet` names and the record layer is untouched. */
  twostate predicate RecordLayerRekeyed(schedule: KeySchedule, ctx: TlsContext,
                                        keySetType: Tls13KeySetType, new err: Option<Exception>)
    reads ctx
  {
    var outcome := RekeyedKeySet(schedule, ctx.selectedCipherSuite, ctx.connectionEndType,
                                 ctx.clientApplicationTrafficSecret,
                                 ctx.serverApplicationTrafficSecret, keySetType);
    var writing := old(ctx.talkingConnectionEnd) == ctx.connectionEndType;
    (err.None? <==> outcome.Success?) &&
    (outcome.Failure? ==> err == Some(outcome.error)) &&
    (err.None? ==> ctx.recordCipher == Some(RecordCipher(outcome.value, ctx.selectedCipherSuite))) &&
    (err.None? && writing ==>
       ctx.writeSequenceNumber == 0 && ctx.encryptionCipher == ctx.recordCipher &&
       ctx.readSequenceNumber == old(ctx.readSequenceNumber) &&
       ctx.decryptionCipher == old(ctx.decryptionCipher)) &&
    (err.None? && !writing ==>
       ctx.readSequenceNumber == 0 && ctx.decryptionCipher == ctx.recordCipher &&
       ctx.writeSequenceNumber == old(ctx.writeSequenceNumber) &&
       ctx.encryptionCipher == old(ctx.encryptionCipher)) &&
    (err.Some? ==>
       ctx.recordCipher == old(ctx.recordCipher) &&
       ctx.writeSequenceNumber == old(ctx.writeSequenceNumber) &&
       ctx.readSequenceNumber == old(ctx.readSequenceNumber) &&
       ctx.encryptionCipher == old(ctx.encryptionCipher) &&
       ctx.decryptionCipher == old(ctx.decryptionCipher))
  }

  /** The outcome of rotating (only when `flag` requests it) and then rekeying
      with the application traffic secrets. Without a request the secrets are
      unchanged; a failed rotation stops before the record layer is touched. */
  twostate predicate RekeyedForMessage(schedule: KeySchedule, ctx: TlsContext,
                                       flag: Option<KeyUpdateRequest>, new err: Option<Exception>)
    reads ctx
  {
    var rotationFailed := RequestsUpdate(flag) &&
      (NextTrafficSecret(schedule.hkdf, ctx.selectedCipherSuite, old(ctx.clientApplicationTrafficSecret)).None? ||
       NextTrafficSecret(schedule.hkdf, ctx.selectedCipherSuite, old(ctx.serverApplicationTrafficSecret)).None?);
    ctx.talkingConnectionEnd == old(ctx.talkingConnectionEnd) &&
    (!RequestsUpdate(flag) ==>
       ctx.clientApplicationTrafficSecret == old(ctx.clientApplicationTrafficSecret) &&
       ctx.serverApplicationTrafficSecret == old(ctx.serverApplicationTrafficSecret)) &&
    (RequestsUpdate(flag) ==> SecretsRotated(schedule.hkdf, ctx, if rotationFailed then err else None)) &&
    (rotationFailed ==>
       err == Some(AdjustmentException) &&
       ctx.activeClientKeySetType == old(ctx.activeClientKeySetType) &&
       ctx.recordCipher == old(ctx.recordCipher) &&
       ctx.writeSequenceNumber == old(ctx.writeSequenceNumber) &&
       ctx.readSequenceNumber == old(ctx.readSequenceNumber) &&
       ctx.encryptionCipher == old(ctx.encryptionCipher) &&
       ctx.decryptionCipher == old(ctx.decryptionCipher)) &&
    (!rotationFailed ==>
       ctx.activeClientKeySetType == ApplicationTrafficSecrets &&
       RecordLayerRekeyed(schedule, ctx, ApplicationTrafficSecrets, err))
  }

  /** The KeyUpdate preparator: whatever the flag was, the message is sent
      without requesting an update. */
  class KeyUpdatePreparator {
    const msg: KeyUpdateMessage

    constructor (message: KeyUpdateMessage)
      ensures msg == message
    {
      msg := message;
    }

    method PrepareHandshakeMessageContents()
      modifies msg`requestUpdate
      ensures msg.requestUpdate == Some(UpdateNotRequested)
    {
      msg.requestUpdate := Some(UpdateNotRequested);
    }
  }

  /** A KeyUpdate that went through its own preparator and was then sent rekeys
      the record layer without rotating either traffic secret. */
  method SendPreparedKeyUpdate(handler: KeyUpdateHandler, preparator: KeyUpdatePreparator)
    returns (err: Option<Exception>)
    modifies handler.tlsContext, preparator.msg`requestUpdate
    ensures preparator.msg.requestUpdate == Some(UpdateNotRequested)
    ensures handler.tlsContext.clientApplicationTrafficSecret == old(handler.tlsContext.clientApplicationTrafficSecret)
    ensures handler.tlsContext.serverApplicationTrafficSecret == old(handler.tlsContext.serverApplicationTrafficSecret)
    ensures err.None? ==> handler.tlsContext.activeClientKeySetType == ApplicationTrafficSecrets
    ensures RecordLayerRekeyed(handler.schedule, handler.tlsContext, ApplicationTrafficSecrets, err)
  {
    preparator.PrepareHandshakeMessageContents();
    err := handler.AdjustTlsContextAfterSerialize(preparator.msg);
  }
}
