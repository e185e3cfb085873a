# TLS-Attacker core: KeyUpdate, Encrypted SNI, ECDHE ServerKeyExchange, OCSP status

A Dafny model of four pieces of the TLS-Attacker engine, together with proofs about them.

- **KeyUpdate** (`key_update.dfy`) models the TLS 1.3 KeyUpdate handler (section 4.6.3 of RFC 8446) over a connection context class.
  - After a KeyUpdate is sent, or before one from the peer is prepared, the handler rotates both application traffic secrets when an update is requested (section 7.2 of RFC 8446).
  - It then rebuilds the record cipher and resets exactly one direction's sequence number. The direction depends on whether the talking end is the local end.
  - The preparator always clears the request flag.
  - As in the source, both branches overwrite the LOCAL end's write key and IV.
- **Encrypted SNI** models the ESNI extension preparator (draft-ietf-tls-esni-02).
  - `esni_layout.dfy` holds its pure parts:
    - the permissive cipher-suite and named-group negotiation;
    - the "first matching entry, else entry 0" lookups;
    - the ESNIContents and ClientHello key-share byte layouts, with their parsers and round trips;
    - the AEAD tag length;
    - the shared-secret dispatch.
  - `esni_preparator.dfy` holds the preparator class: the CLIENT/SERVER mode choice and each setter step over the message, its key share and its computation object. The three phases are `prepareExtensionContent`, `afterPrepareExtensionContent` and `prepareAfterParse`.
- **ECDHE ServerKeyExchange** (sections 5.1.2 and 5.4 of RFC 8422) models the preparator.
  - `ecdhe_lists.dfy` states the point-format and named-group list construction on lists.
  - `ecdhe_preparator.dfy` covers:
    - the preparator class;
    - the precondition errors;
    - the one-shot retry when reading the domain parameters;
    - the named-group choice;
    - the signed-contents layout, with its parser;
    - the length fields;
    - the empty signature used when signing fails.
- **OCSP** (`ocsp.dfy`) models `CertificateStatus`. It reads a SingleResponse (section 4.2.1 of RFC 6960) from an abstract ASN.1 tree into status fields. The model also covers the one-time ASN.1 tool setup flag.

Shared modules:
- `wrappers.dfy` holds Option, Result and the Java exceptions as a datatype.
- `bytes.dfy` holds big-endian fixed-width integer fields.
- `tls_constants.dfy` holds the enum wire codes.
- `crypto.dfy` holds the suite-to-algorithm tables.
- `lists.dfy` holds the collect-then-`removeAll` list filtering.

Every Java exception is a returned `Option<Exception>` or `Result`. It is raised after the state changes that precede it in the source. A `null` field is `None`, and reading it is a NullPointerException. The cryptographic primitives, the key-set generator, the curve arithmetic, the signer and the ASN.1 and ECC helpers are function-valued parameters.

## Model

| member | source | states |
|---|---|---|
| KeyUpdate.KeyUpdateHandler.constructor | TLS-Core/src/main/java/de/rub/nds/tlsattacker/core/protocol/handler/KeyUpdateHandler.java:44-46 | The handler works on the given connection context and key schedule. |
| KeyUpdate.KeyUpdateHandler.AdjustTlsContext | TLS-Core/src/main/java/de/rub/nds/tlsattacker/core/protocol/handler/KeyUpdateHandler.java:48-51 | Receiving a KeyUpdate leaves the whole context unchanged. |
| KeyUpdate.KeyUpdateHandler.AdjustTlsContextAfterSerialize | TLS-Core/src/main/java/de/rub/nds/tlsattacker/core/protocol/handler/KeyUpdateHandler.java:53-61 | After sending: the secrets are rotated exactly when the flag is UPDATE_REQUESTED and are otherwise unchanged. The record layer is then rekeyed with APPLICATION_TRAFFIC_SECRETS. A failed rotation stops before the rekey, and its AdjustmentException is returned. |
| KeyUpdate.KeyUpdateHandler.GetPreparator | TLS-Core/src/main/java/de/rub/nds/tlsattacker/core/protocol/handler/KeyUpdateHandler.java:71-80 | When the talking end is the local end, no context field changes. Otherwise the handler rotates (only when requested) and rekeys, as after sending. A preparator for the same message is returned exactly when no exception was raised. |
| KeyUpdate.KeyUpdateHandler.RotateIfRequestedAndRekey | TLS-Core/src/main/java/de/rub/nds/tlsattacker/core/protocol/handler/KeyUpdateHandler.java:56-59 | The shared rotate-then-rekey step: the same outcome predicate as AdjustTlsContextAfterSerialize. |
| KeyUpdate.KeyUpdateHandler.AdjustApplicationTrafficSecrets | TLS-Core/src/main/java/de/rub/nds/tlsattacker/core/protocol/handler/KeyUpdateHandler.java:87-113 | On success each secret becomes HKDF-Expand-Label(old, "traffic upd", "", MAC length) of its own old value. A missing MAC or failed expansion gives AdjustmentException. If the server expansion fails, the client secret is already replaced and the server secret is kept. |
| KeyUpdate.KeyUpdateHandler.SetRecordCipher | TLS-Core/src/main/java/de/rub/nds/tlsattacker/core/protocol/handler/KeyUpdateHandler.java:127-209 | The active key-set type is always the requested one. On success the installed cipher wraps RekeyedKeySet. When the talking end is local, the write sequence number becomes 0 and the encryption cipher is updated, while the read side is untouched; otherwise the reverse holds. The generator's error is UnsupportedOperationException and an expansion error is AdjustmentException; on an error the record layer is unchanged. |
| KeyUpdate.KeyUpdateHandler.BuildKeySet | TLS-Core/src/main/java/de/rub/nds/tlsattacker/core/protocol/handler/KeyUpdateHandler.java:115-183 | The key set equals RekeyedKeySet over the context's suite, local end and secrets: the generated set with the local end's write key and IV re-derived, or the matching error. |
| KeyUpdate.KeyUpdateHandler.InstallRecordCipher | TLS-Core/src/main/java/de/rub/nds/tlsattacker/core/protocol/handler/KeyUpdateHandler.java:185-203 | Installs a cipher over the key set and the suite. It then resets the write side (sequence number 0, encryption cipher updated) when the talking end is local, else the read side. The other direction keeps its sequence number and cipher. |
| KeyUpdate.RekeyTestsPartition | TLS-Core/src/main/java/de/rub/nds/tlsattacker/core/protocol/handler/KeyUpdateHandler.java:137-140 | Of the two role tests the handler writes out, exactly one holds, and "talking is local" holds exactly when the two ends are equal. So exactly one reset branch runs (189-203). |
| KeyUpdate.RekeyedKeySetOverwritesLocalPair | TLS-Core/src/main/java/de/rub/nds/tlsattacker/core/protocol/handler/KeyUpdateHandler.java:129-182 | A successful rekey overwrites the LOCAL end's key and IV, whichever end is talking. The key and IV are expanded from the local secret with "key" and the suite's key size and with "iv" and 12 bytes. The peer's pair and the key-set type are the generator's. Lengths are exact when expansion keeps its length promise. |
| KeyUpdate.NextTrafficSecret | TLS-Core/src/main/java/de/rub/nds/tlsattacker/core/protocol/handler/KeyUpdateHandler.java:88-105 | Definition: HKDF-Expand-Label(secret, "traffic upd", "", MAC length) under the suite's HKDF, or nothing when the MAC length or the expansion is unavailable. AdjustApplicationTrafficSecrets is proved against it. |
| KeyUpdate.RekeyedKeySet | TLS-Core/src/main/java/de/rub/nds/tlsattacker/core/protocol/handler/KeyUpdateHandler.java:129-182 | Definition: the generated key set with the local end's write key and IV re-derived from the local secret. BuildKeySet is proved equal to it, and RekeyedKeySetOverwritesLocalPair states what it changes. |
| KeyUpdate.TlsContext.constructor | TLS-Core/src/main/java/de/rub/nds/tlsattacker/core/protocol/handler/KeyUpdateHandler.java:44-46 | A context with the given ends, suite and secrets; no key set active, both sequence numbers 0, and no cipher installed. |
| KeyUpdate.KeyUpdateMessage.constructor | TLS-Core/src/main/java/de/rub/nds/tlsattacker/core/protocol/preparator/KeyUpdatePreparator.java:23-26 | A message carrying the given request flag (or none). |
| KeyUpdate.KeyUpdatePreparator.constructor | TLS-Core/src/main/java/de/rub/nds/tlsattacker/core/protocol/preparator/KeyUpdatePreparator.java:23-26 | The preparator works on the given message. |
| KeyUpdate.KeyUpdatePreparator.PrepareHandshakeMessageContents | TLS-Core/src/main/java/de/rub/nds/tlsattacker/core/protocol/preparator/KeyUpdatePreparator.java:28-32 | The request flag becomes UPDATE_NOT_REQUESTED, whatever it was, and nothing else changes (the modifies clause names only that field). |
| KeyUpdate.SendPreparedKeyUpdate | TLS-Core/src/main/java/de/rub/nds/tlsattacker/core/protocol/preparator/KeyUpdatePreparator.java:30 | A KeyUpdate prepared by its own preparator and then sent (KeyUpdateHandler.java:53-61) leaves both traffic secrets unchanged. It still rekeys with APPLICATION_TRAFFIC_SECRETS: the same record-layer outcome as SetRecordCipher. |
| TlsConstants.NamedGroupValue | TLS-Core/src/main/java/de/rub/nds/tlsattacker/core/protocol/preparator/extension/EncryptedServerNameIndicationExtensionPreparator.java:241 | Every named group's wire code is two bytes. |
| TlsConstants.NamedGroupFromValue | TLS-Core/src/main/java/de/rub/nds/tlsattacker/core/protocol/preparator/extension/EncryptedServerNameIndicationExtensionPreparator.java:349 | A code read back names a group whose code it is. |
| TlsConstants.NamedGroupValueRoundTrip | TLS-Core/src/main/java/de/rub/nds/tlsattacker/core/protocol/preparator/extension/EncryptedServerNameIndicationExtensionPreparator.java:349 | Reading a group's own code back gives that group. |
| TlsConstants.CipherSuiteValue | TLS-Core/src/main/java/de/rub/nds/tlsattacker/core/protocol/preparator/extension/EncryptedServerNameIndicationExtensionPreparator.java:280 | Every cipher suite's wire code is two bytes. |
| TlsConstants.CipherSuiteFromValue | TLS-Core/src/main/java/de/rub/nds/tlsattacker/core/protocol/preparator/extension/EncryptedServerNameIndicationExtensionPreparator.java:294 | A code read back names a suite whose code it is. |
| TlsConstants.CipherSuiteValueRoundTrip | TLS-Core/src/main/java/de/rub/nds/tlsattacker/core/protocol/preparator/extension/EncryptedServerNameIndicationExtensionPreparator.java:280-294 | The suite written into the message is the suite read back from it. |
| TlsConstants.SignatureAndHashValue | TLS-Core/src/main/java/de/rub/nds/tlsattacker/core/protocol/preparator/ECDHEServerKeyExchangePreparator.java:233-234 | A signature-and-hash algorithm is two bytes on the wire. |
| Bytes.IntToBytes | TLS-Core/src/main/java/de/rub/nds/tlsattacker/core/protocol/preparator/extension/EncryptedServerNameIndicationExtensionPreparator.java:451-452 | A big-endian field of the requested width. |
| Bytes.BytesToIntOfIntToBytes | TLS-Core/src/main/java/de/rub/nds/tlsattacker/core/protocol/preparator/extension/EncryptedServerNameIndicationExtensionPreparator.java:451-452 | The value written into a fixed-width field reads back modulo 256 to the power of the width. |
| Bytes.IntToBytesExact | TLS-Core/src/main/java/de/rub/nds/tlsattacker/core/protocol/preparator/extension/EncryptedServerNameIndicationExtensionPreparator.java:451-452 | A value that fits the field reads back exactly. |
| Bytes.IntToBytesInjective | TLS-Core/src/main/java/de/rub/nds/tlsattacker/core/protocol/preparator/extension/EncryptedServerNameIndicationExtensionPreparator.java:451-452 | Two values that fit the field give different fields. |
| Lists.CollectMissing | TLS-Core/src/main/java/de/rub/nds/tlsattacker/core/protocol/preparator/ECDHEServerKeyExchangePreparator.java:150-159 | The loop collecting the entries of a list that another list lacks: the result is exactly those entries, in order. |
| Lists.DropUnsupportedKeepsSupported | TLS-Core/src/main/java/de/rub/nds/tlsattacker/core/protocol/preparator/ECDHEServerKeyExchangePreparator.java:150-161 | Collecting the unsupported entries and removing them keeps exactly the supported entries, in order. |
| Lists.KeepInAppend | TLS-Core/src/main/java/de/rub/nds/tlsattacker/core/protocol/preparator/ECDHEServerKeyExchangePreparator.java:154-158 | Filtering distributes over concatenation (the loop invariant of the collection). |
| Lists.DropInAppend | TLS-Core/src/main/java/de/rub/nds/tlsattacker/core/protocol/preparator/ECDHEServerKeyExchangePreparator.java:154-158 | Removal of entries distributes over concatenation. |
| Lists.DropInNothing | TLS-Core/src/main/java/de/rub/nds/tlsattacker/core/protocol/preparator/ECDHEServerKeyExchangePreparator.java:161 | Removing an empty list of entries changes nothing. |
| Lists.KeepIn | TLS-Core/src/main/java/de/rub/nds/tlsattacker/core/protocol/preparator/ECDHEServerKeyExchangePreparator.java:154-158 | The entries of a list that occur in another, in order: never longer, every entry occurs in both, and every entry of the list that occurs in the other is kept. |
| Lists.DropIn | TLS-Core/src/main/java/de/rub/nds/tlsattacker/core/protocol/preparator/ECDHEServerKeyExchangePreparator.java:161 | What removeAll leaves: never longer, no entry occurs in the removed list, and every entry not removed is kept. |
| Crypto.HkdfAlgorithmOf | TLS-Core/src/main/java/de/rub/nds/tlsattacker/core/protocol/handler/KeyUpdateHandler.java:88-89 | Definition: the HKDF of a TLS 1.3 suite, SHA-384 for TLS_AES_256_GCM_SHA384 and SHA-256 for the other suites (RFC 8446, appendix B.4). |
| Crypto.DigestAlgorithmOf | TLS-Core/src/main/java/de/rub/nds/tlsattacker/core/protocol/preparator/extension/EncryptedServerNameIndicationExtensionPreparator.java:295 | Definition: the TLS 1.3 digest of a suite, matching HkdfAlgorithmOf. |
| Crypto.CipherKeySize | TLS-Core/src/main/java/de/rub/nds/tlsattacker/core/protocol/preparator/extension/EncryptedServerNameIndicationExtensionPreparator.java:402 | Definition: the AEAD key size of a suite, 32 bytes for AES-256-GCM and ChaCha20-Poly1305 and 16 for the AES-128 suites. |
| EcdheLists.PointFormatListSpec | TLS-Core/src/main/java/de/rub/nds/tlsattacker/core/protocol/preparator/ECDHEServerKeyExchangePreparator.java:142-164 | With enforced settings the list is the server's formats, or the defaults when the server has none. Without enforced settings it is exactly those starting formats the client lists, in order, or the defaults when none is left. |
| EcdheLists.PointFormatListBounds | TLS-Core/src/main/java/de/rub/nds/tlsattacker/core/protocol/preparator/ECDHEServerKeyExchangePreparator.java:142-164 | With non-empty defaults the list is never empty, and every format in it is a starting format or a default. |
| EcdheLists.PointFormatListClientSupported | TLS-Core/src/main/java/de/rub/nds/tlsattacker/core/protocol/preparator/ECDHEServerKeyExchangePreparator.java:152-164 | Without enforced settings, a list other than the defaults holds only formats the client supports. |
| EcdheLists.AsWrittenAgreesWithServerFormats | TLS-Core/src/main/java/de/rub/nds/tlsattacker/core/protocol/preparator/ECDHEServerKeyExchangePreparator.java:142-164 | When the server lists formats, the code as written and the corrected list agree, and the configured defaults are left alone. |
| EcdheLists.AsWrittenEmptiesDefaults | TLS-Core/src/main/java/de/rub/nds/tlsattacker/core/protocol/preparator/ECDHEServerKeyExchangePreparator.java:145-163 | The counterexample: no server formats, defaults [UNCOMPRESSED], a client listing none. As written, the configured defaults are emptied and the stored list is empty; the corrected list is [UNCOMPRESSED]. |
| EcdheLists.NamedGroupListSpec | TLS-Core/src/main/java/de/rub/nds/tlsattacker/core/protocol/preparator/ECDHEServerKeyExchangePreparator.java:173-193 | Without enforced settings the client's groups are used unchanged. With enforced settings the list is exactly the client groups the server supports, in order. If none is supported, it is the local end's default list (client defaults for a CLIENT end, server defaults otherwise). |
| EcdheLists.PointFormatList | TLS-Core/src/main/java/de/rub/nds/tlsattacker/core/protocol/preparator/ECDHEServerKeyExchangePreparator.java:142-164 | Definition of the corrected point-format list: the starting formats (the server's, or the defaults when it has none), filtered by the client unless settings are enforced, else the defaults. PointFormatListSpec, PointFormatListBounds and PointFormatListClientSupported are proved about it. |
| EcdheLists.StartFormats | TLS-Core/src/main/java/de/rub/nds/tlsattacker/core/protocol/preparator/ECDHEServerKeyExchangePreparator.java:145-150 | Definition of the starting formats: the server's own, else the configured defaults. PointFormatList starts from it, and PointFormatListSpec and PointFormatListBounds are stated through it. |
| EcdheLists.PointFormatListAsWritten | TLS-Core/src/main/java/de/rub/nds/tlsattacker/core/protocol/preparator/ECDHEServerKeyExchangePreparator.java:145-163 | Definition of the code as written, which also returns the configured defaults after removeAll has run on them. AsWrittenAgreesWithServerFormats and AsWrittenEmptiesDefaults are proved about it. |
| EcdheLists.NamedGroupList | TLS-Core/src/main/java/de/rub/nds/tlsattacker/core/protocol/preparator/ECDHEServerKeyExchangePreparator.java:173-193 | Definition of the negotiated named-group list. NamedGroupListSpec is proved about it. |
| EcdhePreparator.GroupsOrDefault | TLS-Core/src/main/java/de/rub/nds/tlsattacker/core/protocol/preparator/ECDHEServerKeyExchangePreparator.java:107-113 | A named-group list that does not deserialize stands for the configured default group alone; one that does gives its groups. |
| EcdhePreparator.FormatsOrUncompressed | TLS-Core/src/main/java/de/rub/nds/tlsattacker/core/protocol/preparator/ECDHEServerKeyExchangePreparator.java:114-120 | A point-format list that does not deserialize stands for UNCOMPRESSED alone. |
| EcdhePreparator.SignatureContentsRoundTrip | TLS-Core/src/main/java/de/rub/nds/tlsattacker/core/protocol/preparator/ECDHEServerKeyExchangePreparator.java:201-227 | For a point shorter than 256 bytes, the signed contents split back at known offsets. The pieces are client random || server random, NAMED_CURVE, the 2-byte named group, the 1-byte point length and the point. |
| EcdhePreparator.SignatureContentsLengthByte | TLS-Core/src/main/java/de/rub/nds/tlsattacker/core/protocol/preparator/ECDHEServerKeyExchangePreparator.java:217 | The length byte is the point length modulo 256, because `write(int)` keeps only the low byte. The contents are 4 bytes longer than random plus point. |
| EcdhePreparator.SignatureContents | TLS-Core/src/main/java/de/rub/nds/tlsattacker/core/protocol/preparator/ECDHEServerKeyExchangePreparator.java:201-227 | Definition of the signed contents: client and server random, NAMED_CURVE, the named group, the low byte of the point length, and the point. SignatureContentsRoundTrip and SignatureContentsLengthByte are proved about it. |
| EcdhePreparator.EcdheServerKeyExchangeMessage.constructor | TLS-Core/src/main/java/de/rub/nds/tlsattacker/core/protocol/preparator/ECDHEServerKeyExchangePreparator.java:47-50 | A message with every field unset. |
| EcdhePreparator.EcdheServerKeyExchangeMessage.PrepareComputations | TLS-Core/src/main/java/de/rub/nds/tlsattacker/core/protocol/preparator/ECDHEServerKeyExchangePreparator.java:77 | Creates the computations only when they are missing. |
| EcdhePreparator.ECDHEServerKeyExchangePreparator.constructor | TLS-Core/src/main/java/de/rub/nds/tlsattacker/core/protocol/preparator/ECDHEServerKeyExchangePreparator.java:47-50 | No key pair exists yet. |
| EcdhePreparator.ECDHEServerKeyExchangePreparator.GenerateNamedGroupList | TLS-Core/src/main/java/de/rub/nds/tlsattacker/core/protocol/preparator/ECDHEServerKeyExchangePreparator.java:173-199 | Stores the negotiated group list (NamedGroupList) in the computations. Missing computations give a NullPointerException and no change. |
| EcdhePreparator.ECDHEServerKeyExchangePreparator.GeneratePointFormatList | TLS-Core/src/main/java/de/rub/nds/tlsattacker/core/protocol/preparator/ECDHEServerKeyExchangePreparator.java:142-171 | Stores the corrected point-format list (PointFormatList) in the computations. Missing computations give a NullPointerException and no change. |
| EcdhePreparator.ECDHEServerKeyExchangePreparator.PrepareCurveType | TLS-Core/src/main/java/de/rub/nds/tlsattacker/core/protocol/preparator/ECDHEServerKeyExchangePreparator.java:278-280 | The curve type is always NAMED_CURVE. |
| EcdhePreparator.ECDHEServerKeyExchangePreparator.PrepareNamedGroup | TLS-Core/src/main/java/de/rub/nds/tlsattacker/core/protocol/preparator/ECDHEServerKeyExchangePreparator.java:282-291 | The named group is the first group of the list, or the configured default when the list does not deserialize. An empty list raises IndexOutOfBounds, and missing computations or a missing list raise a NullPointerException. |
| EcdhePreparator.ECDHEServerKeyExchangePreparator.GenerateEcParameters | TLS-Core/src/main/java/de/rub/nds/tlsattacker/core/protocol/preparator/ECDHEServerKeyExchangePreparator.java:91-140 | Missing computations, group list or format list each give their own PreparationException. A read of NAMED_CURVE-type||group that succeeds is returned. An IO failure is retried once with NAMED_CURVE || groups[0]; if that retry fails too, the result is PreparationException("Failed to generate EC domain parameters"). |
| EcdhePreparator.ECDHEServerKeyExchangePreparator.SetEcDhParams | TLS-Core/src/main/java/de/rub/nds/tlsattacker/core/protocol/preparator/ECDHEServerKeyExchangePreparator.java:76-89 | Computations exist, both lists are stored, the curve type is NAMED_CURVE and the named group is the first group. It succeeds exactly when the groups are non-empty and the read succeeds, and then the key pair is the one drawn for the parameters read. An empty group list or an index failure gives IndexOutOfBounds, and an IO failure gives the domain-parameters PreparationException. On every failure the key pair is kept. |
| EcdhePreparator.ECDHEServerKeyExchangePreparator.PreparePrivateKey | TLS-Core/src/main/java/de/rub/nds/tlsattacker/core/protocol/preparator/ECDHEServerKeyExchangePreparator.java:293-296 | The private scalar goes into the computations; missing computations or key give a NullPointerException. |
| EcdhePreparator.ECDHEServerKeyExchangePreparator.PrepareSerializedPublicKey | TLS-Core/src/main/java/de/rub/nds/tlsattacker/core/protocol/preparator/ECDHEServerKeyExchangePreparator.java:256-271 | The public point serialized in the stored formats. A list that does not deserialize, or a serializer failure, gives the matching PreparationException. |
| EcdhePreparator.ECDHEServerKeyExchangePreparator.PrepareSerializedPublicKeyLength | TLS-Core/src/main/java/de/rub/nds/tlsattacker/core/protocol/preparator/ECDHEServerKeyExchangePreparator.java:273-276 | The public key length is the length of the serialized point. |
| EcdhePreparator.ECDHEServerKeyExchangePreparator.PrepareClientServerRandom | TLS-Core/src/main/java/de/rub/nds/tlsattacker/core/protocol/preparator/ECDHEServerKeyExchangePreparator.java:239-244 | The computations hold client random followed by server random. |
| EcdhePreparator.ECDHEServerKeyExchangePreparator.PrepareEcDhParams | TLS-Core/src/main/java/de/rub/nds/tlsattacker/core/protocol/preparator/ECDHEServerKeyExchangePreparator.java:69-74 | Once the key pair and formats exist: the private key, the serialized point with its length, and the randoms, or the serializer's PreparationException. |
| EcdhePreparator.ECDHEServerKeyExchangePreparator.GenerateSignatureContents | TLS-Core/src/main/java/de/rub/nds/tlsattacker/core/protocol/preparator/ECDHEServerKeyExchangePreparator.java:201-227 | Explicit curves are rejected with UnsupportedOperationException. Otherwise the contents are exactly SignatureContents(random, named group, length, point), or a NullPointerException when a field is missing. |
| EcdhePreparator.ECDHEServerKeyExchangePreparator.GenerateSignature | TLS-Core/src/main/java/de/rub/nds/tlsattacker/core/protocol/preparator/ECDHEServerKeyExchangePreparator.java:229-231 | The signer's output over exactly those contents, or the contents' error. |
| EcdhePreparator.ECDHEServerKeyExchangePreparator.PrepareSignatureAndHashAlgorithm | TLS-Core/src/main/java/de/rub/nds/tlsattacker/core/protocol/preparator/ECDHEServerKeyExchangePreparator.java:233-237 | The message carries the chosen algorithm's two-byte code. |
| EcdhePreparator.ECDHEServerKeyExchangePreparator.PrepareSignature | TLS-Core/src/main/java/de/rub/nds/tlsattacker/core/protocol/preparator/ECDHEServerKeyExchangePreparator.java:246-249 | The message carries the given signature. |
| EcdhePreparator.ECDHEServerKeyExchangePreparator.PrepareSignatureLength | TLS-Core/src/main/java/de/rub/nds/tlsattacker/core/protocol/preparator/ECDHEServerKeyExchangePreparator.java:251-254 | The signature length is the signature's length. |
| EcdhePreparator.ECDHEServerKeyExchangePreparator.PipelineContentsRoundTrip | TLS-Core/src/main/java/de/rub/nds/tlsattacker/core/protocol/preparator/ECDHEServerKeyExchangePreparator.java:201-244 | What the full preparation signs splits back into the randoms, NAMED_CURVE, the first negotiated group and the point. |
| EcdhePreparator.ECDHEServerKeyExchangePreparator.PrepareSignedParameters | TLS-Core/src/main/java/de/rub/nds/tlsattacker/core/protocol/preparator/ECDHEServerKeyExchangePreparator.java:55-66 | After the key exchange parameters: the algorithm, the signature (EMPTY when the signer fails, with no exception) and its length. Explicit curves raise UnsupportedOperationException. |
| EcdhePreparator.ECDHEServerKeyExchangePreparator.PrepareHandshakeMessageContents | TLS-Core/src/main/java/de/rub/nds/tlsattacker/core/protocol/preparator/ECDHEServerKeyExchangePreparator.java:52-67 | The whole preparation, case by case: the empty-group and index failures, the domain-parameter failure and the serializer failure. On success: NAMED_CURVE, the first negotiated group, the point with its length, the algorithm, and the signature over the pipeline's contents (empty on signer failure) with its length. |
| EsniLayout.TagBitLength | TLS-Core/src/main/java/de/rub/nds/tlsattacker/core/protocol/preparator/extension/EncryptedServerNameIndicationExtensionPreparator.java:475-480 | 64 bits for the CCM_8 suites and 128 bits for every other suite (the same rule as 503-508). |
| EsniLayout.PreferredFromSpec | TLS-Core/src/main/java/de/rub/nds/tlsattacker/core/protocol/preparator/extension/EncryptedServerNameIndicationExtensionPreparator.java:263-278 | From any implemented start, the negotiation picks an implemented entry. It reports sharing exactly when some remaining client entry is implemented and server-supported. A shared pick is listed by both sides. With no implemented client entry, the start is kept. |
| EsniLayout.PreferredSpec | TLS-Core/src/main/java/de/rub/nds/tlsattacker/core/protocol/preparator/extension/EncryptedServerNameIndicationExtensionPreparator.java:227-278 | The negotiation always picks an implemented entry. It reports sharing exactly when some client entry is implemented and server-supported, and a shared pick is listed by both sides. With no implemented client entry, it picks implemented[0], unshared. |
| EsniLayout.PreferredFromFirstShared | TLS-Core/src/main/java/de/rub/nds/tlsattacker/core/protocol/preparator/extension/EncryptedServerNameIndicationExtensionPreparator.java:268-275 | The first shared client entry ends the search, from any start. |
| EsniLayout.PreferredFirstShared | TLS-Core/src/main/java/de/rub/nds/tlsattacker/core/protocol/preparator/extension/EncryptedServerNameIndicationExtensionPreparator.java:235-275 | The first client entry that is implemented and server-supported is chosen, reported shared. |
| EsniLayout.PreferredFromLastImplemented | TLS-Core/src/main/java/de/rub/nds/tlsattacker/core/protocol/preparator/extension/EncryptedServerNameIndicationExtensionPreparator.java:268-275 | With nothing shared, the last implemented client entry is the pick, from any start. |
| EsniLayout.PreferredLastImplemented | TLS-Core/src/main/java/de/rub/nds/tlsattacker/core/protocol/preparator/extension/EncryptedServerNameIndicationExtensionPreparator.java:235-275 | With nothing shared, the last implemented client entry is chosen, reported unshared. |
| EsniLayout.PreferredFrom | TLS-Core/src/main/java/de/rub/nds/tlsattacker/core/protocol/preparator/extension/EncryptedServerNameIndicationExtensionPreparator.java:263-278 | Definition of the negotiation loop over the client entries still to examine. PreferredFromSpec, PreferredFromFirstShared and PreferredFromLastImplemented are proved about it. |
| EsniLayout.Preferred | TLS-Core/src/main/java/de/rub/nds/tlsattacker/core/protocol/preparator/extension/EncryptedServerNameIndicationExtensionPreparator.java:227-278 | Definition of the negotiation over the whole client list, starting from the first implemented entry. PreferredSpec, PreferredFirstShared and PreferredLastImplemented are proved about it, and SelectPreferred computes it. |
| EsniLayout.SelectPreferred | TLS-Core/src/main/java/de/rub/nds/tlsattacker/core/protocol/preparator/extension/EncryptedServerNameIndicationExtensionPreparator.java:233-276 | The negotiation loop with its break computes Preferred: selection and found flag. |
| EsniLayout.NegotiatedGroupComputable | TLS-Core/src/main/java/de/rub/nds/tlsattacker/core/protocol/preparator/extension/EncryptedServerNameIndicationExtensionPreparator.java:553-567 | The negotiated named group is always implemented, so computing its shared secret never raises UnsupportedOperationException. It can fail only for SECP256R1, and then with the point decoder's own error. |
| EsniLayout.FirstIndexOf | TLS-Core/src/main/java/de/rub/nds/tlsattacker/core/protocol/preparator/extension/EncryptedServerNameIndicationExtensionPreparator.java:216-221 | The index of the first equal entry, or the length when there is none. |
| EsniLayout.MatchOrFirst | TLS-Core/src/main/java/de/rub/nds/tlsattacker/core/protocol/preparator/extension/EncryptedServerNameIndicationExtensionPreparator.java:214-221 | The first entry equal to the target, else entry 0. |
| EsniLayout.FirstMatchOrFirst | TLS-Core/src/main/java/de/rub/nds/tlsattacker/core/protocol/preparator/extension/EncryptedServerNameIndicationExtensionPreparator.java:215-221 | The lookup loop with its break computes MatchOrFirst. |
| EsniLayout.KeyShareEntryBytes | TLS-Core/src/main/java/de/rub/nds/tlsattacker/core/protocol/preparator/extension/EncryptedServerNameIndicationExtensionPreparator.java:437-443 | A serialized key-share entry is 4 bytes longer than its key. |
| EsniLayout.KeyShareListBytes | TLS-Core/src/main/java/de/rub/nds/tlsattacker/core/protocol/preparator/extension/EncryptedServerNameIndicationExtensionPreparator.java:436-448 | Definition of the serialized key-share list: the entries' bytes concatenated in order. KeyShareListBytesAppend and KeyShareListRoundTrip are proved about it. |
| EsniLayout.ClientHelloKeyShareBytes | TLS-Core/src/main/java/de/rub/nds/tlsattacker/core/protocol/preparator/extension/EncryptedServerNameIndicationExtensionPreparator.java:432-462 | Definition of the ESNI AAD: the key-share list with its 2-byte length in front. BuildClientHelloKeyShare computes it, and ClientHelloKeyShareRoundTrip proves it reads back. |
| EsniLayout.KeyShareListBytesAppend | TLS-Core/src/main/java/de/rub/nds/tlsattacker/core/protocol/preparator/extension/EncryptedServerNameIndicationExtensionPreparator.java:436-448 | Serializing one more entry appends its bytes to the stream. |
| EsniLayout.BuildClientHelloKeyShare | TLS-Core/src/main/java/de/rub/nds/tlsattacker/core/protocol/preparator/extension/EncryptedServerNameIndicationExtensionPreparator.java:432-462 | The serialization loop followed by the length prefix computes ClientHelloKeyShareBytes. |
| EsniLayout.RawShares | TLS-Core/src/main/java/de/rub/nds/tlsattacker/core/protocol/preparator/extension/EncryptedServerNameIndicationExtensionPreparator.java:439-441 | One wire entry per store entry. |
| EsniLayout.KeyShareListRoundTrip | TLS-Core/src/main/java/de/rub/nds/tlsattacker/core/protocol/preparator/extension/EncryptedServerNameIndicationExtensionPreparator.java:436-449 | When every key fits its 2-byte length, the concatenated entries read back to the store's groups and keys. |
| EsniLayout.ClientHelloKeyShareRoundTrip | TLS-Core/src/main/java/de/rub/nds/tlsattacker/core/protocol/preparator/extension/EncryptedServerNameIndicationExtensionPreparator.java:449-461 | The 2-byte prefix of the AAD is the byte length of the concatenated entries, and the entries read back. This holds when both the keys and the list fit their fields. |
| EsniLayout.EsniContents | TLS-Core/src/main/java/de/rub/nds/tlsattacker/core/protocol/preparator/extension/EncryptedServerNameIndicationExtensionPreparator.java:536-551 | ESNIContents is exactly 2 + |digest| + |group| + 2 + |key| + |random| bytes. |
| EsniLayout.EsniContentsRoundTrip | TLS-Core/src/main/java/de/rub/nds/tlsattacker/core/protocol/preparator/extension/EncryptedServerNameIndicationExtensionPreparator.java:536-551 | With the written lengths equal to the digest and key lengths, ESNIContents splits back into digest, group, key and ClientHello random. |
| EsniLayout.ComputeSharedSecret | TLS-Core/src/main/java/de/rub/nds/tlsattacker/core/protocol/preparator/extension/EncryptedServerNameIndicationExtensionPreparator.java:553-567 | It succeeds exactly for X25519, X448 and a SECP256R1 key the point decoder accepts. X25519 and X448 go to their own curves. SECP256R1 yields the shared x-coordinate as exactly 32 bytes (the modulus length), zero-padded, or the decoder's error. A null group is a NullPointerException, and every other group raises UnsupportedOperationException("<group> is unsupported"). |
| EsniPreparator.ResolveSuite | TLS-Core/src/main/java/de/rub/nds/tlsattacker/core/protocol/preparator/extension/EncryptedServerNameIndicationExtensionPreparator.java:294 | The suite field resolves exactly when it is set and names a suite, and the resolved suite's code is the field. Otherwise the result is a NullPointerException at first use. |
| EsniPreparator.ResolveSuiteOfValue | TLS-Core/src/main/java/de/rub/nds/tlsattacker/core/protocol/preparator/extension/EncryptedServerNameIndicationExtensionPreparator.java:280-294 | The suite written by prepareCipherSuite resolves back to itself. |
| EsniPreparator.MapMissingParameters | TLS-Core/src/main/java/de/rub/nds/tlsattacker/core/protocol/preparator/extension/EncryptedServerNameIndicationExtensionPreparator.java:181-184 | A NullPointerException becomes the "Missing parameters" PreparationException, and no other exception changes. |
| EsniPreparator.EsniKeySchedule | TLS-Core/src/main/java/de/rub/nds/tlsattacker/core/protocol/preparator/extension/EncryptedServerNameIndicationExtensionPreparator.java:379-430 | The master secret, key and IV in the order of the three steps. A missing shared secret, suite or hash gives a NullPointerException. It succeeds exactly when extract and both expansions return values, and then holds those values. Otherwise the error is the first failing step's PreparationException. With expansion keeping its length promise, the key is the suite's key size and the IV 12 bytes. |
| EsniPreparator.ServerGroups | TLS-Core/src/main/java/de/rub/nds/tlsattacker/core/protocol/preparator/extension/EncryptedServerNameIndicationExtensionPreparator.java:229-231 | The groups of the server's key shares, one per entry and in order. |
| EsniPreparator.ServerGroupsAppend | TLS-Core/src/main/java/de/rub/nds/tlsattacker/core/protocol/preparator/extension/EncryptedServerNameIndicationExtensionPreparator.java:230-231 | The collecting loop appends one group per entry. |
| EsniPreparator.EntryGroupValues | TLS-Core/src/main/java/de/rub/nds/tlsattacker/core/protocol/preparator/extension/EncryptedServerNameIndicationExtensionPreparator.java:216-217 | The wire codes of the key-share groups, one per entry. |
| EsniPreparator.KeyShareEntry.constructor | TLS-Core/src/main/java/de/rub/nds/tlsattacker/core/protocol/preparator/extension/EncryptedServerNameIndicationExtensionPreparator.java:253-256 | A key-share entry with every field unset. |
| EsniPreparator.EncryptedSniComputation.constructor | TLS-Core/src/main/java/de/rub/nds/tlsattacker/core/protocol/preparator/extension/EncryptedServerNameIndicationExtensionPreparator.java:222 | A computation object with every field unset. |
| EsniPreparator.EsniExtensionMessage.constructor | TLS-Core/src/main/java/de/rub/nds/tlsattacker/core/protocol/preparator/extension/EncryptedServerNameIndicationExtensionPreparator.java:83-87 | A message with the given inner structure, fresh sub-objects and every other field unset. |
| EsniPreparator.EncryptedServerNameIndicationExtensionPreparator.constructor | TLS-Core/src/main/java/de/rub/nds/tlsattacker/core/protocol/preparator/extension/EncryptedServerNameIndicationExtensionPreparator.java:83-108 | The mode is CLIENT exactly when the inner server-name list is non-empty or a server nonce is set, and SERVER otherwise. The stream starts empty. |
| EsniPreparator.EncryptedServerNameIndicationExtensionPreparator.SetClientHelloMessage | TLS-Core/src/main/java/de/rub/nds/tlsattacker/core/protocol/preparator/extension/EncryptedServerNameIndicationExtensionPreparator.java:114-116 | Stores the ClientHello whose random is used. |
| EsniPreparator.EncryptedServerNameIndicationExtensionPreparator.SetEsniPreparatorMode | TLS-Core/src/main/java/de/rub/nds/tlsattacker/core/protocol/preparator/extension/EncryptedServerNameIndicationExtensionPreparator.java:574-576 | Sets the mode. |
| EsniPreparator.EncryptedServerNameIndicationExtensionPreparator.PrepareClientEsniInner | TLS-Core/src/main/java/de/rub/nds/tlsattacker/core/protocol/preparator/extension/EncryptedServerNameIndicationExtensionPreparator.java:188-200 | The inner structure is prepared. Its serialization is APPENDED to the never-reset stream, and the inner bytes are the whole stream. |
| EsniPreparator.EncryptedServerNameIndicationExtensionPreparator.PrepareClientEsniInnerBytes | TLS-Core/src/main/java/de/rub/nds/tlsattacker/core/protocol/preparator/extension/EncryptedServerNameIndicationExtensionPreparator.java:202-206 | The inner bytes are the whole stream. |
| EsniPreparator.EncryptedServerNameIndicationExtensionPreparator.PrepareCipherSuite | TLS-Core/src/main/java/de/rub/nds/tlsattacker/core/protocol/preparator/extension/EncryptedServerNameIndicationExtensionPreparator.java:263-282 | The message's suite is the code of the negotiated suite (Preferred over the implemented suites). |
| EsniPreparator.EncryptedServerNameIndicationExtensionPreparator.PrepareNamedGroup | TLS-Core/src/main/java/de/rub/nds/tlsattacker/core/protocol/preparator/extension/EncryptedServerNameIndicationExtensionPreparator.java:227-251 | The key share's group is the negotiated group over the groups of the server's key shares. |
| EsniPreparator.EncryptedServerNameIndicationExtensionPreparator.PrepareKeyShareEntry | TLS-Core/src/main/java/de/rub/nds/tlsattacker/core/protocol/preparator/extension/EncryptedServerNameIndicationExtensionPreparator.java:253-261 | The group code, private key, public key and key length of the chosen group, or a NullPointerException when no group was chosen. |
| EsniPreparator.EncryptedServerNameIndicationExtensionPreparator.PrepareEsniServerPublicKey | TLS-Core/src/main/java/de/rub/nds/tlsattacker/core/protocol/preparator/extension/EncryptedServerNameIndicationExtensionPreparator.java:214-225 | The public key of the first server entry whose group equals the chosen one, else of entry 0. No entries at all gives IndexOutOfBounds, and an unset group gives a NullPointerException. |
| EsniPreparator.EncryptedServerNameIndicationExtensionPreparator.PrepareEsniRecordBytes | TLS-Core/src/main/java/de/rub/nds/tlsattacker/core/protocol/preparator/extension/EncryptedServerNameIndicationExtensionPreparator.java:284-289 | The record bytes are the chooser's. |
| EsniPreparator.EncryptedServerNameIndicationExtensionPreparator.PrepareRecordDigest | TLS-Core/src/main/java/de/rub/nds/tlsattacker/core/protocol/preparator/extension/EncryptedServerNameIndicationExtensionPreparator.java:291-306 | A missing record or suite gives a NullPointerException. With both present, the step succeeds exactly when the suite's digest returns a value, and the record digest is that value. A failing digest gives PreparationException("Could not prepare recordDigest") and leaves the field alone. |
| EsniPreparator.EncryptedServerNameIndicationExtensionPreparator.PrepareRecordDigestLength | TLS-Core/src/main/java/de/rub/nds/tlsattacker/core/protocol/preparator/extension/EncryptedServerNameIndicationExtensionPreparator.java:308-311 | The record-digest length is the digest's length. |
| EsniPreparator.EncryptedServerNameIndicationExtensionPreparator.ClientRandom | TLS-Core/src/main/java/de/rub/nds/tlsattacker/core/protocol/preparator/extension/EncryptedServerNameIndicationExtensionPreparator.java:313-318 | The ClientHello's random when a ClientHello is set (a NullPointerException when its random is unset), otherwise the chooser's random. |
| EsniPreparator.EncryptedServerNameIndicationExtensionPreparator.PrepareClientRandom | TLS-Core/src/main/java/de/rub/nds/tlsattacker/core/protocol/preparator/extension/EncryptedServerNameIndicationExtensionPreparator.java:313-321 | The computation's random is ClientRandom; it fails exactly when ClientRandom does. |
| EsniPreparator.EncryptedServerNameIndicationExtensionPreparator.PrepareEsniContents | TLS-Core/src/main/java/de/rub/nds/tlsattacker/core/protocol/preparator/extension/EncryptedServerNameIndicationExtensionPreparator.java:323-328 | ESNIContents over the current digest length, digest, group, key length, key and random. It fails exactly when one of them is unset. |
| EsniPreparator.EncryptedServerNameIndicationExtensionPreparator.PrepareEsniContentsHash | TLS-Core/src/main/java/de/rub/nds/tlsattacker/core/protocol/preparator/extension/EncryptedServerNameIndicationExtensionPreparator.java:330-346 | A missing contents field or suite gives a NullPointerException. With both present, the step succeeds exactly when the suite's digest of ESNIContents returns a value, and the hash is that value. A failing digest gives PreparationException("Could not prepare esniContentsHash"). |
| EsniPreparator.EncryptedServerNameIndicationExtensionPreparator.ClientSharedSecret | TLS-Core/src/main/java/de/rub/nds/tlsattacker/core/protocol/preparator/extension/EncryptedServerNameIndicationExtensionPreparator.java:348-356 | A missing group, private key or server public key gives a NullPointerException. Otherwise it is computeSharedSecret on the group the key share's code names. |
| EsniPreparator.EncryptedServerNameIndicationExtensionPreparator.ServerSharedSecret | TLS-Core/src/main/java/de/rub/nds/tlsattacker/core/protocol/preparator/extension/EncryptedServerNameIndicationExtensionPreparator.java:358-377 | An unset group gives a NullPointerException, and no configured pairs first gives IndexOutOfBounds. An unknown group code or a missing client key gives a NullPointerException. Otherwise it is computeSharedSecret with the private key of the first pair with that group, else of pair 0. |
| EsniPreparator.EncryptedServerNameIndicationExtensionPreparator.PrepareEsniClientSharedSecret | TLS-Core/src/main/java/de/rub/nds/tlsattacker/core/protocol/preparator/extension/EncryptedServerNameIndicationExtensionPreparator.java:348-356 | It succeeds exactly when ClientSharedSecret does: the client's private key against the server's public key, on the key share's group. On success the computation holds that secret. On failure it reports ClientSharedSecret's exception and leaves the field alone. |
| EsniPreparator.EncryptedServerNameIndicationExtensionPreparator.PrepareEsniServerSharedSecret | TLS-Core/src/main/java/de/rub/nds/tlsattacker/core/protocol/preparator/extension/EncryptedServerNameIndicationExtensionPreparator.java:358-377 | It succeeds exactly when ServerSharedSecret does: the private key of the first configured pair with the key share's group, else of pair 0, against the client's public key. On failure it reports that exception (IndexOutOfBounds when there are no pairs) and leaves the field alone. |
| EsniPreparator.EncryptedServerNameIndicationExtensionPreparator.PrepareEsniMasterSecret | TLS-Core/src/main/java/de/rub/nds/tlsattacker/core/protocol/preparator/extension/EncryptedServerNameIndicationExtensionPreparator.java:379-394 | A missing shared secret or suite gives a NullPointerException. Otherwise it succeeds exactly when HKDF-Extract under the suite's HKDF returns a value, and the master secret is that value. A failing extract gives PreparationException("Could not prepare esniMasterSecret"). |
| EsniPreparator.EncryptedServerNameIndicationExtensionPreparator.PrepareEsniKey | TLS-Core/src/main/java/de/rub/nds/tlsattacker/core/protocol/preparator/extension/EncryptedServerNameIndicationExtensionPreparator.java:396-412 | A missing input gives a NullPointerException. Otherwise it succeeds exactly when HKDF-Expand-Label(master, "esni key", contents hash, the suite's key size) returns a value, and the key is that value. A failing expansion gives PreparationException("Could not prepare esniKey"). |
| EsniPreparator.EncryptedServerNameIndicationExtensionPreparator.PrepareEsniIv | TLS-Core/src/main/java/de/rub/nds/tlsattacker/core/protocol/preparator/extension/EncryptedServerNameIndicationExtensionPreparator.java:414-430 | A missing input gives a NullPointerException. Otherwise it succeeds exactly when HKDF-Expand-Label(master, "esni iv", contents hash, 12) returns a value, and the IV is that value. A failing expansion gives PreparationException("Could not prepare esniIv"). The IV is 12 bytes when expansion keeps its length promise. |
| EsniPreparator.EncryptedServerNameIndicationExtensionPreparator.PrepareClientHelloKeyShare | TLS-Core/src/main/java/de/rub/nds/tlsattacker/core/protocol/preparator/extension/EncryptedServerNameIndicationExtensionPreparator.java:432-465 | The AAD is ClientHelloKeyShareBytes of the chooser's client key shares. |
| EsniPreparator.EncryptedServerNameIndicationExtensionPreparator.PrepareEncryptedSni | TLS-Core/src/main/java/de/rub/nds/tlsattacker/core/protocol/preparator/extension/EncryptedServerNameIndicationExtensionPreparator.java:467-493 | The AEAD encryption of the inner bytes with the ESNI key and IV, the suite's tag length and the key-share AAD. Missing inputs give a NullPointerException. |
| EsniPreparator.EncryptedServerNameIndicationExtensionPreparator.ParseEncryptedSni | TLS-Core/src/main/java/de/rub/nds/tlsattacker/core/protocol/preparator/extension/EncryptedServerNameIndicationExtensionPreparator.java:495-523 | The inner bytes are the AEAD decryption of the received ciphertext, with the same key, IV, tag length and AAD. |
| EsniPreparator.EncryptedServerNameIndicationExtensionPreparator.PrepareEncryptedSniLength | TLS-Core/src/main/java/de/rub/nds/tlsattacker/core/protocol/preparator/extension/EncryptedServerNameIndicationExtensionPreparator.java:525-528 | The encrypted-SNI length is the ciphertext's length. |
| EsniPreparator.EncryptedServerNameIndicationExtensionPreparator.ParseClientEsniInnerBytes | TLS-Core/src/main/java/de/rub/nds/tlsattacker/core/protocol/preparator/extension/EncryptedServerNameIndicationExtensionPreparator.java:208-212 | The inner structure is parsed from the inner bytes. |
| EsniPreparator.EncryptedServerNameIndicationExtensionPreparator.Contents | TLS-Core/src/main/java/de/rub/nds/tlsattacker/core/protocol/preparator/extension/EncryptedServerNameIndicationExtensionPreparator.java:313-346 | What the random, ESNIContents and hash steps compute, in order. Any missing field, or a missing or unknown suite, gives a NullPointerException. The only other error is PreparationException("Could not prepare esniContentsHash"). On success the random is ClientRandom, the contents are ESNIContents over the current fields, and the hash is the suite's digest of them. |
| EsniPreparator.EncryptedServerNameIndicationExtensionPreparator.PrepareServerNonce | TLS-Core/src/main/java/de/rub/nds/tlsattacker/core/protocol/preparator/extension/EncryptedServerNameIndicationExtensionPreparator.java:530-534 | The server nonce is the client nonce received. |
| EsniPreparator.EncryptedServerNameIndicationExtensionPreparator.DeriveContents | TLS-Core/src/main/java/de/rub/nds/tlsattacker/core/protocol/preparator/extension/EncryptedServerNameIndicationExtensionPreparator.java:155-173 | It succeeds exactly when Contents does, and then the computation holds Contents' random, ESNIContents and hash. On failure it reports Contents' exception. The fields set earlier are left alone. |
| EsniPreparator.EncryptedServerNameIndicationExtensionPreparator.DeriveKeys | TLS-Core/src/main/java/de/rub/nds/tlsattacker/core/protocol/preparator/extension/EncryptedServerNameIndicationExtensionPreparator.java:159-178 | It succeeds exactly when the ESNI key schedule over the current shared secret and contents hash does. Then the master secret, key and IV are the schedule's and the AAD is the key-share bytes. On failure it reports the schedule's exception. |
| EsniPreparator.EncryptedServerNameIndicationExtensionPreparator.PrepareClientSecretsAndEncrypt | TLS-Core/src/main/java/de/rub/nds/tlsattacker/core/protocol/preparator/extension/EncryptedServerNameIndicationExtensionPreparator.java:155-164 | ClientTailOutcome. The first stage that fails (contents, client shared secret, key schedule, encryption) reports its own exception. The run succeeds exactly when every stage holds its result and the ciphertext is the AEAD encryption of the inner bytes, with its length. The fields set earlier are left alone. |
| EsniPreparator.EncryptedServerNameIndicationExtensionPreparator.DeriveClientSecrets | TLS-Core/src/main/java/de/rub/nds/tlsattacker/core/protocol/preparator/extension/EncryptedServerNameIndicationExtensionPreparator.java:155-162 | The first failing stage among contents, client shared secret and key schedule reports its exception. It succeeds exactly when all three hold their results. The earlier fields are left alone. |
| EsniPreparator.EncryptedServerNameIndicationExtensionPreparator.DeriveClientKeys | TLS-Core/src/main/java/de/rub/nds/tlsattacker/core/protocol/preparator/extension/EncryptedServerNameIndicationExtensionPreparator.java:158-162 | A failing client shared secret reports its exception, then a failing key schedule reports its own. It succeeds exactly when the secret and the keys are both derived. |
| EsniPreparator.EncryptedServerNameIndicationExtensionPreparator.EncryptInner | TLS-Core/src/main/java/de/rub/nds/tlsattacker/core/protocol/preparator/extension/EncryptedServerNameIndicationExtensionPreparator.java:163-164 | It fails only with a NullPointerException. It succeeds exactly when the ciphertext is the AEAD encryption of the inner bytes and its length is recorded. With the AEAD inputs present, it succeeds exactly when the cipher returns a value. |
| EsniPreparator.EncryptedServerNameIndicationExtensionPreparator.PrepareClientFields | TLS-Core/src/main/java/de/rub/nds/tlsattacker/core/protocol/preparator/extension/EncryptedServerNameIndicationExtensionPreparator.java:123-131 | The CLIENT head: the inner structure is prepared and appended to the stream; the suite, group and key share are the negotiated ones. No server key share gives IndexOutOfBounds. Otherwise the server key is the matching entry's and the record bytes are the chooser's. It then succeeds exactly when the negotiated suite's digest of the record returns a value, which becomes the record digest with its length; otherwise PreparationException("Could not prepare recordDigest"). |
| EsniPreparator.EncryptedServerNameIndicationExtensionPreparator.PrepareServerKeyAndDigest | TLS-Core/src/main/java/de/rub/nds/tlsattacker/core/protocol/preparator/extension/EncryptedServerNameIndicationExtensionPreparator.java:128-131 | No server key share gives IndexOutOfBounds, and an unset group a NullPointerException. Otherwise the server key and record bytes are set, and the step succeeds exactly when the suite's digest of the record returns a value, storing it and its length; a failing digest gives PreparationException("Could not prepare recordDigest"). |
| EsniPreparator.EncryptedServerNameIndicationExtensionPreparator.PrepareClientExtensionContent | TLS-Core/src/main/java/de/rub/nds/tlsattacker/core/protocol/preparator/extension/EncryptedServerNameIndicationExtensionPreparator.java:122-142 | ClientContentPrepared: every field of the CLIENT head, IndexOutOfBounds without a server key share, the record-digest PreparationException, and then ClientTailOutcome for the rest. The server nonce is untouched. |
| EsniPreparator.EncryptedServerNameIndicationExtensionPreparator.PrepareExtensionContent | TLS-Core/src/main/java/de/rub/nds/tlsattacker/core/protocol/preparator/extension/EncryptedServerNameIndicationExtensionPreparator.java:119-149 | In SERVER mode it succeeds and only the server nonce changes, to the client nonce. In CLIENT mode the full pipeline runs with the outcome ClientContentPrepared. |
| EsniPreparator.EncryptedServerNameIndicationExtensionPreparator.AfterPrepareExtensionContent | TLS-Core/src/main/java/de/rub/nds/tlsattacker/core/protocol/preparator/extension/EncryptedServerNameIndicationExtensionPreparator.java:152-166 | In SERVER mode it succeeds and nothing changes. In CLIENT mode the contents, keys, encryption and length are recomputed, with the outcome ClientTailOutcome. |
| EsniPreparator.EncryptedServerNameIndicationExtensionPreparator.ServerDecryptSteps | TLS-Core/src/main/java/de/rub/nds/tlsattacker/core/protocol/preparator/extension/EncryptedServerNameIndicationExtensionPreparator.java:171-180 | ServerTailOutcome before mapping. The first failing stage (contents, server shared secret, key schedule, decryption) reports its exception. It succeeds exactly when every stage holds its result, the inner bytes are the AEAD decryption and the inner structure is parsed from them. |
| EsniPreparator.EncryptedServerNameIndicationExtensionPreparator.DeriveServerSecrets | TLS-Core/src/main/java/de/rub/nds/tlsattacker/core/protocol/preparator/extension/EncryptedServerNameIndicationExtensionPreparator.java:171-178 | The first failing stage among contents, server shared secret and key schedule reports its exception. It succeeds exactly when all three hold their results. |
| EsniPreparator.EncryptedServerNameIndicationExtensionPreparator.DeriveServerKeys | TLS-Core/src/main/java/de/rub/nds/tlsattacker/core/protocol/preparator/extension/EncryptedServerNameIndicationExtensionPreparator.java:174-178 | A failing server shared secret reports its exception, then a failing key schedule reports its own. It succeeds exactly when the secret and the keys are both derived. |
| EsniPreparator.EncryptedServerNameIndicationExtensionPreparator.DecryptInner | TLS-Core/src/main/java/de/rub/nds/tlsattacker/core/protocol/preparator/extension/EncryptedServerNameIndicationExtensionPreparator.java:179-180 | It fails only with a NullPointerException. It succeeds exactly when the inner bytes are the AEAD decryption of the received ciphertext and the inner structure is parsed from them. With the AEAD inputs present, it succeeds exactly when the cipher returns a value. |
| EsniPreparator.EncryptedServerNameIndicationExtensionPreparator.PrepareAfterParse | TLS-Core/src/main/java/de/rub/nds/tlsattacker/core/protocol/preparator/extension/EncryptedServerNameIndicationExtensionPreparator.java:168-186 | In CLIENT mode it succeeds and nothing changes. In SERVER mode the outcome is ServerTailOutcome with each exception mapped: a missing parameter becomes the "Missing parameters" PreparationException, never a NullPointerException. It succeeds exactly when the inner structure is decrypted and parsed with the keys derived from the server's key pair. |
| Ocsp.HashAlgorithm | TLS-Core/src/main/java/de/rub/nds/tlsattacker/core/certificate/ocsp/CertificateStatus.java:85-86 | The OID succeeds exactly when child [0] of the CertID is a sequence whose child [0] is an object identifier, and it is that OID. |
| Ocsp.OctetStringValue | TLS-Core/src/main/java/de/rub/nds/tlsattacker/core/certificate/ocsp/CertificateStatus.java:92-101 | Definition of an issuer hash read: the bytes of a primitive octet string, the original value of an encapsulating one, and otherwise the prior value. ParseStatusFields and ParseEncodeStatus are stated through it. |
| Ocsp.StatusOf | TLS-Core/src/main/java/de/rub/nds/tlsattacker/core/certificate/ocsp/CertificateStatus.java:111-132 | Definition of the status decoding: Null or EndOfContent is good, explicit 1 is revoked with the time of its first child (IndexOutOfBounds or ClassCast when that child is missing or not a time), explicit 2 is unknown, and anything else keeps the prior status. ParseStatusCode is proved about it. |
| Ocsp.NextUpdateFrom | TLS-Core/src/main/java/de/rub/nds/tlsattacker/core/certificate/ocsp/CertificateStatus.java:140-155 | Definition of the trailing-children loop: each explicit-0 child sets nextUpdate from its first child, with IndexOutOfBounds or ClassCast when that child is missing or not a time, and other children are skipped. NextUpdateLastWins is proved about it, and ParseCertificateStatus's loop computes it. |
| Ocsp.ParseStatus | TLS-Core/src/main/java/de/rub/nds/tlsattacker/core/certificate/ocsp/CertificateStatus.java:73-156 | Definition of parseCertificateStatus over the SingleResponse children, with Java's IndexOutOfBounds and ClassCast errors in the order the source reads the children. ParseStatusFields, ParseStatusCode and ParseEncodeStatus are proved about it, and ParseCertificateStatus and New are stated against it. |
| Ocsp.NextUpdateLastWins | TLS-Core/src/main/java/de/rub/nds/tlsattacker/core/certificate/ocsp/CertificateStatus.java:140-155 | Reading the trailing children succeeds exactly when every explicit-0 child has a time. Then nextUpdate is the time of the LAST explicit-0 child, or the prior value when there is none. Other children are ignored. |
| Ocsp.LastNextUpdateCons | TLS-Core/src/main/java/de/rub/nds/tlsattacker/core/certificate/ocsp/CertificateStatus.java:140-155 | The last nextUpdate of a longer list is that of its tail, else that of its head. |
| Ocsp.ParseStatusFields | TLS-Core/src/main/java/de/rub/nds/tlsattacker/core/certificate/ocsp/CertificateStatus.java:73-156 | Reading succeeds exactly for well-formed SingleResponses. Then the OID is child [0][0], the serial is child [3], and the hashes come from octet strings (primitive or encapsulating, else the prior value). lastUpdate is child 2, and nextUpdate is the last explicit-0 trailing time. |
| Ocsp.ParseStatusCode | TLS-Core/src/main/java/de/rub/nds/tlsattacker/core/certificate/ocsp/CertificateStatus.java:111-132 | Read into a new object, Null or EndOfContent gives 0, explicit 1 gives 1 with the revocation time of its first child, and explicit 2 gives 2 with no revocation time. Every other node or offset leaves 0. |
| Ocsp.ParseEncodeStatus | TLS-Core/src/main/java/de/rub/nds/tlsattacker/core/certificate/ocsp/CertificateStatus.java:73-156 | Reading a SingleResponse built from any encodable status fields gives back exactly those fields. |
| Ocsp.Asn1Tool.constructor | TLS-Core/src/main/java/de/rub/nds/tlsattacker/core/certificate/ocsp/CertificateStatus.java:51 | Before any construction the flag is false and nothing is registered. |
| Ocsp.Asn1Tool.Initialize | TLS-Core/src/main/java/de/rub/nds/tlsattacker/core/certificate/ocsp/CertificateStatus.java:51-55 | The registrations run only while the flag is false; afterwards the flag is true. |
| Ocsp.CertificateStatus.Empty | TLS-Core/src/main/java/de/rub/nds/tlsattacker/core/certificate/ocsp/CertificateStatus.java:40-47 | A new object holds the default fields. |
| Ocsp.CertificateStatus.ParseCertificateStatus | TLS-Core/src/main/java/de/rub/nds/tlsattacker/core/certificate/ocsp/CertificateStatus.java:73-156 | The loop over the children from index 3 and the field assignments compute ParseStatus of the current fields. It raises exactly when ParseStatus fails, and otherwise the fields are its value. |
| Ocsp.CertificateStatus.New | TLS-Core/src/main/java/de/rub/nds/tlsattacker/core/certificate/ocsp/CertificateStatus.java:49-59 | Construction runs the one-time setup (flag true, registrations at most once). It then yields an object whose fields are ParseStatus over the defaults, or that reading's exception. |

## Left out

- The cryptography is not modelled: HKDF extract and expand-label, message digests, AEAD encryption and decryption, X25519, X448, P-256 multiplication, key-pair generation, point serialization and signing. Each is a function-valued parameter, and `None` stands for the checked exception it raises. Length promises are stated as an explicit hypothesis (`ExpandsToLength`).
- Randomness (`getBadSecureRandom`) is a parameter of key-pair generation.
- `KeySetGenerator`, `RecordCipherFactory` and `AlgorithmResolver` are not part of this model.
  - The key-set generator is a parameter.
  - A record cipher is the pair of key set and suite.
  - `updateEncryptionCipher` and `updateDecryptionCipher` copy the installed cipher into the encrypting or decrypting slot.
  - The suite-to-algorithm tables follow RFC 8446, appendix B.4.
- `ECCUtilsBCWrapper.readECParameters` is not part of this model. It is a parameter returning parsed parameters, an IO failure or an index failure.
  - SetEcDhParams assumes the retry reads the same bytes as the first read whenever the curve type and named group were just set by the preparator. The model therefore states one outcome per read and not two successive reads.
- The Java serialization of the point-format and named-group lists is not modelled. A stored list is either decodable (`Encoded`) or not (`Undecodable`), and the serializer is assumed never to raise its IOException.
- `ByteArrayOutputStream.write(byte[])` never raises the IOException its signature declares. The `PreparationException` branches of the stream writes are therefore not modelled.
- `KeyShareEntrySerializer`, `ClientEsniInnerPreparator`, `ClientEsniInnerSerializer` and `ClientEsniInnerParser` are not part of this model.
  - The key-share entry layout is taken as group (2 bytes) || key length (2 bytes) || key.
  - The inner-structure steps are parameters.
- The `ExtensionByteLength` constants are taken as 2 bytes each: the record-digest length, the key-share length and the key-share list length.
- The `(DefaultChooser)` cast in `prepareCipherSuite` is not modelled; the chooser always provides the server's ESNI cipher suites.
- Logging and `printStackTrace` are not modelled.
- CertificateStatus: the ASN.1 `ContextRegister` and `ContentUnpackerRegister` calls are not modelled. Only the static `asn1ToolInitialized` flag is kept, as a field of an explicit `Asn1Tool` object, together with a count of how often the registration block ran.
- Ocsp.CertificateStatus.ParseCertificateStatus: a failing read leaves the fields partly assigned in the source. Its contract does not state which fields survive, because the constructor then throws and the object is never seen.
- An encapsulating octet string is represented by the original bytes of its content. A `null` sequence passed to the constructor is not modelled.
- GeneratePointFormatList stores the corrected list (`PointFormatList`), and so do SetEcDhParams and PrepareHandshakeMessageContents, which use it. The configuration's default point formats are immutable in the model. The source instead runs `removeAll` on the live defaults and can store an empty list. That behaviour is modelled separately by `PointFormatListAsWritten` and shown in the Findings row.
- NamedGroupFromValue and CipherSuiteFromValue know only the six named groups and seven cipher suites of `tls_constants.dfy`. Any other code reads back as unknown. ComputeSharedSecret and ServerSharedSecret then raise a NullPointerException for such a code, where the source raises UnsupportedOperationException("<group> is unsupported") for a group it knows, such as SECP224R1 (0x0015).
- PrepareKeyShareEntry: `KeyShareEntryPreparator` is not part of this model. The step uses the chooser's key-share private key and the `publicKeyOf` parameter for the public key, and raises a NullPointerException only when no group is set.
- ComputeSharedSecret: `PointFormatter.formatFromByteArray` and the P-256 multiplication are one parameter, `p256SharedX`, returning either the shared x-coordinate or the decoder's exception. Which malformed keys the decoder rejects is not modelled.
- The `getParser` and `getSerializer` factory methods of KeyUpdateHandler only construct objects; they are not modelled.

## Findings

| source | as written | input that shows it | evidently intended | confidence | as-written member | corrected member |
|---|---|---|---|---|---|---|
| TLS-Core/src/main/java/de/rub/nds/tlsattacker/core/protocol/preparator/ECDHEServerKeyExchangePreparator.java:145-163 | When the server lists no point format, the working list is the configuration's own default list (147). `removeAll` (161) then empties the configured defaults, and the fallback (163) copies the emptied list, so the stored list is empty. | Server formats [], configured defaults [UNCOMPRESSED], client formats [], settings not enforced. | Fall back to the defaults: the stored list is [UNCOMPRESSED] and the configuration is unchanged. | medium (assumes the configuration getter returns its live list, whose class is not part of this model); not executed | EcdheLists.AsWrittenEmptiesDefaults | EcdheLists.PointFormatListBounds |
