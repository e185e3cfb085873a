/** The parts of the Encrypted SNI extension preparator (draft-ietf-tls-esni-02)
    that do not touch the message: the AEAD sizes, the permissive negotiation of
    cipher suite and named group, the "first matching key entry, else entry 0"
    lookups, the ESNIContents and ClientHello key-share byte layouts, and the
    shared-secret dispatch on the named group. */
module EsniLayout {
  import opened Wrappers
  import opened Bytes
  import opened TlsConstants

  const AEAD_TAG_LENGTH: nat := 16
  const AEAD_CCM_8_TAG_LENGTH: nat := 8
  const AEAD_IV_LENGTH: nat := 12

  /** Widths of the length fields of ESNIContents and of the key-share list. */
  const RECORD_DIGEST_LENGTH: nat := 2
  const KEY_SHARE_LENGTH: nat := 2
  const KEY_SHARE_LIST_LENGTH: nat := 2

  /** The byte length of the P-256 field modulus. */
  const P256_ELEMENT_LENGTH: nat := 32

  /** The suites and groups the preparator can work with, in its order. */
  const IMPLEMENTED_CIPHER_SUITES: seq<CipherSuite> :=
    [TlsAes128GcmSha256, TlsAes256GcmSha384, TlsChacha20Poly1305Sha256, TlsAes128CcmSha256, TlsAes128Ccm8Sha256]
  const IMPLEMENTED_NAMED_GROUPS: seq<NamedGroup> := [EcdhX25519, EcdhX448, Secp256r1]

  /** The AEAD tag length in bits: 64 for the CCM_8 suites, 128 for every other. */
  function TagBitLength(suite: CipherSuite): (r: nat)
    ensures IsCcm8(suite) ==> r == 64
    ensures !IsCcm8(suite) ==> r == 128
  {
    if IsCcm8(suite) then AEAD_CCM_8_TAG_LENGTH * 8 else AEAD_TAG_LENGTH * 8
  }

  // ---------------------------------------------------------------------------
  // Negotiation of cipher suite and named group

  /** The outcome of a negotiation: the entry used and whether the server shares it. */
  datatype Negotiated<T> = Negotiated(selected: T, found: bool)

  /** An entry both implemented here and supported by the server. */
  predicate Shared<T(==)>(x: T, implemented: seq<T>, server: seq<T>)
  {
    x in implemented && x in server
  }

  /** The negotiation of `prepareCipherSuite` and `prepareNamedGroup` over the
      client entries still to be examined, `selected` being the entry chosen so
      far: an implemented entry becomes the selection, and the first one the
      server also supports ends the search. */
  function PreferredFrom<T(==)>(client: seq<T>, implemented: seq<T>, server: seq<T>, selected: T): Negotiated<T>
  {
    if client == [] then Negotiated(selected, false)
    else if Shared(client[0], implemented, server) then Negotiated(client[0], true)
    else PreferredFrom(client[1..], implemented, server, if client[0] in implemented then client[0] else selected)
  }

  /** The negotiation over the whole client list, starting from the first
      implemented entry. */
  function Preferred<T(==)>(client: seq<T>, implemented: seq<T>, server: seq<T>): Negotiated<T>
    requires |implemented| > 0
  {
    PreferredFrom(client, implemented, server, implemented[0])
  }

  lemma {:induction false} PreferredFromSpec<T>(client: seq<T>, implemented: seq<T>, server: seq<T>, selected: T)
    requires selected in implemented
    ensures PreferredFrom(client, implemented, server, selected).selected in implemented
    ensures PreferredFrom(client, implemented, server, selected).found
        <==> exists k :: 0 <= k < |client| && Shared(client[k], implemented, server)
    ensures PreferredFrom(client, implemented, server, selected).found ==>
      PreferredFrom(client, implemented, server, selected).selected in client
      && PreferredFrom(client, implemented, server, selected).selected in server
    ensures (forall k :: 0 <= k < |client| ==> client[k] !in implemented) ==>
      PreferredFrom(client, implemented, server, selected) == Negotiated(selected, false)
  {
    if client != [] && !Shared(client[0], implemented, server) {
      var tail := client[1..];
      var next := if client[0] in implemented then client[0] else selected;
      PreferredFromSpec(tail, implemented, server, next);
      if exists k :: 0 <= k < |client| && Shared(client[k], implemented, server) {
        var k :| 0 <= k < |client| && Shared(client[k], implemented, server);
        assert tail[k - 1] == client[k];
      }
      if exists k :: 0 <= k < |tail| && Shared(tail[k], implemented, server) {
        var k :| 0 <= k < |tail| && Shared(tail[k], implemented, server);
        assert client[k + 1] == tail[k];
      }
      if PreferredFrom(tail, implemented, server, next).found {
        assert forall x :: x in tail ==> x in client;
      }
      if forall k :: 0 <= k < |client| ==> client[k] !in implemented {
        assert client[0] !in implemented;
        assert forall k :: 0 <= k < |tail| ==> tail[k] == client[k + 1];
      }
    }
  }

  /** The negotiation selects an implemented entry; it reports the selection
      shared exactly when some client entry is implemented and server-supported,
      and a shared selection is one the client and the server both list. With no
      implemented client entry at all, the first implemented entry is used,
      unshared. */
  lemma PreferredSpec<T>(client: seq<T>, implemented: seq<T>, server: seq<T>)
    requires |implemented| > 0
    ensures Preferred(client, implemented, server).selected in implemented
    ensures Preferred(client, implemented, server).found
        <==> exists k :: 0 <= k < |client| && Shared(client[k], implemented, server)
    ensures Preferred(client, implemented, server).found ==>
      Preferred(client, implemented, server).selected in client
      && Preferred(client, implemented, server).selected in server
    ensures (forall k :: 0 <= k < |client| ==> client[k] !in implemented) ==>
      Preferred(client, implemented, server) == Negotiated(implemented[0], false)
  {
    PreferredFromSpec(client, implemented, server, implemented[0]);
  }

  lemma {:induction false} PreferredFromFirstShared<T>(client: seq<T>, implemented: seq<T>, server: seq<T>, selected: T,
      j: nat)
    requires j < |client| && Shared(client[j], implemented, server)
    requires forall k :: 0 <= k < j ==> !Shared(client[k], implemented, server)
    ensures PreferredFrom(client, implemented, server, selected) == Negotiated(client[j], true)
  {
    if j > 0 {
      var tail := client[1..];
      assert forall k :: 0 <= k < j - 1 ==> tail[k] == client[k + 1];
      PreferredFromFirstShared(tail, implemented, server,
        if client[0] in implemented then client[0] else selected, j - 1);
    }
  }

  /** The first shared client entry wins, and the negotiation reports it shared. */
  lemma PreferredFirstShared<T>(client: seq<T>, implemented: seq<T>, server: seq<T>, j: nat)
    requires |implemented| > 0
    requires j < |client| && Shared(client[j], implemented, server)
    requires forall k :: 0 <= k < j ==> !Shared(client[k], implemented, server)
    ensures Preferred(client, implemented, server) == Negotiated(client[j], true)
  {
    PreferredFromFirstShared(client, implemented, server, implemented[0], j);
  }

  lemma {:induction false} PreferredFromLastImplemented<T>(client: seq<T>, implemented: seq<T>, server: seq<T>,
      selected: T, j: nat)
    requires forall k :: 0 <= k < |client| ==> !Shared(client[k], implemented, server)
    requires j < |client| && client[j] in implemented
    requires forall k :: j < k < |client| ==> client[k] !in implemented
    ensures PreferredFrom(client, implemented, server, selected) == Negotiated(client[j], false)
  {
    var tail := client[1..];
    assert forall k :: 0 <= k < |tail| ==> tail[k] == client[k + 1];
    if j == 0 {
      PreferredFromSpec(tail, implemented, server, client[0]);
    } else {
      PreferredFromLastImplemented(tail, implemented, server,
        if client[0] in implemented then client[0] else selected, j - 1);
    }
  }

  /** With nothing shared, the last implemented client entry is used, unshared. */
  lemma PreferredLastImplemented<T>(client: seq<T>, implemented: seq<T>, server: seq<T>, j: nat)
    requires |implemented| > 0
    requires forall k :: 0 <= k < |client| ==> !Shared(client[k], implemented, server)
    requires j < |client| && client[j] in implemented
    requires forall k :: j < k < |client| ==> client[k] !in implemented
    ensures Preferred(client, implemented, server) == Negotiated(client[j], false)
  {
    PreferredFromLastImplemented(client, implemented, server, implemented[0], j);
  }

  /** The negotiation loop: every implemented client entry becomes the selection,
      and the first one the server also supports ends the search. */
  method SelectPreferred<T(==)>(client: seq<T>, implemented: seq<T>, server: seq<T>) returns (selected: T, found: bool)
    requires |implemented| > 0
    ensures Negotiated(selected, found) == Preferred(client, implemented, server)
  {
    selected := implemented[0];
    found := false;
    var i := 0;
    while i < |client|
      invariant 0 <= i <= |client|
      invariant PreferredFrom(client[i..], implemented, server, selected) == Preferred(client, implemented, server)
    {
      var g := client[i];
      assert client[i..][0] == g && client[i..][1..] == client[i + 1..];
      if g in implemented {
        selected := g;
        if g in server {
          found := true;
          return;
        }
      }
      i := i + 1;
    }
  }

  /** The negotiated group is always one the dispatch implements: computing its
      shared secret never raises UnsupportedOperationException, and it fails only
      when the group is SECP256R1 and the peer's key does not decode as a point,
      with the decoder's exception. */
  lemma NegotiatedGroupComputable(client: seq<NamedGroup>, server: seq<NamedGroup>, curves: Curves, privateKey: nat, publicKey: Bytes)
    ensures var g := Preferred(client, IMPLEMENTED_NAMED_GROUPS, server).selected;
      var r := ComputeSharedSecret(curves, privateKey, publicKey, Some(g));
      g in IMPLEMENTED_NAMED_GROUPS
      && (r.Failure? ==> g == Secp256r1 && curves.p256SharedX(privateKey, publicKey) == Failure(r.error))
  {
    PreferredSpec(client, IMPLEMENTED_NAMED_GROUPS, server);
  }

  // ---------------------------------------------------------------------------
  // Key lookups

  /** The index of the first entry equal to `target`, or `|keys|` when none is. */
  function FirstIndexOf<K(==)>(keys: seq<K>, target: K): (r: nat)
    ensures r <= |keys|
    ensures forall k :: 0 <= k < r ==> keys[k] != target
    ensures r < |keys| ==> keys[r] == target
  {
    if keys == [] then 0
    else if keys[0] == target then 0
    else 1 + FirstIndexOf(keys[1..], target)
  }

  /** "The first entry whose group matches, else entry 0". */
  function MatchOrFirst<K(==)>(keys: seq<K>, target: K): (r: nat)
    requires |keys| > 0
    ensures r < |keys|
    ensures target in keys ==> keys[r] == target && forall k :: 0 <= k < r ==> keys[k] != target
    ensures target !in keys ==> r == 0
  {
    var i := FirstIndexOf(keys, target);
    if i < |keys| then i else 0
  }

  /** The loop of `prepareEsniServerPublicKey` and `prepareEsniServerSharedSecret`:
      start from entry 0 and stop at the first entry whose group is `target`. */
  method FirstMatchOrFirst<K(==)>(keys: seq<K>, target: K) returns (index: nat)
    requires |keys| > 0
    ensures index == MatchOrFirst(keys, target)
  {
    index := 0;
    var i := 0;
    while i < |keys|
      invariant 0 <= i <= |keys|
      invariant forall k :: 0 <= k < i ==> keys[k] != target
    {
      if keys[i] == target {
        index := i;
        return;
      }
      i := i + 1;
    }
  }

  // ---------------------------------------------------------------------------
  // The ClientHello key-share AAD

  /** A key share in the chooser's store: a group and a public key. */
  datatype KeyShareStoreEntry = KeyShareStoreEntry(group: NamedGroup, publicKey: Bytes)

  /** A key share as read back from the wire: raw group code and key. */
  datatype RawKeyShare = RawKeyShare(group: Bytes, publicKey: Bytes)

  /** A serialized KeyShareEntry: group, two-byte key length, key. */
  function KeyShareEntryBytes(e: KeyShareStoreEntry): (r: Bytes)
    ensures |r| == 4 + |e.publicKey|
  {
    NamedGroupValue(e.group) + IntToBytes(|e.publicKey|, KEY_SHARE_LENGTH) + e.publicKey
  }

  /** The serialized entries, concatenated in order. */
  function KeyShareListBytes(shares: seq<KeyShareStoreEntry>): Bytes
  {
    if shares == [] then [] else KeyShareEntryBytes(shares[0]) + KeyShareListBytes(shares[1..])
  }

  lemma {:induction false} KeyShareListBytesAppend(shares: seq<KeyShareStoreEntry>, e: KeyShareStoreEntry)
    ensures KeyShareListBytes(shares + [e]) == KeyShareListBytes(shares) + KeyShareEntryBytes(e)
  {
    if shares != [] {
      assert (shares + [e])[1..] == shares[1..] + [e];
      KeyShareListBytesAppend(shares[1..], e);
    }
  }

  /** The AAD of the ESNI encryption: the key-share list with its two-byte length. */
  function ClientHelloKeyShareBytes(shares: seq<KeyShareStoreEntry>): Bytes
  {
    var list := KeyShareListBytes(shares);
    IntToBytes(|list|, KEY_SHARE_LIST_LENGTH) + list
  }

  /** The loop of `prepareClientHelloKeyShare`: each store entry is serialized into a
      stream, and the stream's length is written in front of it. */
  method BuildClientHelloKeyShare(shares: seq<KeyShareStoreEntry>) returns (aad: Bytes)
    ensures aad == ClientHelloKeyShareBytes(shares)
  {
    var stream: Bytes := [];
    var i := 0;
    while i < |shares|
      invariant 0 <= i <= |shares|
      invariant stream == KeyShareListBytes(shares[..i])
    {
      assert shares[..i + 1] == shares[..i] + [shares[i]];
      KeyShareListBytesAppend(shares[..i], shares[i]);
      stream := stream + KeyShareEntryBytes(shares[i]);
      i := i + 1;
    }
    assert shares[..i] == shares;
    aad := IntToBytes(|stream|, KEY_SHARE_LIST_LENGTH) + stream;
  }

  /** Reads a concatenation of serialized key shares back. */
  function ParseKeyShareList(b: Bytes): Option<seq<RawKeyShare>>
    decreases |b|
  {
    if b == [] then Some([])
    else if |b| < 4 then None
    else
      var len := BytesToInt(b[2..4]);
      if |b| < 4 + len then None
      else match ParseKeyShareList(b[4 + len..])
        case None => None
        case Some(rest) => Some([RawKeyShare(b[..2], b[4..4 + len])] + rest)
  }

  /** Reads the AAD back: the length prefix must cover exactly the rest. */
  function ParseClientHelloKeyShare(b: Bytes): Option<seq<RawKeyShare>>
  {
    if |b| < 2 || BytesToInt(b[..2]) != |b| - 2 then None else ParseKeyShareList(b[2..])
  }

  /** The wire view of the store entries. */
  function RawShares(shares: seq<KeyShareStoreEntry>): (r: seq<RawKeyShare>)
    ensures |r| == |shares|
  {
    if shares == [] then [] else [RawKeyShare(NamedGroupValue(shares[0].group), shares[0].publicKey)] + RawShares(shares[1..])
  }

  predicate KeysFit(shares: seq<KeyShareStoreEntry>)
  {
    forall i :: 0 <= i < |shares| ==> |shares[i].publicKey| < Pow256(KEY_SHARE_LENGTH)
  }

  lemma {:induction false} KeyShareListRoundTrip(shares: seq<KeyShareStoreEntry>)
    requires KeysFit(shares)
    ensures ParseKeyShareList(KeyShareListBytes(shares)) == Some(RawShares(shares))
  {
    if shares != [] {
      var e := shares[0];
      var head := KeyShareEntryBytes(e);
      var b := KeyShareListBytes(shares);
      var len := |e.publicKey|;
      assert b == head + KeyShareListBytes(shares[1..]);
      assert b[2..4] == IntToBytes(len, KEY_SHARE_LENGTH);
      IntToBytesExact(len, KEY_SHARE_LENGTH);
      assert b[..2] == NamedGroupValue(e.group);
      assert b[4..4 + len] == e.publicKey;
      assert b[4 + len..] == KeyShareListBytes(shares[1..]);
      assert KeysFit(shares[1..]) by {
        forall i | 0 <= i < |shares[1..]|
          ensures |shares[1..][i].publicKey| < Pow256(KEY_SHARE_LENGTH)
        {
          assert shares[1..][i] == shares[i + 1];
        }
      }
      KeyShareListRoundTrip(shares[1..]);
    }
  }

  /** The AAD's prefix gives the list's length and the entries read back are the
      store entries, whenever every key and the whole list fit their fields. */
  lemma ClientHelloKeyShareRoundTrip(shares: seq<KeyShareStoreEntry>)
    requires KeysFit(shares)
    requires |KeyShareListBytes(shares)| < Pow256(KEY_SHARE_LIST_LENGTH)
    ensures ParseClientHelloKeyShare(ClientHelloKeyShareBytes(shares)) == Some(RawShares(shares))
  {
    var list := KeyShareListBytes(shares);
    var b := ClientHelloKeyShareBytes(shares);
    assert b[..2] == IntToBytes(|list|, KEY_SHARE_LIST_LENGTH);
    assert b[2..] == list;
    IntToBytesExact(|list|, KEY_SHARE_LIST_LENGTH);
    KeyShareListRoundTrip(shares);
  }

  // ---------------------------------------------------------------------------
  // ESNIContents

  /** `generateEsniContents`: record digest length and digest, key-share group,
      key length and key, and the ClientHello random. */
  function EsniContents(digestLength: nat, digest: Bytes, group: Bytes, keyLength: nat, key: Bytes, random: Bytes): (r: Bytes)
    ensures |r| == RECORD_DIGEST_LENGTH + |digest| + |group| + KEY_SHARE_LENGTH + |key| + |random|
  {
    IntToBytes(digestLength, RECORD_DIGEST_LENGTH) + digest + group
      + IntToBytes(keyLength, KEY_SHARE_LENGTH) + key + random
  }

  datatype EsniContentsFields = EsniContentsFields(digest: Bytes, group: Bytes, key: Bytes, random: Bytes)

  /** Reads ESNIContents back, taking the two-byte group and the rest as random. */
  function ParseEsniContents(b: Bytes): Option<EsniContentsFields>
  {
    if |b| < 2 then None
    else
      var dl := BytesToInt(b[..2]);
      if |b| < 2 + dl + 4 then None
      else
        var kl := BytesToInt(b[2 + dl + 2..2 + dl + 4]);
        if |b| < 2 + dl + 4 + kl then None
        else Some(EsniContentsFields(b[2..2 + dl], b[2 + dl..2 + dl + 2], b[2 + dl + 4..2 + dl + 4 + kl], b[2 + dl + 4 + kl..]))
  }

  /** Every field of ESNIContents is recovered when the lengths written are the
      lengths of the digest and the key, both fit two bytes, and the group is two bytes. */
  lemma EsniContentsRoundTrip(digest: Bytes, group: Bytes, key: Bytes, random: Bytes)
    requires |digest| < Pow256(RECORD_DIGEST_LENGTH) && |key| < Pow256(KEY_SHARE_LENGTH)
    requires |group| == 2
    ensures ParseEsniContents(EsniContents(|digest|, digest, group, |key|, key, random))
      == Some(EsniContentsFields(digest, group, key, random))
  {
    var b := EsniContents(|digest|, digest, group, |key|, key, random);
    var dl, kl := |digest|, |key|;
    assert b[..2] == IntToBytes(dl, RECORD_DIGEST_LENGTH);
    IntToBytesExact(dl, RECORD_DIGEST_LENGTH);
    assert b[2 + dl + 2..2 + dl + 4] == IntToBytes(kl, KEY_SHARE_LENGTH);
    IntToBytesExact(kl, KEY_SHARE_LENGTH);
    assert b[2..2 + dl] == digest;
    assert b[2 + dl..2 + dl + 2] == group;
    assert b[2 + dl + 4..2 + dl + 4 + kl] == key;
    assert b[2 + dl + 4 + kl..] == random;
  }

  // ---------------------------------------------------------------------------
  // Shared secret

  /** The curve operations: X25519 and X448 (forgiving: every input gives an
      output), and the x-coordinate of a P-256 point multiplication, which fails
      with the decoder's exception when the peer's bytes are not a point. */
  datatype Curves = Curves(
    x25519: (nat, Bytes) -> Bytes,
    x448: (nat, Bytes) -> Bytes,
    p256SharedX: (nat, Bytes) -> Result<nat>)

  /** `computeSharedSecret`: dispatch on the group; a null group is a
      NullPointerException from the switch, every other group is unsupported. */
  function ComputeSharedSecret(curves: Curves, privateKey: nat, publicKey: Bytes, group: Option<NamedGroup>): (r: Result<Bytes>)
    ensures group.None? ==> r == Failure(NullPointerException)
    ensures r.Success? <==>
      group.Some? && group.value in IMPLEMENTED_NAMED_GROUPS
      && (group.value == Secp256r1 ==> curves.p256SharedX(privateKey, publicKey).Success?)
    ensures group == Some(EcdhX25519) ==> r == Success(curves.x25519(privateKey, publicKey))
    ensures group == Some(EcdhX448) ==> r == Success(curves.x448(privateKey, publicKey))
    ensures group == Some(Secp256r1) && curves.p256SharedX(privateKey, publicKey).Failure? ==>
      r == Failure(curves.p256SharedX(privateKey, publicKey).error)
    ensures group == Some(Secp256r1) && r.Success? ==>
      |r.value| == P256_ELEMENT_LENGTH
      && BytesToInt(r.value) == curves.p256SharedX(privateKey, publicKey).value % Pow256(P256_ELEMENT_LENGTH)
    ensures group.Some? && group.value !in IMPLEMENTED_NAMED_GROUPS ==>
      r == Failure(UnsupportedOperationException(NamedGroupName(group.value) + " is unsupported"))
  {
    match group
    case None => Failure(NullPointerException)
    case Some(EcdhX25519) => Success(curves.x25519(privateKey, publicKey))
    case Some(EcdhX448) => Success(curves.x448(privateKey, publicKey))
    case Some(Secp256r1) =>
      (match curves.p256SharedX(privateKey, publicKey)
       case Failure(e) => Failure(e)
       case Success(x) =>
         BytesToIntOfIntToBytes(x, P256_ELEMENT_LENGTH);
         Success(IntToBytes(x, P256_ELEMENT_LENGTH)))
    case Some(g) => Failure(UnsupportedOperationException(NamedGroupName(g) + " is unsupported"))
  }
}
