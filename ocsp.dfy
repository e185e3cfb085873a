/** The certificate status of an OCSP SingleResponse (section 4.2.1 of RFC 6960),
    read from a decoded ASN.1 tree: the CertID of the request it answers, the
    status (good 0, revoked 1, unknown 2), the revocation time and the thisUpdate
    and nextUpdate times. */
module Ocsp {
  import opened Wrappers
  import opened Bytes

  /** The decoded ASN.1 nodes the status is read from. An encapsulating octet
      string is represented by the original bytes of its content; `Other` stands
      for every other node type. */
  datatype Asn1Node =
    | Sequence(children: seq<Asn1Node>)
    | Explicit(offset: int, children: seq<Asn1Node>)
    | ObjectIdentifier(oid: string)
    | PrimitiveOctetString(octets: Bytes)
    | EncapsulatingOctetString(originalValue: Bytes)
    | Integer(value: int)
    | GeneralizedTime(time: string)
    | Null
    | EndOfContent
    | Other

  /** The status codes. */
  const GOOD: int := 0
  const REVOKED: int := 1
  const UNKNOWN: int := 2

  /** The fields of a certificate status; `None` is a field never assigned. */
  datatype StatusFields = StatusFields(
    hashAlgorithmIdentifier: Option<string>,
    issuerNameHash: Option<Bytes>,
    issuerKeyHash: Option<Bytes>,
    serialNumber: Option<int>,
    certStatus: int,
    timeOfRevocation: Option<string>,
    timeOfLastUpdate: Option<string>,
    timeOfNextUpdate: Option<string>)

  /** The fields of a new object: every reference null, the status 0. */
  const DEFAULT_FIELDS: StatusFields := StatusFields(None, None, None, None, GOOD, None, None, None)

  // ---------------------------------------------------------------------------
  // Reading the tree

  /** The hash algorithm OID: the first child of the AlgorithmIdentifier that is
      the first child of the CertID. */
  function HashAlgorithm(certId: seq<Asn1Node>): (r: Result<string>)
    ensures r.Success? <==>
      |certId| > 0 && certId[0].Sequence? && |certId[0].children| > 0 && certId[0].children[0].ObjectIdentifier?
    ensures r.Success? ==> r.value == certId[0].children[0].oid
  {
    if |certId| == 0 then Failure(IndexOutOfBoundsException)
    else if !certId[0].Sequence? then Failure(ClassCastException)
    else if |certId[0].children| == 0 then Failure(IndexOutOfBoundsException)
    else if !certId[0].children[0].ObjectIdentifier? then Failure(ClassCastException)
    else Success(certId[0].children[0].oid)
  }

  /** An issuer hash: the bytes of a primitive octet string or the original
      value of an encapsulating one; any other node leaves the field as it was. */
  function OctetStringValue(node: Asn1Node, prior: Option<Bytes>): Option<Bytes>
  {
    match node
    case PrimitiveOctetString(octets) => Some(octets)
    case EncapsulatingOctetString(originalValue) => Some(originalValue)
    case _ => prior
  }

  /** The status and revocation time a status node gives. Null and EndOfContent
      both mean good; an explicit tag 1 is revoked, with the time of its first
      child; an explicit tag 2 is unknown; anything else leaves both as they were. */
  function StatusOf(node: Asn1Node, priorStatus: int, priorRevocation: Option<string>): Result<(int, Option<string>)>
  {
    match node
    case Null => Success((GOOD, priorRevocation))
    case EndOfContent => Success((GOOD, priorRevocation))
    case Explicit(offset, children) =>
      if offset == 1 then
        if |children| == 0 then Failure(IndexOutOfBoundsException)
        else if !children[0].GeneralizedTime? then Failure(ClassCastException)
        else Success((REVOKED, Some(children[0].time)))
      else if offset == 2 then Success((UNKNOWN, priorRevocation))
      else Success((priorStatus, priorRevocation))
    case _ => Success((priorStatus, priorRevocation))
  }

  /** The trailing children, read in order: each explicit tag 0 sets nextUpdate
      from its first child; every other node is skipped. */
  function NextUpdateFrom(trailing: seq<Asn1Node>, next: Option<string>): Result<Option<string>>
  {
    if trailing == [] then Success(next)
    else
      var node := trailing[0];
      if node.Explicit? && node.offset == 0 then
        if |node.children| == 0 then Failure(IndexOutOfBoundsException)
        else if !node.children[0].GeneralizedTime? then Failure(ClassCastException)
        else NextUpdateFrom(trailing[1..], Some(node.children[0].time))
      else NextUpdateFrom(trailing[1..], next)
  }

  /** `parseCertificateStatus` on the children of a SingleResponse, starting from
      the fields as they are. */
  function ParseStatus(response: seq<Asn1Node>, prior: StatusFields): Result<StatusFields>
  {
    if |response| == 0 then Failure(IndexOutOfBoundsException)
    else if !response[0].Sequence? then Failure(ClassCastException)
    else
      var certId := response[0].children;
      match HashAlgorithm(certId)
      case Failure(e) => Failure(e)
      case Success(oid) =>
        if |certId| < 3 then Failure(IndexOutOfBoundsException)
        else
          var nameHash := OctetStringValue(certId[1], prior.issuerNameHash);
          var keyHash := OctetStringValue(certId[2], prior.issuerKeyHash);
          if |certId| < 4 then Failure(IndexOutOfBoundsException)
          else if !certId[3].Integer? then Failure(ClassCastException)
          else if |response| < 2 then Failure(IndexOutOfBoundsException)
          else
            match StatusOf(response[1], prior.certStatus, prior.timeOfRevocation)
            case Failure(e) => Failure(e)
            case Success(status) =>
              if |response| < 3 then Failure(IndexOutOfBoundsException)
              else if !response[2].GeneralizedTime? then Failure(ClassCastException)
              else
                match NextUpdateFrom(response[3..], prior.timeOfNextUpdate)
                case Failure(e) => Failure(e)
                case Success(next) =>
                  Success(StatusFields(Some(oid), nameHash, keyHash, Some(certId[3].value), status.0, status.1,
                    Some(response[2].time), next))
  }

  // ---------------------------------------------------------------------------
  // What the reading promises

  /** A trailing node that carries a nextUpdate time. */
  predicate IsNextUpdate(node: Asn1Node)
  {
    node.Explicit? && node.offset == 0
  }

  /** A trailing node that carries a nextUpdate time the reader can take. */
  predicate WellFormedTrailing(node: Asn1Node)
  {
    IsNextUpdate(node) ==> |node.children| > 0 && node.children[0].GeneralizedTime?
  }

  /** The nextUpdate time of the last trailing node that carries one. */
  function LastNextUpdate(trailing: seq<Asn1Node>): Option<string>
  {
    if trailing == [] then None
    else
      var last := trailing[|trailing| - 1];
      if IsNextUpdate(last) && |last.children| > 0 && last.children[0].GeneralizedTime? then
        Some(last.children[0].time)
      else LastNextUpdate(trailing[..|trailing| - 1])
  }

  /** Reading the trailing children succeeds exactly when every nextUpdate node
      holds a time, and the result is the last of those times, or the time held
      before when there is none: later nodes overwrite earlier ones. */
  lemma {:induction false} NextUpdateLastWins(trailing: seq<Asn1Node>, next: Option<string>)
    ensures NextUpdateFrom(trailing, next).Success? <==> forall k :: 0 <= k < |trailing| ==> WellFormedTrailing(trailing[k])
    ensures NextUpdateFrom(trailing, next).Success? ==>
      NextUpdateFrom(trailing, next).value == if LastNextUpdate(trailing).Some? then LastNextUpdate(trailing) else next
  {
    if trailing != [] {
      var node := trailing[0];
      var rest := trailing[1..];
      var carried := if IsNextUpdate(node) && |node.children| > 0 && node.children[0].GeneralizedTime?
        then Some(node.children[0].time) else next;
      NextUpdateLastWins(rest, carried);
      assert forall k :: 0 <= k < |rest| ==> rest[k] == trailing[k + 1];
      assert trailing == [node] + rest;
      LastNextUpdateCons(node, rest);
      assert [node][..0] == [];
    }
  }

  /** The last nextUpdate time of `[node] + rest`: that of `rest`, or of `node`
      when `rest` has none. */
  lemma {:induction false} LastNextUpdateCons(node: Asn1Node, rest: seq<Asn1Node>)
    ensures LastNextUpdate([node] + rest) == if LastNextUpdate(rest).Some? then LastNextUpdate(rest) else LastNextUpdate([node])
  {
    if rest != [] {
      var all := [node] + rest;
      assert all[..|all| - 1] == [node] + rest[..|rest| - 1];
      LastNextUpdateCons(node, rest[..|rest| - 1]);
    }
  }

  /** The shape a SingleResponse must have to be read: a CertID sequence of at
      least four children (AlgorithmIdentifier with an OID first, serial number
      fourth), a status node the reader can take, a thisUpdate time and trailing
      nodes whose nextUpdate tags hold times. */
  predicate WellFormedResponse(response: seq<Asn1Node>)
  {
    |response| >= 3
    && response[0].Sequence? && |response[0].children| >= 4
    && HashAlgorithm(response[0].children).Success? && response[0].children[3].Integer?
    && (response[1].Explicit? && response[1].offset == 1 ==>
      |response[1].children| > 0 && response[1].children[0].GeneralizedTime?)
    && response[2].GeneralizedTime?
    && forall k :: 3 <= k < |response| ==> WellFormedTrailing(response[k])
  }

  /** Reading succeeds exactly for well-formed responses, and then it takes the
      OID from child [0][0] of the CertID, the serial number from child [3], the
      hashes from children [1] and [2] (octet strings only), thisUpdate from child
      2 of the response and nextUpdate from the last trailing tag 0. */
  lemma ParseStatusFields(response: seq<Asn1Node>, prior: StatusFields)
    ensures ParseStatus(response, prior).Success? <==> WellFormedResponse(response)
    ensures ParseStatus(response, prior).Success? ==>
      var f := ParseStatus(response, prior).value;
      var certId := response[0].children;
      var trailing := response[3..];
      f.hashAlgorithmIdentifier == Some(certId[0].children[0].oid)
      && f.issuerNameHash == OctetStringValue(certId[1], prior.issuerNameHash)
      && f.issuerKeyHash == OctetStringValue(certId[2], prior.issuerKeyHash)
      && f.serialNumber == Some(certId[3].value)
      && f.timeOfLastUpdate == Some(response[2].time)
      && f.timeOfNextUpdate == if LastNextUpdate(trailing).Some? then LastNextUpdate(trailing) else prior.timeOfNextUpdate
  {
    if |response| >= 3 {
      NextUpdateLastWins(response[3..], prior.timeOfNextUpdate);
      assert forall k :: 0 <= k < |response[3..]| ==> response[3..][k] == response[k + 3];
    }
  }

  /** Read into a new object, the status is 0, 1 or 2: revoked (with its time)
      exactly for an explicit tag 1, unknown exactly for an explicit tag 2, and
      good otherwise, Null and EndOfContent included. */
  lemma ParseStatusCode(response: seq<Asn1Node>)
    requires ParseStatus(response, DEFAULT_FIELDS).Success?
    ensures var f := ParseStatus(response, DEFAULT_FIELDS).value;
      (f.certStatus == REVOKED <==> response[1].Explicit? && response[1].offset == 1)
      && (f.certStatus == UNKNOWN <==> response[1].Explicit? && response[1].offset == 2)
      && (f.certStatus == GOOD <==> !(response[1].Explicit? && (response[1].offset == 1 || response[1].offset == 2)))
      && (f.timeOfRevocation.Some? <==> f.certStatus == REVOKED)
      && (f.certStatus == REVOKED ==> f.timeOfRevocation == Some(response[1].children[0].time))
  {
  }

  // ---------------------------------------------------------------------------
  // The inverse: building a SingleResponse

  /** The fields a SingleResponse can carry: a full CertID, a status code with a
      revocation time exactly when revoked, and a thisUpdate time. */
  predicate Encodable(f: StatusFields)
  {
    f.hashAlgorithmIdentifier.Some? && f.issuerNameHash.Some? && f.issuerKeyHash.Some? && f.serialNumber.Some?
    && (f.certStatus == GOOD || f.certStatus == REVOKED || f.certStatus == UNKNOWN)
    && (f.timeOfRevocation.Some? <==> f.certStatus == REVOKED)
    && f.timeOfLastUpdate.Some?
  }

  /** The children of a SingleResponse carrying `f`: CertID, status (NULL for
      good, [1] with the revocation time, [2] for unknown), thisUpdate and, when
      present, [0] with nextUpdate. */
  function EncodeStatus(f: StatusFields): seq<Asn1Node>
    requires Encodable(f)
  {
    var certId := [Sequence([ObjectIdentifier(f.hashAlgorithmIdentifier.value)]),
      PrimitiveOctetString(f.issuerNameHash.value), PrimitiveOctetString(f.issuerKeyHash.value),
      Integer(f.serialNumber.value)];
    var status := if f.certStatus == GOOD then Null
      else if f.certStatus == REVOKED then Explicit(1, [GeneralizedTime(f.timeOfRevocation.value)])
      else Explicit(2, []);
    var trailing := if f.timeOfNextUpdate.Some? then [Explicit(0, [GeneralizedTime(f.timeOfNextUpdate.value)])] else [];
    [Sequence(certId), status, GeneralizedTime(f.timeOfLastUpdate.value)] + trailing
  }

  /** Reading a built SingleResponse into a new object gives back every field. */
  lemma ParseEncodeStatus(f: StatusFields)
    requires Encodable(f)
    ensures ParseStatus(EncodeStatus(f), DEFAULT_FIELDS) == Success(f)
  {
    var response := EncodeStatus(f);
    var trailing: seq<Asn1Node> :=
      if f.timeOfNextUpdate.Some? then [Explicit(0, [GeneralizedTime(f.timeOfNextUpdate.value)])] else [];
    assert response[3..] == trailing;
    if f.timeOfNextUpdate.Some? {
      assert trailing[1..] == [];
    }
    assert NextUpdateFrom(trailing, None) == Success(f.timeOfNextUpdate);
  }

  // ---------------------------------------------------------------------------
  // The state

  /** The ASN.1 tool's one-time setup: the shared flag, and how often the
      contexts and content unpackers were registered. */
  class Asn1Tool {
    var asn1ToolInitialized: bool
    var registrations: nat

    predicate Valid()
      reads this
    {
      registrations == if asn1ToolInitialized then 1 else 0
    }

    constructor ()
      ensures Valid() && !asn1ToolInitialized
    {
      asn1ToolInitialized := false;
      registrations := 0;
    }

    /** Registers contexts and content unpackers unless the flag says so already,
        and sets the flag: the registration runs at most once. */
    method Initialize()
      requires Valid()
      modifies this
      ensures Valid() && asn1ToolInitialized
      ensures registrations == if old(asn1ToolInitialized) then old(registrations) else old(registrations) + 1
    {
      if !asn1ToolInitialized {
        registrations := registrations + 1;
        asn1ToolInitialized := true;
      }
    }
  }

  /** A certificate status, filled from the children of a SingleResponse. */
  class CertificateStatus {
    const certStatusSequence: seq<Asn1Node>
    var hashAlgorithmIdentifier: Option<string>
    var issuerNameHash: Option<Bytes>
    var issuerKeyHash: Option<Bytes>
    var serialNumber: Option<int>
    var certStatus: int
    var timeOfRevocation: Option<string>
    var timeOfLastUpdate: Option<string>
    var timeOfNextUpdate: Option<string>

    function Fields(): StatusFields
      reads this
    {
      StatusFields(hashAlgorithmIdentifier, issuerNameHash, issuerKeyHash, serialNumber, certStatus,
        timeOfRevocation, timeOfLastUpdate, timeOfNextUpdate)
    }

    /** The object before it is filled. */
    constructor Empty(certStatusSequence: seq<Asn1Node>)
      ensures this.certStatusSequence == certStatusSequence && Fields() == DEFAULT_FIELDS
    {
      this.certStatusSequence := certStatusSequence;
      hashAlgorithmIdentifier, issuerNameHash, issuerKeyHash, serialNumber := None, None, None, None;
      certStatus, timeOfRevocation, timeOfLastUpdate, timeOfNextUpdate := GOOD, None, None, None;
    }

    /** `parseCertificateStatus`: the fields read from the children in order; a
        missing child is an IndexOutOfBoundsException, a child of the wrong type a
        ClassCastException. */
    method ParseCertificateStatus() returns (err: Option<Exception>)
      modifies this`hashAlgorithmIdentifier, this`issuerNameHash, this`issuerKeyHash, this`serialNumber
      modifies this`certStatus, this`timeOfRevocation, this`timeOfLastUpdate, this`timeOfNextUpdate
      ensures var r := ParseStatus(certStatusSequence, old(Fields()));
        (err.None? <==> r.Success?) && (r.Success? ==> Fields() == r.value) && (r.Failure? ==> err == Some(r.error))
    {
      var response := certStatusSequence;
      if |response| == 0 { return Some(IndexOutOfBoundsException); }
      if !response[0].Sequence? { return Some(ClassCastException); }
      var certId := response[0].children;
      var oid := HashAlgorithm(certId);
      if oid.Failure? { return Some(oid.error); }
      hashAlgorithmIdentifier := Some(oid.value);
      if |certId| < 3 { return Some(IndexOutOfBoundsException); }
      issuerNameHash := OctetStringValue(certId[1], issuerNameHash);
      issuerKeyHash := OctetStringValue(certId[2], issuerKeyHash);
      if |certId| < 4 { return Some(IndexOutOfBoundsException); }
      if !certId[3].Integer? { return Some(ClassCastException); }
      serialNumber := Some(certId[3].value);
      if |response| < 2 { return Some(IndexOutOfBoundsException); }
      var status := StatusOf(response[1], certStatus, timeOfRevocation);
      if status.Failure? { return Some(status.error); }
      certStatus, timeOfRevocation := status.value.0, status.value.1;
      if |response| < 3 { return Some(IndexOutOfBoundsException); }
      if !response[2].GeneralizedTime? { return Some(ClassCastException); }
      timeOfLastUpdate := Some(response[2].time);
      ghost var before := Fields();
      for i := 3 to |response|
        invariant Fields() == before.(timeOfNextUpdate := timeOfNextUpdate)
        invariant NextUpdateFrom(response[3..], before.timeOfNextUpdate) == NextUpdateFrom(response[i..], timeOfNextUpdate)
      {
        assert response[i..][0] == response[i] && response[i..][1..] == response[i + 1..];
        var node := response[i];
        if node.Explicit? && node.offset == 0 {
          if |node.children| == 0 { return Some(IndexOutOfBoundsException); }
          if !node.children[0].GeneralizedTime? { return Some(ClassCastException); }
          timeOfNextUpdate := Some(node.children[0].time);
        }
      }
      err := None;
    }

    /** `new CertificateStatus(sequence)`: the tool's one-time setup, then the
        fields read from the sequence; when reading raises, no object results. */
    static method New(tool: Asn1Tool, certStatusSequence: seq<Asn1Node>) returns (r: Result<CertificateStatus>)
      requires tool.Valid()
      modifies tool
      ensures tool.Valid() && tool.asn1ToolInitialized
      ensures tool.registrations == if old(tool.asn1ToolInitialized) then old(tool.registrations) else old(tool.registrations) + 1
      ensures var parsed := ParseStatus(certStatusSequence, DEFAULT_FIELDS);
        (r.Success? <==> parsed.Success?) && (parsed.Failure? ==> r == Failure(parsed.error))
        && (r.Success? ==>
          fresh(r.value) && r.value.certStatusSequence == certStatusSequence && r.value.Fields() == parsed.value)
    {
      tool.Initialize();
      var status := new CertificateStatus.Empty(certStatusSequence);
      var err := status.ParseCertificateStatus();
      if err.Some? {
        return Failure(err.value);
      }
      r := Success(status);
    }
  }
}
