/**
 * The Active Directory PolicyHints request control
 * (LDAP_SERVER_POLICY_HINTS_OID).  Its value is
 *
 *   PolicyHintsRequestValue ::= SEQUENCE { Flags INTEGER }
 *
 * with Flags 1 when the hints are enabled and 0 otherwise.  The control
 * envelope (oid, criticality, encoded value) is the `Control` datatype;
 * the BER encoding of the value inside the envelope's octet string is not
 * modelled, so the envelope carries the value node itself.
 */
module PolicyHints {
  import opened Wrappers
  import opened Asn1
  import opened LdapProtocol

  const NOT_A_SEQUENCE: Exception := ProtocolException("A PolicyHints control value must be a sequence type.")
  const NOT_AN_INTEGER: Exception := ProtocolException("A PolicyHints control value sequence 0 must be an integer type.")

  /** The control value toAsn1 writes: SEQUENCE { INTEGER 1 } or SEQUENCE { INTEGER 0 }. */
  function EncodeValue(isEnabled: bool): Tlv {
    Sequence([Integer(if isEnabled then 1 else 0)])
  }

  /** The validation fromAsn1 performs on the decoded control value, and the flag it extracts. */
  function DecodeValue(value: Option<Tlv>): (r: Result<bool, Exception>)
    ensures r.Success? <==>
      value.Some? && IsSequence(value.value) && |value.value.body.children| > 0 && IsInteger(value.value.body.children[0])
    ensures r.Success? ==> (r.value <==> value.value.body.children[0].body.n != 0)
    ensures r.Failure? && (value.None? || !IsSequence(value.value)) ==> r.error == NOT_A_SEQUENCE
    ensures r.Failure? && value.Some? && IsSequence(value.value) ==> r.error == NOT_AN_INTEGER
  {
    match value
    case None => Failure(NOT_A_SEQUENCE)
    case Some(t) =>
      if !IsSequence(t) then Failure(NOT_A_SEQUENCE)
      // getChild(0) of an empty sequence is null, which is not an IntegerType
      else if |t.body.children| == 0 || !IsInteger(t.body.children[0]) then Failure(NOT_AN_INTEGER)
      else Success(t.body.children[0].body.n != 0)
  }

  /** Decoding the value toAsn1 writes gives back the flag it was written from. */
  lemma RoundTrip(isEnabled: bool)
    ensures DecodeValue(Some(EncodeValue(isEnabled))) == Success(isEnabled)
  {
  }

  /** Any non-zero first integer decodes to enabled, whatever else the sequence holds. */
  lemma NonZeroIsEnabled(n: int, rest: seq<Tlv>)
    ensures DecodeValue(Some(Sequence([Integer(n)] + rest))) == Success(n != 0)
  {
    assert ([Integer(n)] + rest)[0] == Integer(n);
  }

  class PolicyHintsControl {
    const oid: string
    var criticality: bool
    var controlValue: Option<Tlv>
    var isEnabled: bool

    /** The envelope Control::toAsn1 produces from the current fields. */
    function Envelope(): Control
      reads this
    {
      Control(oid, criticality, controlValue)
    }

    /** The control always has the PolicyHints oid and is critical; hints are enabled unless told otherwise. */
    constructor(isEnabled: bool := true)
      ensures oid == OID_POLICY_HINTS && criticality
      ensures this.isEnabled == isEnabled && controlValue.None?
    {
      oid := OID_POLICY_HINTS;
      criticality := true;
      controlValue := None;
      this.isEnabled := isEnabled;
    }

    method SetIsEnabled(isEnabled: bool)
      modifies this`isEnabled
      ensures this.isEnabled == isEnabled
    {
      this.isEnabled := isEnabled;
    }

    function GetIsEnabled(): bool
      reads this
    {
      isEnabled
    }

    /** toAsn1: stores the encoded flag as the control value and returns the envelope. */
    method ToAsn1() returns (r: Control)
      modifies this`controlValue
      ensures controlValue == Some(EncodeValue(isEnabled))
      ensures r == Control(oid, criticality, Some(EncodeValue(isEnabled)))
      ensures DecodeValue(r.value) == Success(isEnabled)
    {
      controlValue := Some(EncodeValue(isEnabled));
      RoundTrip(isEnabled);
      r := Envelope();
    }

    /**
     * fromAsn1: a new control whose flag is the decoded one; the envelope's
     * criticality and value are then copied over (Control::mergeControlData).
     */
    static method FromAsn1(envelope: Control) returns (r: Result<PolicyHintsControl, Exception>)
      ensures r.Success? <==> DecodeValue(envelope.value).Success?
      ensures r.Failure? ==> r.error == DecodeValue(envelope.value).error
      ensures r.Success? ==>
        && fresh(r.value)
        && r.value.oid == OID_POLICY_HINTS
        && r.value.isEnabled == DecodeValue(envelope.value).value
        && r.value.criticality == envelope.criticality
        && r.value.controlValue == envelope.value
    {
      var decoded := DecodeValue(envelope.value);
      if decoded.Failure? {
        return Failure(decoded.error);
      }
      var control := new PolicyHintsControl(decoded.value);
      control.criticality := envelope.criticality;
      control.controlValue := envelope.value;
      return Success(control);
    }
  }
}
