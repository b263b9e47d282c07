/**
 * An abstract view of the typed ASN.1 nodes of the FreeDSx ASN.1 library.
 * A node has a tag class, a tag number and a body.  As in that library,
 * context tagging is implicit: `Context(n, t)` re-tags the node `t`, it
 * does not wrap it, so a context-tagged sequence is still a sequence.
 * BER octets are not modelled.
 */
module Asn1 {
  import opened Wrappers

  datatype TagClass = Universal | Application | ContextSpecific | Private

  /** The typed content of a node: which PHP type class the node is. */
  datatype Body =
    | Octets(bytes: string)        // OctetStringType
    | Children(children: seq<Tlv>) // SequenceType
    | Int(n: int)                  // IntegerType
    | Bool(b: bool)                // BooleanType

  datatype Tlv = Tlv(tagClass: TagClass, tagNumber: nat, body: Body)

  // Universal tag numbers (X.680).
  const TAG_BOOLEAN: nat := 1
  const TAG_INTEGER: nat := 2
  const TAG_OCTET_STRING: nat := 4
  const TAG_SEQUENCE: nat := 16

  function OctetString(s: string): Tlv { Tlv(Universal, TAG_OCTET_STRING, Octets(s)) }
  function Integer(n: int): Tlv { Tlv(Universal, TAG_INTEGER, Int(n)) }
  function Boolean(b: bool): Tlv { Tlv(Universal, TAG_BOOLEAN, Bool(b)) }
  function Sequence(children: seq<Tlv>): Tlv { Tlv(Universal, TAG_SEQUENCE, Children(children)) }

  /** Asn1::context: the same node with context class and the given tag number. */
  function Context(tagNumber: nat, t: Tlv): Tlv {
    t.(tagClass := ContextSpecific, tagNumber := tagNumber)
  }

  predicate IsSequence(t: Tlv) { t.body.Children? }
  predicate IsOctetString(t: Tlv) { t.body.Octets? }
  predicate IsInteger(t: Tlv) { t.body.Int? }

  /** AbstractType::getValue() when it is a PHP string, else None. */
  function StringValue(t: Tlv): Option<string> {
    if t.body.Octets? then Some(t.body.bytes) else None
  }
}
