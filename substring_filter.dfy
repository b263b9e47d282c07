/**
 * SubstringFilter, section 4.5.1.7.2 of RFC 4511:
 *
 *   SubstringFilter ::= SEQUENCE { type AttributeDescription,
 *     substrings SEQUENCE SIZE (1..MAX) OF CHOICE {
 *       initial [0], any [1], final [2] } }
 *
 * The encoder emits [0] first, the [1] parts in order and [2] last.  The
 * decoder accepts the parts in any order but at most one [0] and one [2].
 */
module SubstringFilters {
  import opened Wrappers
  import opened Asn1
  import opened LdapProtocol

  /** The filter's tag in the Filter CHOICE. */
  const CHOICE_TAG: nat := 4
  const TAG_INITIAL: nat := 0
  const TAG_ANY: nat := 1
  const TAG_FINAL: nat := 2

  const NO_PARTS: Exception :=
    RuntimeException("You must provide a contains, starts with, or ends with value to the substring filter.")
  const MALFORMED_TYPE: Exception := ProtocolException("The substring type is malformed")
  const MALFORMED: Exception := ProtocolException("The substring filter is malformed.")

  /** The value of a substring filter: what the getters return. */
  datatype Substrings = Substrings(attribute: string, startsWith: Option<string>, endsWith: Option<string>, contains: seq<string>)

  predicate HasPart(f: Substrings) {
    f.startsWith.Some? || f.endsWith.Some? || |f.contains| > 0
  }

  // ---------------------------------------------------------------- encoding

  function Part(tag: nat, value: string): Tlv {
    Context(tag, OctetString(value))
  }

  function AnyParts(contains: seq<string>): (r: seq<Tlv>)
    ensures |r| == |contains|
  {
    seq(|contains|, i requires 0 <= i < |contains| => Part(TAG_ANY, contains[i]))
  }

  function InitialPart(f: Substrings): seq<Tlv> {
    if f.startsWith.Some? then [Part(TAG_INITIAL, f.startsWith.value)] else []
  }

  function FinalPart(f: Substrings): seq<Tlv> {
    if f.endsWith.Some? then [Part(TAG_FINAL, f.endsWith.value)] else []
  }

  /** The children of the substrings SEQUENCE OF that toAsn1 builds. */
  function EncodedParts(f: Substrings): seq<Tlv> {
    InitialPart(f) + AnyParts(f.contains) + FinalPart(f)
  }

  /** toAsn1: [4] SEQUENCE { attribute, SEQUENCE OF parts }, or the RuntimeException for a filter without parts. */
  function Encode(f: Substrings): (r: Result<Tlv, Exception>)
    ensures r.Failure? <==> !HasPart(f)
    ensures r.Failure? ==> r.error == NO_PARTS
    ensures r.Success? ==> r.value.tagClass == ContextSpecific && r.value.tagNumber == CHOICE_TAG
  {
    if !HasPart(f) then Failure(NO_PARTS)
    else Success(Context(CHOICE_TAG, Sequence([OctetString(f.attribute), Sequence(EncodedParts(f))])))
  }

  /** The parts come out as: an optional [0] first, one [1] per contains value in order, an optional [2] last. */
  lemma {:induction false} EncodedPartsLayout(f: Substrings)
    ensures var ps := EncodedParts(f); var k := |InitialPart(f)|;
      && |ps| == k + |f.contains| + |FinalPart(f)|
      && (f.startsWith.Some? ==> ps[0] == Part(TAG_INITIAL, f.startsWith.value))
      && (forall i :: 0 <= i < |f.contains| ==> ps[k + i] == Part(TAG_ANY, f.contains[i]))
      && (f.endsWith.Some? ==> ps[|ps| - 1] == Part(TAG_FINAL, f.endsWith.value))
  {
    var ps := EncodedParts(f);
    var k := |InitialPart(f)|;
    forall i | 0 <= i < |f.contains| ensures ps[k + i] == Part(TAG_ANY, f.contains[i]) {
      assert ps[k + i] == AnyParts(f.contains)[i];
    }
  }

  // ---------------------------------------------------------------- decoding

  /** The loop state of parseSubstrings: the [0] and [2] nodes seen so far and the [1] values. */
  datatype PartsSeen = PartsSeen(initial: Option<Tlv>, final: Option<Tlv>, contains: seq<string>)

  const NOTHING_SEEN: PartsSeen := PartsSeen(None, None, [])

  /** One iteration of the parseSubstrings loop. */
  function ParseStep(acc: PartsSeen, t: Tlv): Result<PartsSeen, Exception> {
    if t.tagClass != ContextSpecific then Failure(MALFORMED)
    else if t.tagNumber == TAG_INITIAL then
      (if acc.initial.Some? then Failure(MALFORMED) else Success(acc.(initial := Some(t))))
    else if t.tagNumber == TAG_ANY then
      Success(acc.(contains := acc.contains + [StringValue(t).GetOr("")]))
    else if t.tagNumber == TAG_FINAL then
      (if acc.final.Some? then Failure(MALFORMED) else Success(acc.(final := Some(t))))
    else Failure(MALFORMED)
  }

  /** The rest of the parseSubstrings loop, from state `acc`, over the parts `ts`. */
  function ParseFrom(acc: PartsSeen, ts: seq<Tlv>): Result<PartsSeen, Exception>
    decreases |ts|
  {
    if ts == [] then Success(acc)
    else match ParseStep(acc, ts[0])
      case Failure(e) => Failure(e)
      case Success(next) => ParseFrom(next, ts[1..])
  }

  /** getValue() of an optional node, kept only when it is a string. */
  function ValueOf(node: Option<Tlv>): Option<string> {
    match node
    case None => None
    case Some(t) => StringValue(t)
  }

  /** parseSubstrings: [startsWith, endsWith, contains]. */
  function DecodeParts(ts: seq<Tlv>): Result<(Option<string>, Option<string>, seq<string>), Exception> {
    match ParseFrom(NOTHING_SEEN, ts)
    case Failure(e) => Failure(e)
    case Success(seen) => Success((ValueOf(seen.initial), ValueOf(seen.final), seen.contains))
  }

  /** The outer shape fromAsn1 checks before looking at the parts. */
  predicate WellShaped(t: Tlv) {
    && t.body.Children?
    && |t.body.children| == 2
    && t.body.children[0].body.Octets?
    && t.body.children[1].body.Children?
    && |t.body.children[1].body.children| > 0
  }

  /** fromAsn1. */
  function Decode(t: Tlv): (r: Result<Substrings, Exception>)
    ensures r.Success? <==> WellShaped(t) && DecodeParts(t.body.children[1].body.children).Success?
    ensures !(t.body.Children? && |t.body.children| == 2) ==> r == Failure(MALFORMED_TYPE)
    ensures r.Success? ==> r.value.attribute == t.body.children[0].body.bytes
  {
    if !(t.body.Children? && |t.body.children| == 2) then Failure(MALFORMED_TYPE)
    else
      var attrType := t.body.children[0];
      var substrings := t.body.children[1];
      if !(attrType.body.Octets? && substrings.body.Children? && |substrings.body.children| > 0) then Failure(MALFORMED)
      else match DecodeParts(substrings.body.children)
        case Failure(e) => Failure(e)
        case Success(parts) => Success(Substrings(attrType.body.bytes, parts.0, parts.1, parts.2))
  }

  // ---------------------------------------------------------------- the grammar the decoder accepts

  function CountTag(ts: seq<Tlv>, tag: nat): nat {
    if ts == [] then 0 else (if ts[0].tagNumber == tag then 1 else 0) + CountTag(ts[1..], tag)
  }

  /** The values of the [1] parts, in wire order. */
  function AnyValues(ts: seq<Tlv>): seq<string> {
    if ts == [] then []
    else (if ts[0].tagNumber == TAG_ANY then [StringValue(ts[0]).GetOr("")] else []) + AnyValues(ts[1..])
  }

  /** The first part with the given tag. */
  function FirstWithTag(ts: seq<Tlv>, tag: nat): Option<Tlv> {
    if ts == [] then None else if ts[0].tagNumber == tag then Some(ts[0]) else FirstWithTag(ts[1..], tag)
  }

  /** A part the decoder knows: context-specific, with tag 0, 1 or 2. */
  predicate KnownPart(t: Tlv) {
    t.tagClass == ContextSpecific && t.tagNumber <= TAG_FINAL
  }

  predicate AllKnownParts(ts: seq<Tlv>) {
    forall i :: 0 <= i < |ts| ==> KnownPart(ts[i])
  }

  lemma AllKnownPartsCons(ts: seq<Tlv>)
    requires ts != []
    ensures AllKnownParts(ts) <==> KnownPart(ts[0]) && AllKnownParts(ts[1..])
  {
    assert forall i :: 1 <= i < |ts| ==> ts[i] == ts[1..][i - 1];
  }

  /** Every part is context-specific with tag 0, 1 or 2, and [0] and [2] occur at most once. */
  predicate Acceptable(ts: seq<Tlv>) {
    && AllKnownParts(ts)
    && CountTag(ts, TAG_INITIAL) <= 1
    && CountTag(ts, TAG_FINAL) <= 1
  }

  /** One step succeeds on a known part that does not repeat [0] or [2], and records it. */
  lemma ParseStepCases(acc: PartsSeen, t: Tlv)
    ensures ParseStep(acc, t).Success? <==>
      KnownPart(t) && (t.tagNumber == TAG_INITIAL ==> acc.initial.None?) && (t.tagNumber == TAG_FINAL ==> acc.final.None?)
    ensures ParseStep(acc, t).Success? ==> ParseStep(acc, t).value == PartsSeen(
      if t.tagNumber == TAG_INITIAL then Some(t) else acc.initial,
      if t.tagNumber == TAG_FINAL then Some(t) else acc.final,
      acc.contains + (if t.tagNumber == TAG_ANY then [StringValue(t).GetOr("")] else []))
    ensures ParseStep(acc, t).Failure? ==> ParseStep(acc, t).error == MALFORMED
  {
    assert acc.contains + [] == acc.contains;
  }

  /** The loop runs to the end exactly when every part is known and [0] and [2] are not repeated. */
  lemma {:induction false} ParseFromAccepts(acc: PartsSeen, ts: seq<Tlv>)
    ensures ParseFrom(acc, ts).Success? <==>
      && AllKnownParts(ts)
      && CountTag(ts, TAG_INITIAL) + (if acc.initial.Some? then 1 else 0) <= 1
      && CountTag(ts, TAG_FINAL) + (if acc.final.Some? then 1 else 0) <= 1
    ensures ParseFrom(acc, ts).Failure? ==> ParseFrom(acc, ts).error == MALFORMED
    decreases |ts|
  {
    if ts != [] {
      ParseStepCases(acc, ts[0]);
      if ParseStep(acc, ts[0]).Success? {
        ParseFromAccepts(ParseStep(acc, ts[0]).value, ts[1..]);
      }
      AllKnownPartsCons(ts);
    }
  }

  /** When it does, the [1] values are appended in wire order and the first [0] and [2] are kept. */
  lemma {:induction false} ParseFromValues(acc: PartsSeen, ts: seq<Tlv>)
    requires ParseFrom(acc, ts).Success?
    ensures ParseFrom(acc, ts).value.contains == acc.contains + AnyValues(ts)
    ensures ParseFrom(acc, ts).value.initial == (if acc.initial.Some? then acc.initial else FirstWithTag(ts, TAG_INITIAL))
    ensures ParseFrom(acc, ts).value.final == (if acc.final.Some? then acc.final else FirstWithTag(ts, TAG_FINAL))
    decreases |ts|
  {
    if ts == [] {
      assert acc.contains + [] == acc.contains;
    } else {
      var next := ParseStep(acc, ts[0]).value;
      ParseStepCases(acc, ts[0]);
      ParseFromValues(next, ts[1..]);
      assert AnyValues(ts) == (if ts[0].tagNumber == TAG_ANY then [StringValue(ts[0]).GetOr("")] else []) + AnyValues(ts[1..]);
      assert next.contains + AnyValues(ts[1..]) == acc.contains + AnyValues(ts);
    }
  }

  /** parseSubstrings succeeds exactly on the acceptable part lists, and then returns the [1] values in wire order. */
  lemma DecodePartsCharacterized(ts: seq<Tlv>)
    ensures DecodeParts(ts).Success? <==> Acceptable(ts)
    ensures DecodeParts(ts).Success? ==>
      && DecodeParts(ts).value.2 == AnyValues(ts)
      && DecodeParts(ts).value.0 == ValueOf(FirstWithTag(ts, TAG_INITIAL))
      && DecodeParts(ts).value.1 == ValueOf(FirstWithTag(ts, TAG_FINAL))
    ensures DecodeParts(ts).Failure? ==> DecodeParts(ts).error == MALFORMED
  {
    ParseFromAccepts(NOTHING_SEEN, ts);
    if ParseFrom(NOTHING_SEEN, ts).Success? {
      ParseFromValues(NOTHING_SEEN, ts);
    }
  }

  /** A second [0] or a second [2] is rejected. */
  lemma DuplicateInitialOrFinalRejected(ts: seq<Tlv>, i: nat, j: nat)
    requires i < j < |ts|
    requires (ts[i].tagNumber == TAG_INITIAL && ts[j].tagNumber == TAG_INITIAL) ||
             (ts[i].tagNumber == TAG_FINAL && ts[j].tagNumber == TAG_FINAL)
    ensures DecodeParts(ts) == Failure(MALFORMED)
  {
    DecodePartsCharacterized(ts);
    CountAtLeastTwo(ts, i, j, ts[i].tagNumber);
  }

  lemma {:induction false} CountAtLeastTwo(ts: seq<Tlv>, i: nat, j: nat, tag: nat)
    requires i < j < |ts| && ts[i].tagNumber == tag && ts[j].tagNumber == tag
    ensures CountTag(ts, tag) >= 2
    decreases |ts|
  {
    if i == 0 {
      CountAtLeastOne(ts[1..], j - 1, tag);
    } else {
      CountAtLeastTwo(ts[1..], i - 1, j - 1, tag);
    }
  }

  lemma {:induction false} CountAtLeastOne(ts: seq<Tlv>, j: nat, tag: nat)
    requires j < |ts| && ts[j].tagNumber == tag
    ensures CountTag(ts, tag) >= 1
    decreases |ts|
  {
    if j > 0 {
      CountAtLeastOne(ts[1..], j - 1, tag);
    }
  }

  /** A part that is not context-specific, or has a tag other than 0, 1, 2, is rejected. */
  lemma ForeignPartRejected(ts: seq<Tlv>, i: nat)
    requires i < |ts|
    requires ts[i].tagClass != ContextSpecific || ts[i].tagNumber > TAG_FINAL
    ensures DecodeParts(ts) == Failure(MALFORMED)
  {
    DecodePartsCharacterized(ts);
  }

  /** The position of [0] and [2] among the [1] parts is not checked, and [1] values may repeat. */
  lemma OrderNotChecked(s: string, e: string, c: string)
    ensures DecodeParts([Part(TAG_FINAL, e), Part(TAG_ANY, c), Part(TAG_INITIAL, s), Part(TAG_ANY, c)])
      == Success((Some(s), Some(e), [c, c]))
  {
    var ts := [Part(TAG_FINAL, e), Part(TAG_ANY, c), Part(TAG_INITIAL, s), Part(TAG_ANY, c)];
    var s1 := PartsSeen(None, Some(Part(TAG_FINAL, e)), []);
    var s2 := s1.(contains := [c]);
    var s3 := s2.(initial := Some(Part(TAG_INITIAL, s)));
    var s4 := s3.(contains := [c, c]);
    assert StringValue(Part(TAG_ANY, c)) == Some(c);
    assert ParseFrom(NOTHING_SEEN, ts) == ParseFrom(s1, ts[1..]);
    assert ts[1..][0] == Part(TAG_ANY, c) && ts[1..][1..] == ts[2..];
    assert Part(TAG_ANY, c).tagClass == ContextSpecific && Part(TAG_ANY, c).tagNumber == TAG_ANY;
    assert s1.contains + [c] == [c];
    assert ParseStep(s1, Part(TAG_ANY, c)) == Success(s1.(contains := s1.contains + [c]));
    assert ParseStep(s1, Part(TAG_ANY, c)) == Success(s2);
    assert ParseFrom(s1, ts[1..]) == ParseFrom(s2, ts[2..]);
    assert ParseFrom(s2, ts[2..]) == ParseFrom(s3, ts[3..]);
    assert ts[3..][0] == Part(TAG_ANY, c) && ts[3..][1..] == ts[4..];
    assert s3.contains + [c] == [c, c];
    assert ParseStep(s3, Part(TAG_ANY, c)) == Success(s3.(contains := s3.contains + [c]));
    assert ParseStep(s3, Part(TAG_ANY, c)) == Success(s4);
    assert ParseFrom(s3, ts[3..]) == ParseFrom(s4, ts[4..]);
    assert ts[4..] == [];
  }

  // ---------------------------------------------------------------- round trip

  lemma {:induction false} ParseAnyParts(acc: PartsSeen, contains: seq<string>, rest: seq<Tlv>)
    ensures ParseFrom(acc, AnyParts(contains) + rest) == ParseFrom(acc.(contains := acc.contains + contains), rest)
    decreases |contains|
  {
    if contains == [] {
      assert AnyParts(contains) + rest == rest;
      assert acc.contains + contains == acc.contains;
    } else {
      var ts := AnyParts(contains) + rest;
      assert ts[0] == Part(TAG_ANY, contains[0]);
      assert ts[1..] == AnyParts(contains[1..]) + rest;
      var next := acc.(contains := acc.contains + [contains[0]]);
      assert ParseStep(acc, ts[0]) == Success(next);
      ParseAnyParts(next, contains[1..], rest);
      assert next.contains + contains[1..] == acc.contains + contains;
    }
  }

  /** fromAsn1(toAsn1(f)) gives back f, for every filter that has at least one part. */
  lemma RoundTrip(f: Substrings)
    requires HasPart(f)
    ensures Encode(f).Success? && Decode(Encode(f).value) == Success(f)
  {
    var ps := EncodedParts(f);
    var afterInitial := if f.startsWith.Some? then NOTHING_SEEN.(initial := Some(Part(TAG_INITIAL, f.startsWith.value))) else NOTHING_SEEN;
    assert ParseFrom(NOTHING_SEEN, ps) == ParseFrom(afterInitial, AnyParts(f.contains) + FinalPart(f)) by {
      if f.startsWith.Some? {
        assert ps[0] == Part(TAG_INITIAL, f.startsWith.value);
        assert ps[1..] == AnyParts(f.contains) + FinalPart(f);
      } else {
        assert ps == AnyParts(f.contains) + FinalPart(f);
      }
    }
    ParseAnyParts(afterInitial, f.contains, FinalPart(f));
    var afterAny := afterInitial.(contains := f.contains);
    assert afterInitial.contains + f.contains == f.contains;
    if f.endsWith.Some? {
      assert FinalPart(f)[1..] == [];
      assert ParseFrom(afterAny, FinalPart(f)) == Success(afterAny.(final := Some(Part(TAG_FINAL, f.endsWith.value))));
    }
    assert |ps| > 0 by { EncodedPartsLayout(f); }
  }

  // ---------------------------------------------------------------- text form

  /** implode($separator, $pieces). */
  function Implode(pieces: seq<string>, separator: string): string {
    if pieces == [] then "" else if |pieces| == 1 then pieces[0] else pieces[0] + separator + Implode(pieces[1..], separator)
  }

  function EscapeAll(values: seq<string>, escape: string -> string): (r: seq<string>)
    ensures |r| == |values|
  {
    seq(|values|, i requires 0 <= i < |values| => escape(values[i]))
  }

  /**
   * The assertion value in text form: the escaped start, a `*`, each escaped
   * contains value followed by `*`, then the escaped end.  A filter without
   * parts renders as the empty value.
   */
  function RenderedValue(f: Substrings, escape: string -> string): string {
    if !HasPart(f) then ""
    else
      (if f.startsWith.Some? then escape(f.startsWith.value) else "")
      + "*"
      + (if |f.contains| > 0 then Implode(EscapeAll(f.contains, escape), "*") + "*" else "")
      + (if f.endsWith.Some? then escape(f.endsWith.value) else "")
  }

  /** toString: `(attribute=value)`; the attribute itself is not escaped. */
  function Rendered(f: Substrings, escape: string -> string): string {
    "(" + f.attribute + "=" + RenderedValue(f, escape) + ")"
  }

  /** The three shapes of the text form. */
  lemma RenderedShapes(f: Substrings, escape: string -> string)
    ensures f.startsWith.Some? && f.endsWith.None? && f.contains == [] ==>
      Rendered(f, escape) == "(" + f.attribute + "=" + escape(f.startsWith.value) + "*)"
    ensures f.startsWith.None? && f.endsWith.Some? && f.contains == [] ==>
      Rendered(f, escape) == "(" + f.attribute + "=*" + escape(f.endsWith.value) + ")"
    ensures f.startsWith.None? && f.endsWith.None? && |f.contains| > 0 ==>
      Rendered(f, escape) == "(" + f.attribute + "=*" + Implode(EscapeAll(f.contains, escape), "*") + "*)"
  {
  }

  // ---------------------------------------------------------------- the mutable filter object

  class SubstringFilter {
    var attribute: string
    var startsWith: Option<string>
    var endsWith: Option<string>
    var contains: seq<string>

    /** The getters, together. */
    function Value(): Substrings
      reads this
    {
      Substrings(attribute, startsWith, endsWith, contains)
    }

    constructor(attribute: string, startsWith: Option<string> := None, endsWith: Option<string> := None, contains: seq<string> := [])
      ensures Value() == Substrings(attribute, startsWith, endsWith, contains)
    {
      this.attribute := attribute;
      this.startsWith := startsWith;
      this.endsWith := endsWith;
      this.contains := contains;
    }

    method SetStartsWith(value: Option<string>)
      modifies this`startsWith
      ensures Value() == old(Value()).(startsWith := value)
    {
      startsWith := value;
    }

    method SetEndsWith(value: Option<string>)
      modifies this`endsWith
      ensures Value() == old(Value()).(endsWith := value)
    {
      endsWith := value;
    }

    method SetContains(values: seq<string>)
      modifies this`contains
      ensures Value() == old(Value()).(contains := values)
    {
      contains := values;
    }

    /** toAsn1: builds the substrings sequence child by child. */
    method ToAsn1() returns (r: Result<Tlv, Exception>)
      ensures r == Encode(Value())
    {
      if startsWith.None? && endsWith.None? && |contains| == 0 {
        return Failure(NO_PARTS);
      }
      var substrings: seq<Tlv> := [];
      if startsWith.Some? {
        substrings := substrings + [Part(TAG_INITIAL, startsWith.value)];
      }
      var i := 0;
      while i < |contains|
        invariant 0 <= i <= |contains|
        invariant substrings == InitialPart(Value()) + AnyParts(contains[..i])
      {
        assert AnyParts(contains[..i + 1]) == AnyParts(contains[..i]) + [Part(TAG_ANY, contains[i])];
        substrings := substrings + [Part(TAG_ANY, contains[i])];
        i := i + 1;
      }
      assert contains[..i] == contains;
      if endsWith.Some? {
        substrings := substrings + [Part(TAG_FINAL, endsWith.value)];
      }
      assert substrings == EncodedParts(Value());
      r := Success(Context(CHOICE_TAG, Sequence([OctetString(attribute), Sequence(substrings)])));
    }

    /** toString, with Attribute::escape passed in as `escape`. */
    method ToString(escape: string -> string) returns (s: string)
      ensures s == Rendered(Value(), escape)
    {
      // the three pieces RenderedValue joins around the first `*`
      ghost var st := if startsWith.Some? then escape(startsWith.value) else "";
      ghost var mid := if |contains| > 0 then Implode(EscapeAll(contains, escape), "*") + "*" else "";
      ghost var en := if endsWith.Some? then escape(endsWith.value) else "";
      var filter := "(" + attribute + "=";
      var value := "";
      if |contains| != 0 {
        value := "*" + Implode(EscapeAll(contains, escape), "*") + "*";
        assert value == "*" + mid && value != "";
      }
      assert value == (if |contains| > 0 then "*" + mid else "");
      if startsWith.Some? {
        var start := escape(startsWith.value);
        value := (if value == "" then start + "*" else start) + value;
      }
      assert value == (if startsWith.Some? || |contains| > 0 then st + "*" + mid else "");
      if endsWith.Some? {
        var end := escape(endsWith.value);
        value := value + (if value == "" then "*" + end else end);
      }
      assert value == (if HasPart(Value()) then st + "*" + mid + en else "");
      assert value == RenderedValue(Value(), escape);
      s := filter + value + ")";
    }

    /** parseSubstrings: one pass over the parts, refusing a second [0] or [2] and any other tag. */
    static method ParseSubstrings(ts: seq<Tlv>) returns (r: Result<(Option<string>, Option<string>, seq<string>), Exception>)
      ensures r == DecodeParts(ts)
    {
      var initial: Option<Tlv> := None;
      var final: Option<Tlv> := None;
      var values: seq<string> := [];
      var i := 0;
      while i < |ts|
        invariant 0 <= i <= |ts|
        invariant ParseFrom(PartsSeen(initial, final, values), ts[i..]) == ParseFrom(NOTHING_SEEN, ts)
      {
        var t := ts[i];
        assert ts[i..][0] == t && ts[i..][1..] == ts[i + 1..];
        if t.tagClass != ContextSpecific {
          return Failure(MALFORMED);
        }
        if t.tagNumber == TAG_INITIAL {
          if initial.Some? {
            return Failure(MALFORMED);
          }
          initial := Some(t);
        } else if t.tagNumber == TAG_ANY {
          values := values + [StringValue(t).GetOr("")];
        } else if t.tagNumber == TAG_FINAL {
          if final.Some? {
            return Failure(MALFORMED);
          }
          final := Some(t);
        } else {
          return Failure(MALFORMED);
        }
        i := i + 1;
      }
      r := Success((ValueOf(initial), ValueOf(final), values));
    }

    /** fromAsn1: a new filter from a decoded node. */
    static method FromAsn1(t: Tlv) returns (r: Result<SubstringFilter, Exception>)
      ensures Decode(t).Failure? ==> r.Failure? && r.error == Decode(t).error
      ensures Decode(t).Success? ==> r.Success? && fresh(r.value) && r.value.Value() == Decode(t).value
    {
      if !(t.body.Children? && |t.body.children| == 2) {
        return Failure(MALFORMED_TYPE);
      }
      var attrType := t.body.children[0];
      var substrings := t.body.children[1];
      if !(attrType.body.Octets? && substrings.body.Children? && |substrings.body.children| > 0) {
        return Failure(MALFORMED);
      }
      var parts := ParseSubstrings(substrings.body.children);
      if parts.Failure? {
        return Failure(parts.error);
      }
      var filter := new SubstringFilter(attrType.body.bytes, parts.value.0, parts.value.1, parts.value.2);
      r := Success(filter);
    }
  }
}
