/**
 * The parts of the Entry/Attribute model that the RootDSE handler uses.
 * Entry and Attribute are collaborators whose source is not part of this
 * model: an entry is a DN, an ordered list of attributes and a change log;
 * `add`, `set` and `reset` record a change, `changes()->reset()` empties
 * the log, and `Attribute::reset()` empties one attribute's values.
 * Attributes are found by exact name.
 */
module Entries {
  import opened Wrappers

  datatype Attribute = Attribute(name: string, values: seq<string>)

  datatype ChangeType = AddValues | ReplaceValues | ResetAttribute

  datatype Change = Change(changeType: ChangeType, attribute: string, values: seq<string>)

  /** The value of an entry, as it is put into a SearchResultEntry. */
  datatype EntryValue = EntryValue(dn: string, attributes: seq<Attribute>, changes: seq<Change>)

  /** The position of the first attribute called `name`. */
  function IndexOf(attrs: seq<Attribute>, name: string): (r: Option<nat>)
    ensures r.Some? ==> r.value < |attrs| && attrs[r.value].name == name
    ensures r.Some? ==> forall k :: 0 <= k < r.value ==> attrs[k].name != name
    ensures r.None? ==> forall k :: 0 <= k < |attrs| ==> attrs[k].name != name
  {
    if attrs == [] then None
    else if attrs[0].name == name then Some(0)
    else match IndexOf(attrs[1..], name)
      case None => None
      case Some(i) => Some(i + 1)
  }

  /** The values of the attribute called `name`, if the entry has one. */
  function ValuesOf(attrs: seq<Attribute>, name: string): Option<seq<string>> {
    match IndexOf(attrs, name)
    case None => None
    case Some(i) => Some(attrs[i].values)
  }

  class Entry {
    var dn: string
    var attributes: seq<Attribute>
    var changes: seq<Change>

    function Value(): EntryValue
      reads this
    {
      EntryValue(dn, attributes, changes)
    }

    /** Entry::fromArray: an entry with the given attributes and no changes. */
    constructor FromArray(dn: string, attributes: seq<Attribute>)
      ensures Value() == EntryValue(dn, attributes, [])
    {
      this.dn := dn;
      this.attributes := attributes;
      this.changes := [];
    }

    /** Entry::add: appends a value to the named attribute, creating it at the end if absent. */
    method Add(name: string, value: string)
      modifies this
      ensures dn == old(dn)
      ensures changes == old(changes) + [Change(AddValues, name, [value])]
      ensures match IndexOf(old(attributes), name)
        case Some(i) => attributes == old(attributes)[i := Attribute(name, old(attributes)[i].values + [value])]
        case None => attributes == old(attributes) + [Attribute(name, [value])]
    {
      match IndexOf(attributes, name) {
        case Some(i) =>
          attributes := attributes[i := Attribute(name, attributes[i].values + [value])];
        case None =>
          attributes := attributes + [Attribute(name, [value])];
      }
      changes := changes + [Change(AddValues, name, [value])];
    }

    /** Entry::set: replaces the values of the named attribute, creating it at the end if absent. */
    method Set(name: string, value: string)
      modifies this
      ensures dn == old(dn)
      ensures changes == old(changes) + [Change(ReplaceValues, name, [value])]
      ensures match IndexOf(old(attributes), name)
        case Some(i) => attributes == old(attributes)[i := Attribute(name, [value])]
        case None => attributes == old(attributes) + [Attribute(name, [value])]
    {
      match IndexOf(attributes, name) {
        case Some(i) =>
          attributes := attributes[i := Attribute(name, [value])];
        case None =>
          attributes := attributes + [Attribute(name, [value])];
      }
      changes := changes + [Change(ReplaceValues, name, [value])];
    }

    /** Entry::reset($attribute): removes the attribute at position `i`. */
    method Reset(i: nat)
      requires i < |attributes|
      modifies this
      ensures dn == old(dn)
      ensures attributes == old(attributes)[..i] + old(attributes)[i + 1..]
      ensures changes == old(changes) + [Change(ResetAttribute, old(attributes)[i].name, [])]
    {
      changes := changes + [Change(ResetAttribute, attributes[i].name, [])];
      attributes := attributes[..i] + attributes[i + 1..];
    }

    /** Attribute::reset() on the attribute at position `i` of this entry. */
    method ResetValues(i: nat)
      requires i < |attributes|
      modifies this
      ensures dn == old(dn) && changes == old(changes)
      ensures attributes == old(attributes)[..i] + [Attribute(old(attributes)[i].name, [])] + old(attributes)[i + 1..]
    {
      attributes := attributes[..i] + [Attribute(attributes[i].name, [])] + attributes[i + 1..];
    }

    /** $entry->changes()->reset(). */
    method ResetChanges()
      modifies this
      ensures dn == old(dn) && attributes == old(attributes) && changes == []
    {
      changes := [];
    }
  }
}
