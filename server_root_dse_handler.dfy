/**
 * ServerRootDseHandler: answers a base-object search of the RootDSE
 * (section 5.1 of RFC 4512).  The handler builds an entry with DN '' from
 * the server options, keeps only the requested attributes (emptying the
 * values when only attribute names were asked for), lets an optional
 * RootDSE hook replace the entry, and sends the entry followed by a
 * SUCCESS SearchResultDone in one queue write.
 */
module RootDse {
  import opened Wrappers
  import opened LdapProtocol
  import opened Entries
  import opened Queues

  /** Attribute::equals: whether a requested attribute selects an entry attribute. */
  type AttributeEquals = (Attribute, Attribute) -> bool

  /** The RequestContext a RootDSE hook is given: the request's controls and the session token. */
  datatype RequestContext = RequestContext(controls: seq<Control>, token: Token)

  /** RootDseHandlerInterface::rootDse: the entry it returns replaces the built one. */
  type RootDseHook = (RequestContext, SearchRequest, EntryValue) -> EntryValue

  // ---------------------------------------------------------------- building

  /** The attribute list Entry::fromArray is given. */
  function BaseAttributes(options: ServerOptions): seq<Attribute> {
    [ Attribute("namingContexts", options.dseNamingContexts),
      Attribute("supportedExtension", [OID_WHOAMI]),
      Attribute("supportedLDAPVersion", ["3"]),
      Attribute("vendorName", [options.dseVendorName]) ]
  }

  /** The four attributes every RootDSE has, after the StartTLS `add`. */
  function Mandatory(options: ServerOptions): seq<Attribute> {
    [ Attribute("namingContexts", options.dseNamingContexts),
      Attribute("supportedExtension", [OID_WHOAMI] + (if Truthy(options.sslCert) then [OID_START_TLS] else [])),
      Attribute("supportedLDAPVersion", ["3"]),
      Attribute("vendorName", [options.dseVendorName]) ]
  }

  /** An attribute that is added at the end of the entry when `present`. */
  function Optional(present: bool, name: string, value: string): seq<Attribute> {
    if present then [Attribute(name, [value])] else []
  }

  function PagingPart(options: ServerOptions): seq<Attribute> {
    Optional(options.hasPagingHandler, "supportedControl", OID_PAGING)
  }

  function VendorVersionPart(options: ServerOptions): seq<Attribute> {
    Optional(Truthy(options.dseVendorVersion), "vendorVersion", options.dseVendorVersion.GetOr(""))
  }

  function AltServerPart(options: ServerOptions): seq<Attribute> {
    Optional(Truthy(options.dseAltServer), "altServer", options.dseAltServer.GetOr(""))
  }

  /** The attributes of the built RootDSE, before filtering. */
  function DseAttributes(options: ServerOptions): seq<Attribute> {
    Mandatory(options) + PagingPart(options) + VendorVersionPart(options) + AltServerPart(options)
  }

  /** The change log the add/set calls leave on the built entry. */
  function DseChanges(options: ServerOptions): seq<Change> {
    (if Truthy(options.sslCert) then [Change(AddValues, "supportedExtension", [OID_START_TLS])] else [])
    + (if options.hasPagingHandler then [Change(AddValues, "supportedControl", [OID_PAGING])] else [])
    + (if Truthy(options.dseVendorVersion) then [Change(ReplaceValues, "vendorVersion", [options.dseVendorVersion.value])] else [])
    + (if Truthy(options.dseAltServer) then [Change(ReplaceValues, "altServer", [options.dseAltServer.value])] else [])
  }

  function DseEntry(options: ServerOptions): EntryValue {
    EntryValue("", DseAttributes(options), DseChanges(options))
  }

  /** Looking a name up past a prefix that does not hold it. */
  lemma {:induction false} IndexOfPastPrefix(prefix: seq<Attribute>, rest: seq<Attribute>, name: string)
    requires forall k :: 0 <= k < |prefix| ==> prefix[k].name != name
    ensures IndexOf(prefix + rest, name) == (if IndexOf(rest, name).Some? then Some(IndexOf(rest, name).value + |prefix|) else None)
    ensures ValuesOf(prefix + rest, name) == ValuesOf(rest, name)
    decreases |prefix|
  {
    if prefix != [] {
      var all := prefix + rest;
      assert all[0] == prefix[0] && all[1..] == prefix[1..] + rest;
      IndexOfPastPrefix(prefix[1..], rest, name);
    }
    if IndexOf(rest, name).Some? {
      assert (prefix + rest)[IndexOf(rest, name).value + |prefix|] == rest[IndexOf(rest, name).value];
    }
  }

  /** Looking up a name that is in the prefix only looks at the prefix. */
  lemma {:induction false} IndexOfInPrefix(prefix: seq<Attribute>, rest: seq<Attribute>, name: string)
    requires IndexOf(prefix, name).Some?
    ensures ValuesOf(prefix + rest, name) == ValuesOf(prefix, name)
    decreases |prefix|
  {
    var all := prefix + rest;
    assert all[0] == prefix[0];
    if prefix[0].name != name {
      assert all[1..] == prefix[1..] + rest;
      IndexOfInPrefix(prefix[1..], rest, name);
    }
  }

  /** The lookup of one of the four mandatory names. */
  lemma MandatoryLookup(options: ServerOptions, name: string, i: nat)
    requires i < 4 && Mandatory(options)[i].name == name
    ensures ValuesOf(DseAttributes(options), name) == Some(Mandatory(options)[i].values)
  {
    var m := Mandatory(options);
    assert forall k :: 0 <= k < 4 && k != i ==> |m[k].name| != |m[i].name|;
    IndexOfInPrefix(m, PagingPart(options) + VendorVersionPart(options) + AltServerPart(options), name);
    assert DseAttributes(options) == m + (PagingPart(options) + VendorVersionPart(options) + AltServerPart(options));
  }

  /** A name that is none of the four mandatory ones is looked up among the optional attributes. */
  lemma PastMandatory(options: ServerOptions, name: string)
    requires name !in {"namingContexts", "supportedExtension", "supportedLDAPVersion", "vendorName"}
    ensures ValuesOf(DseAttributes(options), name) ==
      ValuesOf(PagingPart(options) + VendorVersionPart(options) + AltServerPart(options), name)
  {
    var m := Mandatory(options);
    IndexOfPastPrefix(m, PagingPart(options) + VendorVersionPart(options) + AltServerPart(options), name);
    assert DseAttributes(options) == m + (PagingPart(options) + VendorVersionPart(options) + AltServerPart(options));
  }

  /** The four mandatory attributes: the DN is '' and the values are the fixed or configured ones. */
  lemma DseHasMandatoryAttributes(options: ServerOptions)
    ensures DseEntry(options).dn == ""
    ensures ValuesOf(DseAttributes(options), "namingContexts") == Some(options.dseNamingContexts)
    ensures ValuesOf(DseAttributes(options), "supportedExtension").Some?
    ensures OID_WHOAMI in ValuesOf(DseAttributes(options), "supportedExtension").value
    ensures ValuesOf(DseAttributes(options), "supportedLDAPVersion") == Some(["3"])
    ensures ValuesOf(DseAttributes(options), "vendorName") == Some([options.dseVendorName])
  {
    MandatoryLookup(options, "namingContexts", 0);
    MandatoryLookup(options, "supportedExtension", 1);
    MandatoryLookup(options, "supportedLDAPVersion", 2);
    MandatoryLookup(options, "vendorName", 3);
  }

  /** The StartTLS OID is advertised exactly when a certificate is configured. */
  lemma StartTlsAdvertisedIffCert(options: ServerOptions)
    ensures ValuesOf(DseAttributes(options), "supportedExtension").Some?
    ensures OID_START_TLS in ValuesOf(DseAttributes(options), "supportedExtension").value <==> Truthy(options.sslCert)
  {
    MandatoryLookup(options, "supportedExtension", 1);
    assert OID_START_TLS != OID_WHOAMI by { assert OID_START_TLS[|OID_START_TLS| - 1] != OID_WHOAMI[|OID_WHOAMI| - 1]; }
  }

  /** The paging OID is advertised exactly when a paging handler is configured. */
  lemma PagingAdvertisedIffHandler(options: ServerOptions)
    ensures ValuesOf(DseAttributes(options), "supportedControl") ==
      (if options.hasPagingHandler then Some([OID_PAGING]) else None)
  {
    var rest := VendorVersionPart(options) + AltServerPart(options);
    PastMandatory(options, "supportedControl");
    assert PagingPart(options) + VendorVersionPart(options) + AltServerPart(options) == PagingPart(options) + rest;
    if options.hasPagingHandler {
      IndexOfInPrefix(PagingPart(options), rest, "supportedControl");
    } else {
      IndexOfPastPrefix(PagingPart(options), rest, "supportedControl");
      IndexOfPastPrefix(VendorVersionPart(options), AltServerPart(options), "supportedControl");
    }
  }

  /** vendorVersion is there exactly when one is configured, and then holds it. */
  lemma VendorVersionIffConfigured(options: ServerOptions)
    ensures ValuesOf(DseAttributes(options), "vendorVersion") ==
      (if Truthy(options.dseVendorVersion) then Some([options.dseVendorVersion.value]) else None)
  {
    PastMandatory(options, "vendorVersion");
    IndexOfPastPrefix(PagingPart(options), VendorVersionPart(options) + AltServerPart(options), "vendorVersion");
    assert PagingPart(options) + VendorVersionPart(options) + AltServerPart(options)
      == PagingPart(options) + (VendorVersionPart(options) + AltServerPart(options));
    if Truthy(options.dseVendorVersion) {
      IndexOfInPrefix(VendorVersionPart(options), AltServerPart(options), "vendorVersion");
    } else {
      IndexOfPastPrefix(VendorVersionPart(options), AltServerPart(options), "vendorVersion");
    }
  }

  /** altServer is there exactly when one is configured, and then holds it. */
  lemma AltServerIffConfigured(options: ServerOptions)
    ensures ValuesOf(DseAttributes(options), "altServer") ==
      (if Truthy(options.dseAltServer) then Some([options.dseAltServer.value]) else None)
  {
    PastMandatory(options, "altServer");
    IndexOfPastPrefix(PagingPart(options) + VendorVersionPart(options), AltServerPart(options), "altServer");
  }

  // ---------------------------------------------------------------- filtering

  /** Some requested attribute `equals` the entry attribute `a`. */
  predicate Requested(requested: seq<Attribute>, equals: AttributeEquals, a: Attribute) {
    exists k :: 0 <= k < |requested| && equals(requested[k], a)
  }

  /** The attributes that survive the filter, in their order in the entry. */
  function Survivors(requested: seq<Attribute>, equals: AttributeEquals, attrs: seq<Attribute>): seq<Attribute>
    decreases |attrs|
  {
    if attrs == [] then []
    else
      var last := attrs[|attrs| - 1];
      Survivors(requested, equals, attrs[..|attrs| - 1]) + (if Requested(requested, equals, last) then [last] else [])
  }

  /** Every entry attribute is requested, so nothing is removed. */
  predicate AllRequested(requested: seq<Attribute>, equals: AttributeEquals, attrs: seq<Attribute>) {
    forall i :: 0 <= i < |attrs| ==> Requested(requested, equals, attrs[i])
  }

  /** The same attributes with their values removed. */
  function NamesOnly(attrs: seq<Attribute>): (r: seq<Attribute>)
    ensures |r| == |attrs|
  {
    seq(|attrs|, i requires 0 <= i < |attrs| => Attribute(attrs[i].name, []))
  }

  /** filterEntryAttributes on an entry value. */
  function Filtered(request: SearchRequest, equals: AttributeEquals, e: EntryValue): EntryValue {
    var kept := if request.attributes != [] then Survivors(request.attributes, equals, e.attributes) else e.attributes;
    var narrowed := |kept| < |e.attributes|;
    EntryValue(
      e.dn,
      Shown(request.attributesOnly, kept),
      // each removal records a reset change and then empties the change log
      if narrowed then [] else e.changes)
  }

  /** An attribute survives exactly when it is in the entry and some requested attribute equals it. */
  lemma {:induction false} SurvivorsExactlyRequested(requested: seq<Attribute>, equals: AttributeEquals, attrs: seq<Attribute>, a: Attribute)
    ensures a in Survivors(requested, equals, attrs) <==> a in attrs && Requested(requested, equals, a)
    decreases |attrs|
  {
    if attrs != [] {
      var init := attrs[..|attrs| - 1];
      SurvivorsExactlyRequested(requested, equals, init, a);
      assert attrs == init + [attrs[|attrs| - 1]];
    }
  }

  /** The surviving attributes keep the entry's order: they are a subsequence of it. */
  lemma {:induction false} SurvivorsAreSubsequence(requested: seq<Attribute>, equals: AttributeEquals, attrs: seq<Attribute>)
    ensures |Survivors(requested, equals, attrs)| <= |attrs|
    ensures |Survivors(requested, equals, attrs)| == |attrs| <==> AllRequested(requested, equals, attrs)
    ensures AllRequested(requested, equals, attrs) ==> Survivors(requested, equals, attrs) == attrs
    decreases |attrs|
  {
    if attrs != [] {
      var init := attrs[..|attrs| - 1];
      SurvivorsAreSubsequence(requested, equals, init);
      assert forall i :: 0 <= i < |init| ==> init[i] == attrs[i];
      if !Requested(requested, equals, attrs[|attrs| - 1]) {
        assert !AllRequested(requested, equals, attrs);
      }
      if AllRequested(requested, equals, attrs) {
        assert AllRequested(requested, equals, init);
        assert attrs == init + [attrs[|attrs| - 1]];
      }
    }
  }

  /**
   * With a non-empty attribute list, an attribute is returned (by name) exactly
   * when it was requested; with attributesOnly, no value is returned; the
   * change log is emptied exactly when something was removed.
   */
  lemma FilterSelectsRequested(request: SearchRequest, equals: AttributeEquals, e: EntryValue, a: Attribute)
    requires request.attributes != []
    ensures !request.attributesOnly ==>
      (a in Filtered(request, equals, e).attributes <==> a in e.attributes && Requested(request.attributes, equals, a))
    ensures Filtered(request, equals, e).changes == (if AllRequested(request.attributes, equals, e.attributes) then e.changes else [])
    ensures Filtered(request, equals, e).dn == e.dn
  {
    SurvivorsExactlyRequested(request.attributes, equals, e.attributes, a);
    SurvivorsAreSubsequence(request.attributes, equals, e.attributes);
  }

  /** With attributesOnly every returned attribute keeps its name and has no values. */
  lemma AttributesOnlyDropsValues(request: SearchRequest, equals: AttributeEquals, e: EntryValue)
    requires request.attributesOnly
    ensures var kept := if request.attributes != [] then Survivors(request.attributes, equals, e.attributes) else e.attributes;
      var out := Filtered(request, equals, e).attributes;
      |out| == |kept| && forall i :: 0 <= i < |out| ==> out[i].name == kept[i].name && out[i].values == []
  {
  }

  /** An empty attribute list returns every attribute, and the entry is untouched unless attributesOnly. */
  lemma EmptyListKeepsAll(request: SearchRequest, equals: AttributeEquals, e: EntryValue)
    requires request.attributes == [] && !request.attributesOnly
    ensures Filtered(request, equals, e) == e
  {
  }

  /** One iteration of the filter loop, on the specification side. */
  lemma SurvivorsStep(requested: seq<Attribute>, equals: AttributeEquals, attrs: seq<Attribute>, j: nat)
    requires j < |attrs|
    ensures Survivors(requested, equals, attrs[..j + 1]) ==
      Survivors(requested, equals, attrs[..j]) + (if Requested(requested, equals, attrs[j]) then [attrs[j]] else [])
  {
    assert attrs[..j + 1][..j] == attrs[..j];
  }

  /** The attributes as they stand in the entry during the first loop. */
  function Shown(attributesOnly: bool, attrs: seq<Attribute>): (r: seq<Attribute>)
    ensures |r| == |attrs|
  {
    if attributesOnly then NamesOnly(attrs) else attrs
  }

  lemma ShownStep(attributesOnly: bool, kept: seq<Attribute>, a: Attribute, found: bool)
    ensures Shown(attributesOnly, kept + (if found then [a] else [])) ==
      Shown(attributesOnly, kept) + (if !found then [] else if attributesOnly then [Attribute(a.name, [])] else [a])
  {
    if found && attributesOnly {
      NamesOnlyAppend(kept, [a]);
    }
  }

  /** The pieces of a sequence split around one element. */
  lemma SplitAround(a: seq<Attribute>, x: Attribute, b: seq<Attribute>)
    ensures (a + [x] + b)[..|a|] == a && (a + [x] + b)[|a|] == x && (a + [x] + b)[|a| + 1..] == b
  {
  }

  lemma NamesOnlyAppend(a: seq<Attribute>, b: seq<Attribute>)
    ensures NamesOnly(a + b) == NamesOnly(a) + NamesOnly(b)
  {
  }

  /** Emptying the values twice is emptying them once. */
  lemma NamesOnlyIdempotent(attrs: seq<Attribute>)
    ensures NamesOnly(NamesOnly(attrs)) == NamesOnly(attrs)
  {
  }

  /** What handleRequest sends as the entry. */
  function RootDseReply(options: ServerOptions, message: LdapMessageRequest, token: Token,
                        equals: AttributeEquals, hook: Option<RootDseHook>): EntryValue
    requires message.request.Search?
  {
    var filtered := Filtered(message.request.search, equals, DseEntry(options));
    match hook
    case None => filtered
    case Some(h) => h(RequestContext(message.controls, token), message.request.search, filtered)
  }

  /** Without a RootDSE handler the filtered entry is sent; with one, whatever it returns for that entry. */
  lemma HandlerReplacesEntry(options: ServerOptions, message: LdapMessageRequest, token: Token,
                             equals: AttributeEquals, h: RootDseHook)
    requires message.request.Search?
    ensures RootDseReply(options, message, token, equals, None) == Filtered(message.request.search, equals, DseEntry(options))
    ensures RootDseReply(options, message, token, equals, Some(h)) ==
      h(RequestContext(message.controls, token), message.request.search, RootDseReply(options, message, token, equals, None))
  {
  }

  // ---------------------------------------------------------------- the handler

  class ServerRootDseHandler {
    const rootDseHandler: Option<RootDseHook>

    constructor(rootDseHandler: Option<RootDseHook> := None)
      ensures this.rootDseHandler == rootDseHandler
    {
      this.rootDseHandler := rootDseHandler;
    }

    /** The entry assembly at the start of handleRequest. */
    static method BuildEntry(options: ServerOptions) returns (entry: Entry)
      ensures fresh(entry)
      ensures entry.Value() == DseEntry(options)
    {
      var base := BaseAttributes(options);
      entry := new Entry.FromArray("", base);
      ghost var ext := [Attribute("supportedExtension", [OID_WHOAMI] + (if Truthy(options.sslCert) then [OID_START_TLS] else []))];
      ghost var a1 := base[1 := ext[0]];
      ghost var c1 := if Truthy(options.sslCert) then [Change(AddValues, "supportedExtension", [OID_START_TLS])] else [];
      if Truthy(options.sslCert) {
        assert IndexOf(base, "supportedExtension") == Some(1) by {
          assert base[0].name != "supportedExtension" && base[1].name == "supportedExtension";
        }
        entry.Add("supportedExtension", OID_START_TLS);
        assert entry.attributes == base[1 := Attribute("supportedExtension", [OID_WHOAMI] + [OID_START_TLS])];
      } else {
        assert [OID_WHOAMI] + [] == [OID_WHOAMI];
        assert base[1 := base[1]] == base;
      }
      assert entry.attributes == a1 && entry.changes == c1;
      assert a1 == Mandatory(options);
      AddNew(entry, options.hasPagingHandler, true, "supportedControl", OID_PAGING);
      AddNew(entry, Truthy(options.dseVendorVersion), false, "vendorVersion", options.dseVendorVersion.GetOr(""));
      AddNew(entry, Truthy(options.dseAltServer), false, "altServer", options.dseAltServer.GetOr(""));
    }

    /** One `if` of the assembly: add (or set) an attribute the entry does not have yet. */
    static method AddNew(entry: Entry, condition: bool, isAdd: bool, name: string, value: string)
      requires forall k :: 0 <= k < |entry.attributes| ==> entry.attributes[k].name != name
      modifies entry
      ensures entry.dn == old(entry.dn)
      ensures entry.attributes == old(entry.attributes) + Optional(condition, name, value)
      ensures entry.changes == old(entry.changes) +
        (if condition then [Change(if isAdd then AddValues else ReplaceValues, name, [value])] else [])
    {
      if condition {
        if isAdd {
          entry.Add(name, value);
        } else {
          entry.Set(name, value);
        }
      }
    }

    /** The inner loop: whether some requested attribute equals `a`. */
    static method IsRequested(requested: seq<Attribute>, equals: AttributeEquals, a: Attribute) returns (found: bool)
      ensures found == Requested(requested, equals, a)
    {
      found := false;
      var k := 0;
      while k < |requested|
        invariant 0 <= k <= |requested|
        invariant forall m :: 0 <= m < k ==> !equals(requested[m], a)
      {
        if equals(requested[k], a) {
          found := true;
          break;
        }
        k := k + 1;
      }
    }

    /** filterEntryAttributes: the entry afterwards is the filtered value. */
    static method FilterEntryAttributes(request: SearchRequest, equals: AttributeEquals, entry: Entry)
      modifies entry
      ensures entry.Value() == Filtered(request, equals, old(entry.Value()))
    {
      if |request.attributes| != 0 {
        SurvivorsAreSubsequence(request.attributes, equals, entry.attributes);
        KeepRequested(request, equals, entry);
      }
      if request.attributesOnly {
        ghost var before := entry.attributes;
        DropValues(entry);
        if |request.attributes| != 0 {
          NamesOnlyIdempotent(Survivors(request.attributes, equals, old(entry.attributes)));
        }
      }
    }

    /** The first loop of filterEntryAttributes: remove what was not requested. */
    static method KeepRequested(request: SearchRequest, equals: AttributeEquals, entry: Entry)
      requires request.attributes != []
      modifies entry
      ensures entry.dn == old(entry.dn)
      ensures entry.attributes == Shown(request.attributesOnly, Survivors(request.attributes, equals, old(entry.attributes)))
      ensures entry.changes == (if |Survivors(request.attributes, equals, old(entry.attributes))| == |old(entry.attributes)| then old(entry.changes) else [])
    {
      var snapshot := entry.attributes;
      var j := 0;
      // the entry only holds the survivors before snapshot[j], so that is where snapshot[j] is
      var p := 0;
      ghost var kept: seq<Attribute> := [];
      while j < |snapshot|
        invariant 0 <= j <= |snapshot| && snapshot == old(entry.attributes)
        invariant kept == Survivors(request.attributes, equals, snapshot[..j]) && p == |kept| <= j
        invariant entry.dn == old(entry.dn)
        invariant entry.attributes == Shown(request.attributesOnly, kept) + snapshot[j..]
        invariant entry.changes == (if |kept| == j then old(entry.changes) else [])
      {
        var found := FilterOne(request, equals, entry, p, kept, snapshot[j..]);
        SurvivorsStep(request.attributes, equals, snapshot, j);
        assert snapshot[j..][1..] == snapshot[j + 1..];
        if found {
          p := p + 1;
          kept := kept + [snapshot[j]];
        }
        j := j + 1;
      }
      assert snapshot[..j] == snapshot;
    }

    /** One iteration of the first loop, on the attribute at position p. */
    static method FilterOne(request: SearchRequest, equals: AttributeEquals, entry: Entry, p: nat,
                            ghost kept: seq<Attribute>, ghost after: seq<Attribute>) returns (found: bool)
      requires after != [] && p == |kept| && entry.attributes == Shown(request.attributesOnly, kept) + after
      modifies entry
      ensures found == Requested(request.attributes, equals, after[0])
      ensures entry.dn == old(entry.dn)
      ensures found ==> entry.changes == old(entry.changes)
      ensures !found ==> entry.changes == []
      ensures entry.attributes == Shown(request.attributesOnly, kept + (if found then [after[0]] else [])) + after[1..]
    {
      ghost var before := Shown(request.attributesOnly, kept);
      SplitAround(before, after[0], after[1..]);
      assert entry.attributes == before + [after[0]] + after[1..];
      found := IsRequested(request.attributes, equals, entry.attributes[p]);
      ShownStep(request.attributesOnly, kept, after[0], found);
      if found && request.attributesOnly {
        entry.ResetValues(p);
      }
      if !found {
        entry.Reset(p);
        entry.ResetChanges();
      }
    }

    /** The second loop of filterEntryAttributes: Attribute::reset() on every attribute. */
    static method DropValues(entry: Entry)
      modifies entry
      ensures entry.dn == old(entry.dn) && entry.changes == old(entry.changes)
      ensures entry.attributes == NamesOnly(old(entry.attributes))
    {
      var i := 0;
      while i < |entry.attributes|
        invariant 0 <= i <= |entry.attributes| == |old(entry.attributes)|
        invariant entry.dn == old(entry.dn) && entry.changes == old(entry.changes)
        invariant forall m :: 0 <= m < i ==> entry.attributes[m] == Attribute(old(entry.attributes)[m].name, [])
        invariant forall m :: i <= m < |entry.attributes| ==> entry.attributes[m] == old(entry.attributes)[m]
      {
        entry.ResetValues(i);
        i := i + 1;
      }
    }

    /**
     * handleRequest: one sendMessage call with the (filtered, possibly
     * replaced) RootDSE entry and a SUCCESS SearchResultDone, both for the
     * request's message id.
     */
    method HandleRequest(message: LdapMessageRequest, token: Token, options: ServerOptions,
                         equals: AttributeEquals, queue: ServerQueue)
      requires message.request.Search?
      modifies queue`sent
      ensures queue.sent == old(queue.sent) + [[
        SearchResultEntry(message.messageId, RootDseReply(options, message, token, equals, rootDseHandler)),
        SearchResultDone(message.messageId, SUCCESS)]]
    {
      var entry := BuildEntry(options);
      var request := message.request.search;
      FilterEntryAttributes(request, equals, entry);
      var value := entry.Value();
      if rootDseHandler.Some? {
        value := rootDseHandler.value(RequestContext(message.controls, token), request, value);
      }
      queue.SendMessage([SearchResultEntry(message.messageId, value), SearchResultDone(message.messageId, SUCCESS)]);
    }
  }
}
