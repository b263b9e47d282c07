/**
 * The client's simple-paging cursor (RFC 2696 paged results).  A cursor
 * holds the search it pages through, the page size, the last paging
 * control the server returned, whether paging has ended, and whether the
 * paging control it sends is critical.  Every page is one search sent
 * with a paging control (size, cookie); the server's reply to it is an
 * input of each step, since the client and the server are not modelled.
 */
module SearchPaging {
  import opened Wrappers
  import opened LdapProtocol
  import opened Entries

  /** A paging control: the size (request) or estimate (response), and the cookie. */
  datatype PagingControl = PagingControl(size: int, cookie: string)

  /** The control a response carries under the paging OID. */
  datatype ResponseControl =
    | PagingReply(control: PagingControl)
    /** a control under the paging OID that is some other class */
    | ForeignControl(className: string)

  /** The search response to one page request: its paging control, if any, and its entries. */
  datatype SearchReply = SearchReply(control: Option<ResponseControl>, entries: seq<EntryValue>)

  /** One sendAndReceive call: the search and the paging control sent with it. */
  datatype PageRequest = PageRequest(search: SearchRequest, control: PagingControl, criticality: bool)

  /** The cursor's fields, plus the log of requests it has sent. */
  datatype PagingState = PagingState(
    search: SearchRequest,
    size: int,
    control: Option<PagingControl>,
    ended: bool,
    isCritical: bool,
    sent: seq<PageRequest>)

  /** The outcome of one send: the entries or the exception, and the state afterwards. */
  datatype Step = Step(result: Result<seq<EntryValue>, Exception>, next: PagingState)

  const DEFAULT_SIZE: int := 1000

  const NO_CONTROL: Exception := ProtocolException("Expected a paging control, but received none.")

  function WrongControl(className: string): Exception {
    ProtocolException("Expected a paging control, but received: " + className + ".")
  }

  /** A fresh cursor: no control, not ended, not critical, nothing sent. */
  function Initial(search: SearchRequest, size: int := DEFAULT_SIZE): PagingState {
    PagingState(search, size, None, false, false, [])
  }

  /** The cookie a request carries: the stored control's, or '' before the first page. */
  function Cookie(st: PagingState): string {
    if st.control.Some? then st.control.value.cookie else ""
  }

  /** hasEntries. */
  predicate EntriesRemain(st: PagingState) {
    !st.ended && (st.control.None? || st.control.value.cookie != "")
  }

  /** sizeEstimate. */
  function Estimate(st: PagingState): Option<int> {
    if st.control.Some? then Some(st.control.value.size) else None
  }

  /** start: a new search, the given size or the old one, no control, not ended. */
  function Restart(st: PagingState, search: SearchRequest, size: Option<int>): PagingState {
    st.(search := search, size := size.GetOr(st.size), control := None, ended := false)
  }

  /**
   * send: one request with the stored cookie and the given (or stored) size;
   * `reply` is what sendAndReceive returned or threw.
   */
  function SendStep(st: PagingState, size: Option<int>, reply: Result<SearchReply, Exception>): (r: Step)
    // the request sent, whatever happens next
    ensures r.next.sent == st.sent + [PageRequest(st.search, PagingControl(size.GetOr(st.size), Cookie(st)), st.isCritical)]
    // a failed send leaves every field as it was
    ensures r.result.Failure? ==> r.next == st.(sent := r.next.sent)
    ensures r.result.Success? <==>
      && reply.Success?
      && (reply.value.control.None? || reply.value.control.value.PagingReply?)
      && !(reply.value.control.None? && size != Some(0) && st.isCritical)
    ensures r.result.Success? ==>
      && r.result.value == reply.value.entries
      && r.next.control == (if reply.value.control.Some? then Some(reply.value.control.value.control) else None)
      && r.next.ended == (st.ended || (reply.value.control.None? && size != Some(0)))
      && r.next.search == st.search && r.next.size == st.size && r.next.isCritical == st.isCritical
  {
    var request := PageRequest(st.search, PagingControl(size.GetOr(st.size), Cookie(st)), st.isCritical);
    var st1 := st.(sent := st.sent + [request]);
    match reply
    case Failure(e) => Step(Failure(e), st1)
    case Success(response) =>
      match response.control
      case Some(ForeignControl(className)) => Step(Failure(WrongControl(className)), st1)
      case Some(PagingReply(c)) => Step(Success(response.entries), st1.(control := Some(c)))
      case None =>
        if size != Some(0) && st.isCritical then Step(Failure(NO_CONTROL), st1)
        else if size != Some(0) then Step(Success(response.entries), st1.(control := None, ended := true))
        else Step(Success(response.entries), st1.(control := None))
  }

  /** end: a size-0 request, then ended; a send that throws leaves ended as it was. */
  function EndStep(st: PagingState, reply: Result<SearchReply, Exception>): Step {
    var step := SendStep(st, Some(0), reply);
    if step.result.Failure? then step else Step(step.result, step.next.(ended := true))
  }

  // ---------------------------------------------------------------- properties

  /** After a successful end() there is nothing left to fetch. */
  lemma NoEntriesAfterEnd(st: PagingState, reply: Result<SearchReply, Exception>)
    ensures EndStep(st, reply).result.Success? ==> !EntriesRemain(EndStep(st, reply).next)
  {
  }

  /**
   * end() sends size 0: a reply without a paging control is accepted even
   * when the control is critical, and it does not take the non-critical branch.
   */
  lemma EndAcceptsMissingControl(st: PagingState, entries: seq<EntryValue>)
    ensures SendStep(st, Some(0), Success(SearchReply(None, entries))) ==
      Step(Success(entries), st.(sent := st.sent + [PageRequest(st.search, PagingControl(0, Cookie(st)), st.isCritical)], control := None))
    ensures EndStep(st, Success(SearchReply(None, entries))).result == Success(entries)
  {
  }

  /** A non-critical page of non-zero size that comes back without a control ends the paging. */
  lemma MissingControlEndsNonCritical(st: PagingState, size: Option<int>, entries: seq<EntryValue>)
    requires !st.isCritical && size != Some(0)
    ensures var step := SendStep(st, size, Success(SearchReply(None, entries)));
      step.result == Success(entries) && !EntriesRemain(step.next)
  {
  }

  /** A critical page of non-zero size that comes back without a control is a protocol error. */
  lemma MissingControlRaisesCritical(st: PagingState, size: Option<int>, entries: seq<EntryValue>)
    requires st.isCritical && size != Some(0)
    ensures SendStep(st, size, Success(SearchReply(None, entries))).result == Failure(NO_CONTROL)
  {
  }

  /** A control of the wrong class under the paging OID is a protocol error, critical or not. */
  lemma ForeignControlRaises(st: PagingState, size: Option<int>, className: string, entries: seq<EntryValue>)
    ensures SendStep(st, size, Success(SearchReply(Some(ForeignControl(className)), entries))).result
      == Failure(WrongControl(className))
  {
  }

  /** Before end(), whether more pages remain depends only on the last cookie. */
  lemma EntriesRemainFollowsCookie(st: PagingState, size: Option<int>, c: PagingControl, entries: seq<EntryValue>)
    requires !st.ended
    ensures var step := SendStep(st, size, Success(SearchReply(Some(PagingReply(c)), entries)));
      EntriesRemain(step.next) <==> c.cookie != ""
  {
  }

  /** Replies with cookies c1, c2 and then '' leave entries, entries, and then none. */
  lemma CookieSequence(search: SearchRequest, c1: string, c2: string, n: int,
                       e1: seq<EntryValue>, e2: seq<EntryValue>, e3: seq<EntryValue>)
    requires c1 != "" && c2 != ""
    ensures var s0 := Initial(search);
      var s1 := SendStep(s0, None, Success(SearchReply(Some(PagingReply(PagingControl(n, c1))), e1))).next;
      var s2 := SendStep(s1, None, Success(SearchReply(Some(PagingReply(PagingControl(n, c2))), e2))).next;
      var s3 := SendStep(s2, None, Success(SearchReply(Some(PagingReply(PagingControl(n, ""))), e3))).next;
      && EntriesRemain(s0) && EntriesRemain(s1) && EntriesRemain(s2) && !EntriesRemain(s3)
      && s3.sent == [PageRequest(search, PagingControl(DEFAULT_SIZE, ""), false),
                     PageRequest(search, PagingControl(DEFAULT_SIZE, c1), false),
                     PageRequest(search, PagingControl(DEFAULT_SIZE, c2), false)]
  {
    var s0 := Initial(search);
    var s1 := SendStep(s0, None, Success(SearchReply(Some(PagingReply(PagingControl(n, c1))), e1))).next;
    EntriesRemainFollowsCookie(s0, None, PagingControl(n, c1), e1);
    var s2 := SendStep(s1, None, Success(SearchReply(Some(PagingReply(PagingControl(n, c2))), e2))).next;
    EntriesRemainFollowsCookie(s1, None, PagingControl(n, c2), e2);
    EntriesRemainFollowsCookie(s2, None, PagingControl(n, ""), e3);
  }

  /** start forgets the control and the end of the previous paging, and keeps the size unless one is given. */
  lemma RestartResets(st: PagingState, search: SearchRequest, size: Option<int>)
    ensures var s := Restart(st, search, size);
      && s.control.None? && !s.ended && s.search == search
      && (size.None? ==> s.size == st.size) && (size.Some? ==> s.size == size.value)
      && EntriesRemain(s) && Estimate(s).None?
  {
  }

  /** sizeEstimate is the estimate of the last control the server returned. */
  lemma EstimateIsLastControlSize(st: PagingState, size: Option<int>, c: PagingControl, entries: seq<EntryValue>)
    ensures Estimate(SendStep(st, size, Success(SearchReply(Some(PagingReply(c)), entries))).next) == Some(c.size)
  {
  }

  // ---------------------------------------------------------------- the cursor

  class Paging {
    var search: SearchRequest
    var size: int
    var control: Option<PagingControl>
    var ended: bool
    var isCritical: bool
    /** what the client has been asked to send */
    var sent: seq<PageRequest>

    function State(): PagingState
      reads this
    {
      PagingState(search, size, control, ended, isCritical, sent)
    }

    constructor(search: SearchRequest, size: int := DEFAULT_SIZE)
      ensures State() == Initial(search, size)
    {
      this.search := search;
      this.size := size;
      control := None;
      ended := false;
      isCritical := false;
      sent := [];
    }

    method IsCritical(isCritical: bool := true)
      modifies this`isCritical
      ensures State() == old(State()).(isCritical := isCritical)
    {
      this.isCritical := isCritical;
    }

    method Start(search: SearchRequest, size: Option<int> := None)
      modifies this
      ensures State() == Restart(old(State()), search, size)
    {
      this.size := size.GetOr(this.size);
      this.search := search;
      control := None;
      ended := false;
    }

    method End(reply: Result<SearchReply, Exception>) returns (error: Option<Exception>)
      modifies this
      ensures State() == EndStep(old(State()), reply).next
      ensures error.Some? <==> EndStep(old(State()), reply).result.Failure?
      ensures error.Some? ==> error.value == EndStep(old(State()), reply).result.error
    {
      var r := Send(Some(0), reply);
      if r.Failure? {
        return Some(r.error);
      }
      ended := true;
      return None;
    }

    method GetEntries(size: Option<int>, reply: Result<SearchReply, Exception>)
      returns (r: Result<seq<EntryValue>, Exception>)
      modifies this
      ensures r == SendStep(old(State()), size, reply).result
      ensures State() == SendStep(old(State()), size, reply).next
    {
      r := Send(size, reply);
    }

    function HasEntries(): bool
      reads this
    {
      EntriesRemain(State())
    }

    function SizeEstimate(): Option<int>
      reads this
    {
      Estimate(State())
    }

    method Send(size: Option<int>, reply: Result<SearchReply, Exception>)
      returns (r: Result<seq<EntryValue>, Exception>)
      modifies this
      ensures r == SendStep(old(State()), size, reply).result
      ensures State() == SendStep(old(State()), size, reply).next
    {
      var cookie := if control.Some? then control.value.cookie else "";
      sent := sent + [PageRequest(search, PagingControl(size.GetOr(this.size), cookie), isCritical)];
      if reply.Failure? {
        return Failure(reply.error);
      }
      var response := reply.value;
      if response.control.Some? && response.control.value.ForeignControl? {
        return Failure(WrongControl(response.control.value.className));
      }
      if response.control.None? && size != Some(0) && isCritical {
        return Failure(NO_CONTROL);
      }
      if response.control.None? && size != Some(0) && !isCritical {
        ended := true;
      }
      control := if response.control.Some? then Some(response.control.value.control) else None;
      return Success(response.entries);
    }
  }
}
