/** PagingResponse: what a server paging handler returns for one page. */
module PagingResponses {
  import opened Entries

  /** The fields are the getters getEntries, isComplete and getRemaining. */
  datatype PagingResponse = PagingResponse(entries: seq<EntryValue>, isComplete: bool, remaining: int)

  /** The public constructor with its defaults. */
  function New(entries: seq<EntryValue>, isComplete: bool := false, remaining: int := 0): (r: PagingResponse)
    ensures r.entries == entries && r.isComplete == isComplete && r.remaining == remaining
  {
    PagingResponse(entries, isComplete, remaining)
  }

  /** make: a page with more results still to come. */
  function Make(entries: seq<EntryValue>, remaining: int := 0): (r: PagingResponse)
    ensures !r.isComplete && r.remaining == remaining && r.entries == entries
  {
    New(entries, false, remaining)
  }

  /** makeFinal: the last page; nothing remains. */
  function MakeFinal(entries: seq<EntryValue>): (r: PagingResponse)
    ensures r.isComplete && r.remaining == 0 && r.entries == entries
  {
    New(entries, true)
  }
}
