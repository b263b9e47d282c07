/**
 * SearchResult: the server-side representation of a search outcome.  Its
 * constructor is private, so every value is made by one of the two named
 * constructors below; an error result never carries SUCCESS.
 */
module SearchResults {
  import opened Wrappers
  import opened Entries
  import opened LdapProtocol

  /** The fields are the getters getEntries, getBaseDn, getResultCode, getDiagnosticMessage. */
  datatype SearchResult = SearchResult(entries: seq<EntryValue>, baseDn: string, resultCode: int, diagnosticMessage: string)

  const SUCCESS_CODE_ON_ERROR: Exception :=
    InvalidArgumentException("You must not return a success result code on a search error.")

  /** makeSuccessResult. */
  function MakeSuccessResult(entries: seq<EntryValue>, baseDn: string := "", diagnosticMessage: string := ""): (r: SearchResult)
    ensures r.resultCode == SUCCESS
    ensures r.entries == entries && r.baseDn == baseDn && r.diagnosticMessage == diagnosticMessage
  {
    SearchResult(entries, baseDn, SUCCESS, diagnosticMessage)
  }

  /** makeErrorResult: refuses SUCCESS; a missing entry set becomes the empty one. */
  function MakeErrorResult(resultCode: int, baseDn: string := "", diagnosticMessage: string := "",
                           entries: Option<seq<EntryValue>> := None): (r: Result<SearchResult, Exception>)
    ensures r.Failure? <==> resultCode == SUCCESS
    ensures r.Failure? ==> r.error == SUCCESS_CODE_ON_ERROR
    ensures r.Success? ==> r.value.resultCode == resultCode && r.value.resultCode != SUCCESS
    ensures r.Success? ==> r.value.baseDn == baseDn && r.value.diagnosticMessage == diagnosticMessage
    ensures r.Success? && entries.None? ==> r.value.entries == []
    ensures r.Success? && entries.Some? ==> r.value.entries == entries.value
  {
    if resultCode == SUCCESS then Failure(SUCCESS_CODE_ON_ERROR)
    else Success(SearchResult(entries.GetOr([]), baseDn, resultCode, diagnosticMessage))
  }
}
