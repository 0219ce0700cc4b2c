/**
 * A reference adapter with no cache: every call is sent straight to the
 * page. The eliding adapter is meant to be indistinguishable from it.
 */
module PlainAdapter {
  import opened Wrappers
  import opened FillTypes
  import Page
  import opened Session

  /** Performs the calls in order on a bare page, stopping at the first that throws. */
  function PlainRun(page: Page.Trace, calls: seq<Call>): (r: Result<Page.Trace, Error>)
    ensures r.Success? <==> forall i :: 0 <= i < |calls| ==> Forwarded(calls[i]).Success?
    ensures r.Success? ==> |r.value| == |page| + |calls| && r.value[..|page|] == page
    ensures r.Success? ==> forall i :: 0 <= i < |calls| ==> r.value[|page| + i] == Forwarded(calls[i]).value
    ensures r.Failure? ==> exists i :: 0 <= i < |calls| && Forwarded(calls[i]) == Failure(r.error)
    decreases |calls|
  {
    if calls == [] then Success(page)
    else
      var op :- Forwarded(calls[0]);
      PlainRun(page + [op], calls[1..])
  }
}
