/**
 * The quarterly-update records the backend returns, the calls the views
 * make on the API client, and the `find` searches they run over a list.
 */
module Models {
  import opened Wrappers

  const DRAFT := "Draft"
  const SUBMITTED := "Submitted"

  /** One quarterly update; every member may be absent in a response. */
  datatype QuarterlyUpdate = QuarterlyUpdate(
    id: Option<string>,
    quarterName: Option<string>,
    taxYear: Option<string>,
    status: Option<string>,
    taxableIncome: Option<int>,
    allowableExpenses: Option<int>)

  /** The body of the quarters list call; `quarters` may be missing. */
  datatype QuartersResponse = QuartersResponse(quarters: Option<seq<QuarterlyUpdate>>)

  /** `value || 0` for an amount. */
  function OrZero(o: Option<int>): (r: int)
    ensures o.Some? ==> r == o.value
    ensures o.None? ==> r == 0
  {
    o.GetOr(0)
  }

  /** `Array.prototype.find` as a position: the first quarter satisfying `p`. */
  function FindIndex(qs: seq<QuarterlyUpdate>, p: QuarterlyUpdate -> bool): (r: Option<nat>)
    ensures r.Some? ==> r.value < |qs| && p(qs[r.value])
    ensures r.Some? ==> forall j :: 0 <= j < r.value ==> !p(qs[j])
    ensures r.None? ==> forall j :: 0 <= j < |qs| ==> !p(qs[j])
  {
    if qs == [] then None
    else if p(qs[0]) then Some(0)
    else
      match FindIndex(qs[1..], p)
      case Some(i) => Some(i + 1)
      case None => None
  }

  /** The position of the first quarter whose status is exactly `status`. */
  function FirstWithStatus(qs: seq<QuarterlyUpdate>, status: string): (r: Option<nat>)
    ensures r.Some? ==> r.value < |qs| && qs[r.value].status == Some(status)
    ensures r.Some? ==> forall j :: 0 <= j < r.value ==> qs[j].status != Some(status)
    ensures r.None? ==> forall j :: 0 <= j < |qs| ==> qs[j].status != Some(status)
  {
    FindIndex(qs, (q: QuarterlyUpdate) => q.status == Some(status))
  }

  /** The position of the first quarter whose id is `id`. */
  function FirstWithId(qs: seq<QuarterlyUpdate>, id: string): (r: Option<nat>)
    ensures r.Some? ==> r.value < |qs| && qs[r.value].id == Some(id)
    ensures r.Some? ==> forall j :: 0 <= j < r.value ==> qs[j].id != Some(id)
    ensures r.None? ==> forall j :: 0 <= j < |qs| ==> qs[j].id != Some(id)
  {
    FindIndex(qs, (q: QuarterlyUpdate) => q.id == Some(id))
  }

  /** The edit page of quarter `id`: the URL of the router commands `['/quarters/edit', id]`. */
  function EditUrl(id: string): (url: string)
    ensures |url| >= 15 && url[..15] == "/quarters/edit/" && url[15..] == id
  {
    "/quarters/edit/" + id
  }

  /** A call made through the API client. */
  datatype ApiCall =
    | GetQuarters
    | PutQuarter(id: string, taxableIncome: Option<int>, allowableExpenses: Option<int>)
    | SubmitQuarter(id: string)

  /** The API client; `calls` lists the calls made, oldest first. */
  class Api {
    var calls: seq<ApiCall>

    constructor()
      ensures calls == []
    {
      calls := [];
    }

    method Invoke(call: ApiCall)
      modifies this
      ensures calls == old(calls) + [call]
    {
      calls := calls + [call];
    }
  }
}
