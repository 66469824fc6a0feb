/**
 * The quarters list page (Quarters): loading the list, remembering the
 * first draft, and opening it for editing.
 */
module QuartersPage {
  import opened Wrappers
  import opened Platform
  import opened Models
  import Session

  const NO_DATA_MSG := "No quarterly data received."
  const LOAD_FAILED_MSG := "Failed to load quarterly updates. Please try again."
  const NO_DRAFT_MSG := "No draft quarters available to edit. Please register a business first, or all quarters are submitted."

  /** `draft.id ?? null` for the first draft of `qs`, if there is one. */
  function FirstDraftId(qs: seq<QuarterlyUpdate>): (r: Option<Option<string>>)
    ensures r.None? <==> forall j :: 0 <= j < |qs| ==> qs[j].status != Some(DRAFT)
    ensures r.Some? ==> exists i :: 0 <= i < |qs| && qs[i].status == Some(DRAFT) && r.value == qs[i].id &&
                                    forall j :: 0 <= j < i ==> qs[j].status != Some(DRAFT)
  {
    match FirstWithStatus(qs, DRAFT)
    case Some(i) => Some(qs[i].id)
    case None => None
  }

  class Quarters {
    const auth: Session.AuthService
    const api: Api
    var quarters: seq<QuarterlyUpdate>
    var loading: bool
    var error: Option<string>
    var firstDraftQuarterId: Option<string>

    constructor(auth: Session.AuthService, api: Api)
      ensures this.auth == auth && this.api == api
      ensures quarters == [] && loading && error.None? && firstDraftQuarterId.None?
    {
      this.auth := auth;
      this.api := api;
      quarters := [];
      loading := true;
      error := None;
      firstDraftQuarterId := None;
    }

    /** fetchQuarters, where `response` is the outcome of the list call (`Ok(None)` for a null body). */
    method FetchQuarters(response: ApiResult<Option<QuartersResponse>>)
      modifies this, api, auth, auth.router
      ensures api.calls == old(api.calls) + [GetQuarters]
      ensures !loading
      ensures response.Ok? && response.body.Some? && response.body.value.quarters.Some? ==>
        var qs := response.body.value.quarters.value;
        && quarters == qs && error.None?
        && firstDraftQuarterId == match FirstDraftId(qs) { case Some(id) => id case None => old(firstDraftQuarterId) }
      ensures response.Ok? && !(response.body.Some? && response.body.value.quarters.Some?) ==>
        quarters == [] && error == Some(NO_DATA_MSG) && firstDraftQuarterId == old(firstDraftQuarterId)
      ensures response.Err? ==>
        quarters == old(quarters) && error == Some(LOAD_FAILED_MSG) && firstDraftQuarterId == old(firstDraftQuarterId)
      ensures response.Err? && IsAuthFailure(response.error.status) ==>
        auth.State() == Session.Cleared(old(auth.State())) && auth.router.log == old(auth.router.log) + ["/auth", "/auth/login"]
      ensures !(response.Err? && IsAuthFailure(response.error.status)) ==>
        auth.State() == old(auth.State()) && auth.router.log == old(auth.router.log)
    {
      loading := true;
      error := None;
      api.Invoke(GetQuarters);
      match response
      case Ok(body) =>
        if body.Some? && body.value.quarters.Some? {
          quarters := body.value.quarters.value;
          var draft := FirstWithStatus(quarters, DRAFT);
          if draft.Some? {
            firstDraftQuarterId := quarters[draft.value].id;
          }
        } else {
          quarters := [];
          error := Some(NO_DATA_MSG);
        }
        loading := false;
      case Err(err) =>
        error := Some(LOAD_FAILED_MSG);
        loading := false;
        if IsAuthFailure(err.status) {
          auth.Logout();
          auth.router.Navigate("/auth/login");
        }
    }

    method NavigateToEditFirstDraft()
      modifies this, auth.router
      ensures Truthy(firstDraftQuarterId) ==>
        auth.router.log == old(auth.router.log) + [EditUrl(firstDraftQuarterId.value)] && error == old(error)
      ensures !Truthy(firstDraftQuarterId) ==>
        auth.router.log == old(auth.router.log) && error == Some(NO_DRAFT_MSG)
      ensures quarters == old(quarters) && loading == old(loading) && firstDraftQuarterId == old(firstDraftQuarterId)
    {
      if Truthy(firstDraftQuarterId) {
        auth.router.Navigate(EditUrl(firstDraftQuarterId.value));
      } else {
        error := Some(NO_DRAFT_MSG);
      }
    }
  }
}
