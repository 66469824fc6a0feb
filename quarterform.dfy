/**
 * The quarter edit form (QuarterForm): find a draft to edit, load a
 * quarter into the form, and save (PUT) and optionally submit (POST) it.
 */
module QuarterFormPage {
  import opened Wrappers
  import opened Platform
  import opened Models
  import Session

  const INVALID_FORM_MSG := "Please correct the highlighted errors."
  const MISSING_ID_MSG := "Cannot perform operation: Quarter ID is missing."
  const ALREADY_SUBMITTED_MSG := "Cannot edit or submit a quarter that has already been submitted."
  const OPERATION_FAILED_MSG := "Failed to perform quarter operation. Please try again."
  const NO_DRAFT_MSG := "No draft quarters available to edit. Please register a business first (which generates initial drafts)."
  const FIND_DRAFT_FAILED_MSG := "Failed to load quarters to find a draft. Please try again."
  const NOT_FOUND_MSG := "Quarter not found."
  const DETAILS_FAILED_MSG := "Failed to load quarter details. Please try again."
  const LOCKED_MSG := "This quarter has already been submitted and cannot be edited."

  /** The two form controls' values, whether the form is disabled, and whether it was marked touched. */
  datatype FormState = FormState(taxableIncome: Option<int>, allowableExpenses: Option<int>, disabled: bool, touched: bool)

  /** The form initForm builds: both amounts 0, enabled, untouched. */
  function InitialForm(): FormState
  {
    FormState(Some(0), Some(0), false, false)
  }

  /** A control with the `required` and `min(0)` validators. */
  predicate ControlValid(v: Option<int>)
  {
    v.Some? && v.value >= 0
  }

  /** The form's `valid`: a disabled form is not valid. */
  predicate FormValid(f: FormState)
  {
    !f.disabled && ControlValid(f.taxableIncome) && ControlValid(f.allowableExpenses)
  }

  /** The quarter's amounts patched into the form (0 when absent), disabled if the quarter is submitted. */
  function PatchFromQuarter(f: FormState, q: QuarterlyUpdate): (r: FormState)
    ensures r.taxableIncome == Some(OrZero(q.taxableIncome)) && r.allowableExpenses == Some(OrZero(q.allowableExpenses))
    ensures r.disabled == (f.disabled || q.status == Some(SUBMITTED)) && r.touched == f.touched
  {
    FormState(Some(OrZero(q.taxableIncome)), Some(OrZero(q.allowableExpenses)),
              f.disabled || q.status == Some(SUBMITTED), f.touched)
  }

  /** The error onSubmit stops with before calling the API, checked in the source's order; `None` when it proceeds. */
  function SubmitBlocker(f: FormState, quarterId: Option<string>, details: Option<QuarterlyUpdate>): (r: Option<string>)
    ensures r == Some(INVALID_FORM_MSG) <==> !FormValid(f)
    ensures r == Some(MISSING_ID_MSG) <==> FormValid(f) && !Truthy(quarterId)
    ensures r == Some(ALREADY_SUBMITTED_MSG) <==>
      FormValid(f) && Truthy(quarterId) && details.Some? && details.value.status == Some(SUBMITTED)
    ensures r.None? <==>
      FormValid(f) && Truthy(quarterId) && !(details.Some? && details.value.status == Some(SUBMITTED))
  {
    if !FormValid(f) then Some(INVALID_FORM_MSG)
    else if !Truthy(quarterId) then Some(MISSING_ID_MSG)
    else if details.Some? && details.value.status == Some(SUBMITTED) then Some(ALREADY_SUBMITTED_MSG)
    else None
  }

  /** `err.error?.message || err.message || <default>`. */
  function ErrorMessage(e: HttpError): (r: string)
    ensures r != ""
    ensures Truthy(e.errorMessage) ==> r == e.errorMessage.value
    ensures !Truthy(e.errorMessage) && Truthy(e.message) ==> r == e.message.value
    ensures !Truthy(e.errorMessage) && !Truthy(e.message) ==> r == OPERATION_FAILED_MSG
  {
    if Truthy(e.errorMessage) then e.errorMessage.value
    else if Truthy(e.message) then e.message.value
    else OPERATION_FAILED_MSG
  }

  datatype UpdateResponse = UpdateResponse(id: Option<string>)
  datatype SubmissionDetails = SubmissionDetails(refNumber: Option<string>)
  datatype SubmissionResponse = SubmissionResponse(id: Option<string>, submissionDetails: Option<SubmissionDetails>)

  function SavedMessage(r: UpdateResponse): string
  {
    "Quarter " + JsString(r.id) + " saved as draft successfully!"
  }

  function SubmittedMessage(r: SubmissionResponse): string
  {
    "Quarter " + JsString(r.id) + " submitted successfully! Ref: " + JsString(RefNumber(r))
  }

  /** The failure that ends a submission that got past its checks: the PUT's, else the POST's if one was made. */
  function FirstFailure(submit: bool, put: ApiResult<UpdateResponse>, post: ApiResult<SubmissionResponse>): (r: Option<HttpError>)
    ensures r.None? <==> put.Ok? && (submit ==> post.Ok?)
    ensures put.Err? ==> r == Some(put.error)
    ensures put.Ok? && submit && post.Err? ==> r == Some(post.error)
  {
    if put.Err? then Some(put.error)
    else if submit && post.Err? then Some(post.error)
    else None
  }

  /** The form initForm builds is valid and enabled; a missing or negative amount makes any form invalid. */
  lemma InitialFormValidity(f: FormState)
    ensures FormValid(InitialForm()) && !InitialForm().touched
    ensures (f.taxableIncome.None? || f.taxableIncome.value < 0) ==> !FormValid(f)
    ensures (f.allowableExpenses.None? || f.allowableExpenses.value < 0) ==> !FormValid(f)
    ensures f.disabled ==> !FormValid(f)
  {
  }

  /** The reference number a submission reports, `submissionDetails?.refNumber`. */
  function RefNumber(r: SubmissionResponse): Option<string>
  {
    if r.submissionDetails.Some? then r.submissionDetails.value.refNumber else None
  }

  /** The submit message names the quarter after "Quarter " and ends with the reference number, "undefined" when absent. */
  lemma SubmittedMessageParts(r: SubmissionResponse)
    ensures var m := SubmittedMessage(r); var id := JsString(r.id); var ref := JsString(RefNumber(r));
      && |m| >= 8 + |id| + |ref|
      && m[..8] == "Quarter " && m[8..8 + |id|] == id && m[|m| - |ref|..] == ref
    ensures r.submissionDetails.None? ==> JsString(RefNumber(r)) == "undefined"
  {
    var id := JsString(r.id);
    var ref := JsString(RefNumber(r));
    var mid := " submitted successfully! Ref: ";
    assert SubmittedMessage(r) == ("Quarter " + id) + (mid + ref);
  }

  /** A quarter that was loaded as submitted leaves the form disabled, so a later submit stops at the validity check. */
  lemma SubmittedQuarterFailsValidity(f: FormState, q: QuarterlyUpdate, id: Option<string>)
    requires q.status == Some(SUBMITTED)
    ensures SubmitBlocker(PatchFromQuarter(f, q), id, Some(q)) == Some(INVALID_FORM_MSG)
  {
  }

  /** A fresh form loaded from a draft with non-negative or absent amounts may be submitted. */
  lemma LoadedDraftMaySubmit(q: QuarterlyUpdate, id: string)
    requires id != "" && q.status == Some(DRAFT)
    requires OrZero(q.taxableIncome) >= 0 && OrZero(q.allowableExpenses) >= 0
    ensures SubmitBlocker(PatchFromQuarter(InitialForm(), q), Some(id), Some(q)).None?
  {
  }

  class QuarterForm {
    const auth: Session.AuthService
    const api: Api
    var quarterId: Option<string>
    var isEditMode: bool
    var loading: bool
    var error: Option<string>
    var successMessage: Option<string>
    var currentQuarterDetails: Option<QuarterlyUpdate>
    var form: FormState

    constructor(auth: Session.AuthService, api: Api)
      ensures this.auth == auth && this.api == api
      ensures quarterId.None? && !isEditMode && !loading && error.None? && successMessage.None?
      ensures currentQuarterDetails.None? && form == InitialForm()
    {
      this.auth := auth;
      this.api := api;
      quarterId := None;
      isEditMode := false;
      loading := false;
      error := None;
      successMessage := None;
      currentQuarterDetails := None;
      form := InitialForm();
    }

    /** ngOnInit: `routeId` is the route's `id` parameter, `response` the outcome of the list call that follows. */
    method NgOnInit(routeId: Option<string>, response: ApiResult<Option<QuartersResponse>>)
      modifies this, api, auth, auth.router
      ensures quarterId == routeId
      ensures isEditMode == (Truthy(routeId) || old(isEditMode))
      ensures !loading && successMessage == old(successMessage)
      ensures api.calls == old(api.calls) + [GetQuarters]
      // without an id: look for the first draft
      ensures !Truthy(routeId) ==> form == InitialForm() && currentQuarterDetails == old(currentQuarterDetails)
      ensures !Truthy(routeId) && response.Ok? && response.body.Some? ==>
        var qs := response.body.value.quarters.GetOr([]);
        var draft := FirstWithStatus(qs, DRAFT);
        && (draft.Some? ==> error.None? && auth.router.log == old(auth.router.log) + [EditUrl(JsString(qs[draft.value].id))])
        && (draft.None? ==> error == Some(NO_DRAFT_MSG) && auth.router.log == old(auth.router.log))
      ensures !Truthy(routeId) && !(response.Ok? && response.body.Some?) ==> error == Some(FIND_DRAFT_FAILED_MSG)
      // with an id: load that quarter into a fresh form
      ensures Truthy(routeId) && response.Ok? && response.body.Some? ==>
        var qs := response.body.value.quarters.GetOr([]);
        var found := FirstWithId(qs, routeId.value);
        && (found.Some? ==>
              && currentQuarterDetails == Some(qs[found.value])
              && form == PatchFromQuarter(InitialForm(), qs[found.value])
              && error == (if qs[found.value].status == Some(SUBMITTED) then Some(LOCKED_MSG) else None)
              && auth.router.log == old(auth.router.log))
        && (found.None? ==>
              && currentQuarterDetails == old(currentQuarterDetails) && form == InitialForm()
              && error == Some(NOT_FOUND_MSG) && auth.router.log == old(auth.router.log) + ["/quarters"])
      ensures Truthy(routeId) && !(response.Ok? && response.body.Some?) ==>
        currentQuarterDetails == old(currentQuarterDetails) && form == InitialForm() && error == Some(DETAILS_FAILED_MSG)
      // on either path, a failed list call logs out on 401/403 and otherwise leaves the session alone
      ensures response.Ok? && response.body.None? ==> auth.router.log == old(auth.router.log)
      ensures response.Err? && IsAuthFailure(response.error.status) ==>
        auth.State() == Session.Cleared(old(auth.State())) && auth.router.log == old(auth.router.log) + ["/auth", "/auth/login"]
      ensures response.Err? && !IsAuthFailure(response.error.status) ==> auth.router.log == old(auth.router.log)
      ensures !(response.Err? && IsAuthFailure(response.error.status)) ==> auth.State() == old(auth.State())
    {
      quarterId := routeId;
      InitForm();
      if !Truthy(quarterId) {
        FindOrCreateDraftQuarterAndRedirect(response);
      } else {
        isEditMode := true;
        FetchQuarterDetails(quarterId.value, response);
      }
    }

    method InitForm()
      modifies this
      ensures form == InitialForm()
      ensures quarterId == old(quarterId) && isEditMode == old(isEditMode) && loading == old(loading)
      ensures error == old(error) && successMessage == old(successMessage)
      ensures currentQuarterDetails == old(currentQuarterDetails)
    {
      form := InitialForm();
    }

    /** Opens the first draft for editing, where `response` is the outcome of the list call. */
    method FindOrCreateDraftQuarterAndRedirect(response: ApiResult<Option<QuartersResponse>>)
      modifies this, api, auth, auth.router
      ensures api.calls == old(api.calls) + [GetQuarters]
      ensures !loading
      ensures form == old(form) && currentQuarterDetails == old(currentQuarterDetails)
      ensures quarterId == old(quarterId) && isEditMode == old(isEditMode) && successMessage == old(successMessage)
      ensures response.Ok? && response.body.Some? ==>
        var qs := response.body.value.quarters.GetOr([]);
        var draft := FirstWithStatus(qs, DRAFT);
        && (draft.Some? ==> error.None? && auth.router.log == old(auth.router.log) + [EditUrl(JsString(qs[draft.value].id))])
        && (draft.None? ==> error == Some(NO_DRAFT_MSG) && auth.router.log == old(auth.router.log))
      ensures response.Ok? && response.body.None? ==>
        error == Some(FIND_DRAFT_FAILED_MSG) && auth.router.log == old(auth.router.log)
      ensures response.Err? ==> error == Some(FIND_DRAFT_FAILED_MSG)
      ensures response.Err? && IsAuthFailure(response.error.status) ==>
        auth.State() == Session.Cleared(old(auth.State())) && auth.router.log == old(auth.router.log) + ["/auth", "/auth/login"]
      ensures response.Err? && !IsAuthFailure(response.error.status) ==> auth.router.log == old(auth.router.log)
      ensures !(response.Err? && IsAuthFailure(response.error.status)) ==> auth.State() == old(auth.State())
    {
      loading := true;
      error := None;
      api.Invoke(GetQuarters);
      if response.Ok? {
        var body := response.body;
        if body.None? {
          // reading `quarters` of a null body throws; the catch block handles it like a failure without a status
          error := Some(FIND_DRAFT_FAILED_MSG);
        } else {
          var qs := body.value.quarters.GetOr([]);
          var draft := FirstWithStatus(qs, DRAFT);
          if draft.Some? {
            auth.router.Navigate(EditUrl(JsString(qs[draft.value].id)));
          } else {
            error := Some(NO_DRAFT_MSG);
          }
        }
      } else {
        error := Some(FIND_DRAFT_FAILED_MSG);
        if IsAuthFailure(response.error.status) {
          auth.Logout();
          auth.router.Navigate("/auth/login");
        }
      }
      loading := false;
    }

    /** Loads quarter `id` into the form, where `response` is the outcome of the list call. */
    method FetchQuarterDetails(id: string, response: ApiResult<Option<QuartersResponse>>)
      modifies this, api, auth, auth.router
      ensures api.calls == old(api.calls) + [GetQuarters]
      ensures !loading
      ensures quarterId == old(quarterId) && isEditMode == old(isEditMode) && successMessage == old(successMessage)
      ensures response.Ok? && response.body.Some? ==>
        var qs := response.body.value.quarters.GetOr([]);
        var found := FirstWithId(qs, id);
        && (found.Some? ==>
              && currentQuarterDetails == Some(qs[found.value])
              && form == PatchFromQuarter(old(form), qs[found.value])
              && error == (if qs[found.value].status == Some(SUBMITTED) then Some(LOCKED_MSG) else None)
              && auth.router.log == old(auth.router.log))
        && (found.None? ==>
              && currentQuarterDetails == old(currentQuarterDetails) && form == old(form)
              && error == Some(NOT_FOUND_MSG) && auth.router.log == old(auth.router.log) + ["/quarters"])
      ensures !(response.Ok? && response.body.Some?) ==>
        currentQuarterDetails == old(currentQuarterDetails) && form == old(form) && error == Some(DETAILS_FAILED_MSG)
      ensures response.Ok? && response.body.None? ==> auth.router.log == old(auth.router.log)
      ensures response.Err? && IsAuthFailure(response.error.status) ==>
        auth.State() == Session.Cleared(old(auth.State())) && auth.router.log == old(auth.router.log) + ["/auth", "/auth/login"]
      ensures response.Err? && !IsAuthFailure(response.error.status) ==> auth.router.log == old(auth.router.log)
      ensures !(response.Err? && IsAuthFailure(response.error.status)) ==> auth.State() == old(auth.State())
    {
      loading := true;
      error := None;
      api.Invoke(GetQuarters);
      if response.Ok? {
        var body := response.body;
        if body.None? {
          // reading `quarters` of a null body throws; the catch block handles it like a failure without a status
          error := Some(DETAILS_FAILED_MSG);
        } else {
          var qs := body.value.quarters.GetOr([]);
          var found := FirstWithId(qs, id);
          if found.Some? {
            var quarter := qs[found.value];
            currentQuarterDetails := Some(quarter);
            form := form.(taxableIncome := Some(OrZero(quarter.taxableIncome)),
                          allowableExpenses := Some(OrZero(quarter.allowableExpenses)));
            if quarter.status == Some(SUBMITTED) {
              form := form.(disabled := true);
              error := Some(LOCKED_MSG);
            }
          } else {
            error := Some(NOT_FOUND_MSG);
            auth.router.Navigate("/quarters");
          }
        }
      } else {
        error := Some(DETAILS_FAILED_MSG);
        if IsAuthFailure(response.error.status) {
          auth.Logout();
          auth.router.Navigate("/auth/login");
        }
      }
      loading := false;
    }

    /**
     * onSubmit(submit): `put` and `post` are the outcomes of the save and
     * submit calls; `post` is used only when a submit call is made.
     */
    method OnSubmit(submit: bool, put: ApiResult<UpdateResponse>, post: ApiResult<SubmissionResponse>)
      modifies this, api, auth, auth.router
      ensures form == old(form).(touched := true)
      ensures quarterId == old(quarterId) && isEditMode == old(isEditMode)
      ensures currentQuarterDetails == old(currentQuarterDetails)
      ensures SubmitBlocker(old(form), old(quarterId), old(currentQuarterDetails)).Some? ==>
        && error == SubmitBlocker(old(form), old(quarterId), old(currentQuarterDetails))
        && loading == old(loading) && successMessage == old(successMessage)
        && api.calls == old(api.calls) && auth.State() == old(auth.State()) && auth.router.log == old(auth.router.log)
      ensures SubmitBlocker(old(form), old(quarterId), old(currentQuarterDetails)).None? ==>
        && !loading
        && api.calls == old(api.calls) + [PutQuarter(old(quarterId).value, old(form).taxableIncome, old(form).allowableExpenses)]
                                       + (if submit && put.Ok? then [SubmitQuarter(old(quarterId).value)] else [])
      ensures SubmitBlocker(old(form), old(quarterId), old(currentQuarterDetails)).None? && FirstFailure(submit, put, post).None? ==>
        && error.None?
        && successMessage == Some(if submit then SubmittedMessage(post.body) else SavedMessage(put.body))
        && auth.router.log == old(auth.router.log) + ["/quarters"] && auth.State() == old(auth.State())
      ensures SubmitBlocker(old(form), old(quarterId), old(currentQuarterDetails)).None? && FirstFailure(submit, put, post).Some? ==>
        var e := FirstFailure(submit, put, post).value;
        && error == Some(ErrorMessage(e))
        && successMessage == (if put.Ok? then Some(SavedMessage(put.body)) else None)
        && (IsAuthFailure(e.status) ==>
              auth.State() == Session.Cleared(old(auth.State())) && auth.router.log == old(auth.router.log) + ["/auth", "/auth/login"])
        && (!IsAuthFailure(e.status) ==> auth.State() == old(auth.State()) && auth.router.log == old(auth.router.log))
    {
      form := form.(touched := true);
      if !FormValid(form) {
        error := Some(INVALID_FORM_MSG);
        return;
      }
      if !Truthy(quarterId) {
        error := Some(MISSING_ID_MSG);
        return;
      }
      if currentQuarterDetails.Some? && currentQuarterDetails.value.status == Some(SUBMITTED) {
        error := Some(ALREADY_SUBMITTED_MSG);
        return;
      }
      loading := true;
      error := None;
      successMessage := None;
      var id := quarterId.value;
      var failure: Option<HttpError> := None;
      api.Invoke(PutQuarter(id, form.taxableIncome, form.allowableExpenses));
      if put.Ok? {
        successMessage := Some(SavedMessage(put.body));
        if submit {
          api.Invoke(SubmitQuarter(id));
          if post.Ok? {
            successMessage := Some(SubmittedMessage(post.body));
          } else {
            failure := Some(post.error);
          }
        }
      } else {
        failure := Some(put.error);
      }
      if failure.None? {
        loading := false;
        auth.router.Navigate("/quarters");
      } else {
        var err := failure.value;
        error := Some(ErrorMessage(err));
        loading := false;
        if IsAuthFailure(err.status) {
          auth.Logout();
          auth.router.Navigate("/auth/login");
        }
      }
    }

    method OnCancel()
      modifies auth.router
      ensures auth.router.log == old(auth.router.log) + ["/quarters"]
    {
      auth.router.Navigate("/quarters");
    }
  }
}
