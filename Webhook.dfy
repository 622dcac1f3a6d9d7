/** The `/validate` and `/mutate` endpoints of main.py: each hands the
    review's request to the controller and then answers, whatever the
    controller did, with an AdmissionReview that allows the request. */
module Webhook {
  import opened Wrappers
  import opened KubeGuard
  import Base64

  /** The `request` member of a review: missing, JSON null, or an object. */
  datatype RequestField = Missing | Null | Present(request: AdmissionRequest)

  /** A decoded AdmissionReview body; only its `request` member is read. */
  datatype AdmissionReview = AdmissionReview(request: RequestField)

  datatype AdmissionResponse = AdmissionResponse(
    uid: Option<string>,
    allowed: bool,
    patchType: Option<string>,
    patch: Option<string>)

  /** An HTTP reply: an AdmissionReview, or a JSON error with a status code. */
  datatype Reply =
    | ReviewReply(apiVersion: string, kind: string, response: AdmissionResponse)
    | ErrorReply(status: int, error: string)

  const ApiVersion: string := "admission.k8s.io/v1"
  const ReviewKind: string := "AdmissionReview"

  /** `json.dumps([])`, the empty JSON patch. */
  const EmptyJsonPatch: string := "[]"

  /** The base64 text of the empty JSON patch. */
  function EmptyPatch(): (patch: string)
    ensures patch == "W10="
  {
    var bytes := Base64.AsciiBytes(EmptyJsonPatch);
    assert bytes == [91, 93];
    Base64.Encode(bytes)
  }

  /** Whether the body is a review carrying a request object; `body == None`
      stands for `request.get_json()` returning None. */
  predicate HasRequest(body: Option<AdmissionReview>) {
    body.Some? && body.value.request.Present?
  }

  /** The text of the AttributeError raised by calling `.get` on None. */
  const NoneGetError: string := "'NoneType' object has no attribute 'get'"

  /** The reply of `validate`, which depends on the body alone: 400 without a
      `request` member, 500 when that member is null (reading its `uid`
      raises), otherwise an allowing review that echoes the request's uid. */
  function ValidateReply(body: Option<AdmissionReview>): (r: Reply)
    ensures r.ErrorReply? <==> !HasRequest(body)
    ensures r.ErrorReply? ==>
              if body.Some? && body.value.request.Null? then r.status == 500 && r.error == NoneGetError
              else r.status == 400 && r.error == "Invalid admission review"
    ensures r.ReviewReply? ==>
              r.apiVersion == ApiVersion && r.kind == ReviewKind
              && r.response.allowed && r.response.uid == body.value.request.request.uid
              && r.response.patchType == None && r.response.patch == None
  {
    match body
    case None => ErrorReply(400, "Invalid admission review")
    case Some(review) =>
      match review.request
      case Missing => ErrorReply(400, "Invalid admission review")
      case Null => ErrorReply(500, NoneGetError)
      case Present(req) =>
        ReviewReply(ApiVersion, ReviewKind, AdmissionResponse(req.uid, true, None, None))
  }

  /** The reply of `mutate`: an allowing review with an empty JSON patch, or,
      when indexing the body for `request` or reading the request's `uid`
      raises, the 500 reply carrying the exception's text. */
  function MutateReply(body: Option<AdmissionReview>): (r: Reply)
    ensures r.ErrorReply? <==> !HasRequest(body)
    ensures r.ErrorReply? ==> r.status == 500
    ensures body.Some? && body.value.request.Null? ==> r.error == NoneGetError
    ensures r.ReviewReply? ==>
              r.apiVersion == ApiVersion && r.kind == ReviewKind
              && r.response.allowed && r.response.uid == body.value.request.request.uid
              && r.response.patchType == Some("JSONPatch") && r.response.patch == Some("W10=")
  {
    match body
    case None => ErrorReply(500, "'NoneType' object is not subscriptable")
    case Some(review) =>
      match review.request
      case Missing => ErrorReply(500, "'request'")
      case Null => ErrorReply(500, NoneGetError)
      case Present(req) =>
        ReviewReply(ApiVersion, ReviewKind,
                    AdmissionResponse(req.uid, true, Some("JSONPatch"), Some(EmptyPatch())))
  }

  /** Both endpoints allow every request they answer for and echo its uid. */
  lemma EndpointsAgreeOnDecision(body: Option<AdmissionReview>)
    requires HasRequest(body)
    ensures ValidateReply(body).response.allowed == MutateReply(body).response.allowed == true
    ensures ValidateReply(body).response.uid == MutateReply(body).response.uid
  {
  }

  /** `validate`: reject a body without a request, otherwise process the
      request and allow it. A null request reaches the controller, which
      swallows the error it raises, and then fails the reply. `time` is the
      clock reading and `delivered` whether a POST, if one is made, succeeds;
      the reply depends on neither, nor on the configuration. */
  method Validate(controller: KubeGuardController, body: Option<AdmissionReview>, time: string, delivered: bool)
    returns (reply: Reply)
    modifies controller`outbox
    ensures reply == ValidateReply(body)
    ensures HasRequest(body) ==>
              controller.outbox == old(controller.outbox)
                                   + PostsFor(controller.configData, body.value.request.request, time)
    ensures !HasRequest(body) ==> controller.outbox == old(controller.outbox)
  {
    if body.None? || body.value.request.Missing? {
      return ErrorReply(400, "Invalid admission review");
    }
    if body.value.request.Null? {
      return ErrorReply(500, NoneGetError);
    }
    var req := body.value.request.request;
    controller.ProcessAdmissionRequest(req, time, delivered);
    var response := AdmissionResponse(req.uid, true, None, None);
    reply := ReviewReply(ApiVersion, ReviewKind, response);
  }

  /** `mutate`: process the request and allow it with an empty patch; a body
      without a request ends in a 500 reply before anything is processed,
      and a null request in a 500 reply after the controller swallowed its
      error. */
  method Mutate(controller: KubeGuardController, body: Option<AdmissionReview>, time: string, delivered: bool)
    returns (reply: Reply)
    modifies controller`outbox
    ensures reply == MutateReply(body)
    ensures HasRequest(body) ==>
              controller.outbox == old(controller.outbox)
                                   + PostsFor(controller.configData, body.value.request.request, time)
    ensures !HasRequest(body) ==> controller.outbox == old(controller.outbox)
  {
    if body.None? {
      return ErrorReply(500, "'NoneType' object is not subscriptable");
    }
    if body.value.request.Missing? {
      return ErrorReply(500, "'request'");
    }
    if body.value.request.Null? {
      return ErrorReply(500, NoneGetError);
    }
    var req := body.value.request.request;
    controller.ProcessAdmissionRequest(req, time, delivered);
    var patch := Base64.Encode(Base64.AsciiBytes(EmptyJsonPatch));
    var response := AdmissionResponse(req.uid, true, Some("JSONPatch"), Some(patch));
    reply := ReviewReply(ApiVersion, ReviewKind, response);
  }
}
