/**
 * The admission decision of the webhook (pkg/plugin/resources.go): one HTTP
 * call carries an admission request; the handler builds an admission
 * response that allows by default, denies in validation mode when the
 * resource's `spec.fail_validation` is true, and in mutation mode, when
 * `spec` is present and not null, attaches a one-operation JSON Patch that
 * adds `spec.mutated_default`.
 */
module Admission {
  import opened Wrappers
  import opened JsonValues
  import opened JsonPatch

  /** The request's correlation token, opaque to the webhook. */
  type Uid = string

  /** The admitted object as the unstructured converter yields it. */
  type ResourceView = map<string, Json>

  datatype PatchType = JSONPatch

  /** The members of a Kubernetes status that the webhook fills in; the others stay empty. */
  datatype Status = Status(status: string, message: string, reason: string, code: int)

  /** The status the response carries when validation denies: every member empty. */
  const DENIED_STATUS := Status("", "", "", 0)

  /** The status the response carries when the patch could not be serialised. */
  const PATCH_FAILED_STATUS := Status("", "Could not translate the patch", "", 0)

  /** The status the response carries after a successful mutation. */
  const SUCCESS_STATUS := Status("Success", "", "", 0)

  /** The single operation every mutation emits. */
  const DEFAULT_PATCH_OP := PatchOp("add", "/spec/mutated_default", "default_value")

  datatype Response = Response(
    uid: Uid,
    allowed: bool,
    result: Option<Status>,
    patch: Option<seq<PatchOp>>,
    patchType: Option<PatchType>)

  /** What the decision comes to: a response, or the panic of a failed type assertion. */
  datatype Outcome = Responded(response: Response) | Panicked

  /** A decoded request: its UID and the object converted to its generic view. */
  datatype AdmissionRequest = AdmissionRequest(uid: Uid, resource: ResourceView)

  /**
   * What reading the body gave the handler: an error from decoding or
   * converting it, a JSON `null` body (which decodes without error into a
   * nil request), or a request.
   */
  datatype ReadRequest = Unreadable(reason: string) | NullRequest | Read(request: AdmissionRequest)

  /**
   * What one HTTP call comes to: a 400 reply with the reading error, a
   * response, or a panic of the handler.
   */
  datatype Reply = BadRequest(reason: string) | Answered(response: Response) | Crashed

  // ---------------------------------------------------------------------
  // The decision, case by case by the shape of the resource.
  // ---------------------------------------------------------------------

  /** How the resource's `spec` looks: absent (no key, or JSON null), an object, or anything else. */
  datatype SpecShape = NoSpec | SpecObject(fields: map<string, Json>) | SpecOther

  /** How `spec.fail_validation` looks to the validation policy. */
  datatype FlagShape = FlagBool(flag: bool) | FlagNotBool

  function SpecOf(view: ResourceView): SpecShape
  {
    if "spec" !in view then NoSpec
    else match view["spec"]
      case JNull => NoSpec
      case JObject(m) => SpecObject(m)
      case _ => SpecOther
  }

  /** A `spec` that is not an object holds no `fail_validation`, like a missing member. */
  function FlagOf(spec: SpecShape): FlagShape
  {
    match spec
    case SpecObject(m) =>
      if "fail_validation" in m && m["fail_validation"].JBool? then FlagBool(m["fail_validation"].b)
      else FlagNotBool
    case _ => FlagNotBool
  }

  /** The response that allows and says nothing else. */
  function Allow(uid: Uid): Response
  {
    Response(uid, true, None, None, None)
  }

  /** The response of a mutation, given whether the patch could be serialised. */
  function Mutation(uid: Uid, marshalOk: bool): Response
  {
    if marshalOk then Response(uid, true, Some(SUCCESS_STATUS), Some([DEFAULT_PATCH_OP]), Some(JSONPatch))
    else Response(uid, true, Some(PATCH_FAILED_STATUS), None, Some(JSONPatch))
  }

  /**
   * The decision for a request with UID `uid` and resource `view`, in
   * mutation mode when `isMutating`. `marshalOk` stands for the outcome of
   * serialising the patch, which only the JSON library decides.
   */
  function Decision(uid: Uid, view: ResourceView, isMutating: bool, marshalOk: bool): Outcome
  {
    var spec := SpecOf(view);
    if spec == NoSpec then Responded(Allow(uid))
    else if isMutating then Responded(Mutation(uid, marshalOk))
    else match FlagOf(spec)
      case FlagBool(true) => Responded(Response(uid, false, Some(DENIED_STATUS), None, None))
      case FlagBool(false) => Responded(Allow(uid))
      case FlagNotBool => Panicked
  }

  /**
   * What the handler does with what it read: an unreadable body gets a 400
   * reply with no decision; a nil request panics when its object is taken;
   * a request gets the decision, a panicking decision crashing the handler.
   */
  function Handle(read: ReadRequest, isMutating: bool, marshalOk: bool): Reply
  {
    match read
    case Unreadable(reason) => BadRequest(reason)
    case NullRequest => Crashed
    case Read(r) =>
      match Decision(r.uid, r.resource, isMutating, marshalOk)
      case Responded(response) => Answered(response)
      case Panicked => Crashed
  }

  // ---------------------------------------------------------------------
  // The handler, step by step.
  // ---------------------------------------------------------------------

  /**
   * Builds the response as the handler does: a default that allows, then
   * field updates under the mode and the content of `spec`. The type
   * assertion on `fail_validation` panics unless it holds a boolean.
   */
  method BuildResponse(uid: Uid, view: ResourceView, isMutating: bool, marshalOk: bool)
    returns (outcome: Outcome)
    ensures outcome == Decision(uid, view, isMutating, marshalOk)
  {
    var response := Response(uid, true, None, None, None);
    var spec := if "spec" in view then view["spec"] else JNull;
    if spec != JNull {
      var specAsserted: map<string, Json> := if spec.JObject? then spec.fields else map[];
      if !isMutating {
        var failValidation := if "fail_validation" in specAsserted then specAsserted["fail_validation"] else JNull;
        if !failValidation.JBool? {
          outcome := Panicked;
          return;
        }
        if failValidation.b {
          response := response.(allowed := false, result := Some(DENIED_STATUS));
        }
      } else {
        if marshalOk {
          response := response.(patch := Some([DEFAULT_PATCH_OP]));
          response := response.(result := Some(SUCCESS_STATUS));
        } else {
          response := response.(patch := None);
          response := response.(result := Some(PATCH_FAILED_STATUS));
        }
        response := response.(patchType := Some(JSONPatch));
      }
    }
    outcome := Responded(response);
  }

  /**
   * The whole handler: reading the body (abstracted into `read`), then
   * building the response.
   */
  method PerformValidationOrMutation(read: ReadRequest, isMutating: bool, marshalOk: bool)
    returns (reply: Reply)
    ensures reply == Handle(read, isMutating, marshalOk)
  {
    match read {
      case Unreadable(reason) =>
        reply := BadRequest(reason);
      case NullRequest =>
        reply := Crashed;
      case Read(request) =>
        var outcome := BuildResponse(request.uid, request.resource, isMutating, marshalOk);
        reply := if outcome.Responded? then Answered(outcome.response) else Crashed;
    }
  }

  /** The validation endpoint runs the handler in validation mode. */
  method CallValidation(read: ReadRequest, marshalOk: bool) returns (reply: Reply)
    ensures reply == Handle(read, false, marshalOk)
  {
    reply := PerformValidationOrMutation(read, false, marshalOk);
  }

  /** The mutation endpoint runs the handler in mutation mode. */
  method CallMutation(read: ReadRequest, marshalOk: bool) returns (reply: Reply)
    ensures reply == Handle(read, true, marshalOk)
  {
    reply := PerformValidationOrMutation(read, true, marshalOk);
  }
}
