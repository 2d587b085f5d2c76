/**
 * What the admission decision promises, stated about the reference
 * definition `Admission.Decision` that the handler is proved to compute.
 */
module AdmissionProperties {
  import opened Wrappers
  import opened JsonValues
  import opened JsonPatch
  import JsonPointer
  import opened Admission

  /** `spec` counts as present when the key is there and its value is not JSON null. */
  predicate HasSpec(view: ResourceView)
  {
    "spec" in view && view["spec"] != JNull
  }

  /** `spec` is an object whose `fail_validation` member is the boolean `b`. */
  predicate FlagIs(view: ResourceView, b: bool)
  {
    && "spec" in view && view["spec"].JObject?
    && "fail_validation" in view["spec"].fields
    && view["spec"].fields["fail_validation"] == JBool(b)
  }

  /** Every response carries the request's UID, whatever the mode and the resource. */
  lemma UidPreserved(uid: Uid, view: ResourceView, isMutating: bool, marshalOk: bool)
    requires Decision(uid, view, isMutating, marshalOk).Responded?
    ensures Decision(uid, view, isMutating, marshalOk).response.uid == uid
  {
  }

  /** Without a `spec` (or with a null one) both modes allow and attach nothing. */
  lemma NoSpecAllows(uid: Uid, view: ResourceView, isMutating: bool, marshalOk: bool)
    requires !HasSpec(view)
    ensures Decision(uid, view, isMutating, marshalOk) == Responded(Response(uid, true, None, None, None))
  {
  }

  /** Validation denies, with a status and without a patch, when `fail_validation` is true. */
  lemma ValidationDenies(uid: Uid, view: ResourceView, marshalOk: bool)
    requires FlagIs(view, true)
    ensures Decision(uid, view, false, marshalOk) == Responded(Response(uid, false, Some(DENIED_STATUS), None, None))
  {
  }

  /** Validation allows and attaches nothing when `fail_validation` is false. */
  lemma ValidationAllows(uid: Uid, view: ResourceView, marshalOk: bool)
    requires FlagIs(view, false)
    ensures Decision(uid, view, false, marshalOk) == Responded(Response(uid, true, None, None, None))
  {
  }

  /**
   * The decision panics exactly in validation mode, with `spec` present,
   * when `spec` is not an object or its `fail_validation` is missing or not
   * a boolean.
   */
  lemma PanicsExactly(uid: Uid, view: ResourceView, isMutating: bool, marshalOk: bool)
    ensures Decision(uid, view, isMutating, marshalOk) == Panicked
        <==> !isMutating && HasSpec(view) && !FlagIs(view, true) && !FlagIs(view, false)
  {
  }

  /** The response denies exactly in validation mode when `fail_validation` is true. */
  lemma DeniesExactly(uid: Uid, view: ResourceView, isMutating: bool, marshalOk: bool)
    ensures (Decision(uid, view, isMutating, marshalOk).Responded? &&
             !Decision(uid, view, isMutating, marshalOk).response.allowed)
        <==> !isMutating && FlagIs(view, true)
  {
  }

  /**
   * With any `spec` present, mutation allows, sets the patch type to JSON
   * Patch, and attaches the single "add" of `/spec/mutated_default` when
   * the patch serialises (a "Success" status) and no patch when it does not
   * (a status saying so).
   */
  lemma MutationPatches(uid: Uid, view: ResourceView, marshalOk: bool)
    requires HasSpec(view)
    ensures Decision(uid, view, true, marshalOk).Responded?
    ensures var r := Decision(uid, view, true, marshalOk).response;
      && r.allowed
      && r.patchType == Some(JSONPatch)
      && r.patch == (if marshalOk then Some([PatchOp("add", "/spec/mutated_default", "default_value")]) else None)
      && r.result == Some(if marshalOk then SUCCESS_STATUS else PATCH_FAILED_STATUS)
  {
  }

  /**
   * Mutation reads nothing of the resource but whether `spec` is present:
   * two resources that agree on that get the same decision.
   */
  lemma MutationIgnoresContent(uid: Uid, view1: ResourceView, view2: ResourceView, marshalOk: bool)
    requires HasSpec(view1) == HasSpec(view2)
    ensures Decision(uid, view1, true, marshalOk) == Decision(uid, view2, true, marshalOk)
  {
  }

  /**
   * A patch is never attached without its type; the type without a patch
   * happens exactly when a mutation's patch failed to serialise.
   */
  lemma PatchTypeAccompaniesPatch(uid: Uid, view: ResourceView, isMutating: bool, marshalOk: bool)
    requires Decision(uid, view, isMutating, marshalOk).Responded?
    ensures var r := Decision(uid, view, isMutating, marshalOk).response;
      && (r.patch.Some? ==> r.patchType == Some(JSONPatch))
      && (r.patchType.Some? && r.patch.None? <==> isMutating && HasSpec(view) && !marshalOk)
  {
  }

  /**
   * The handler replies 400 exactly when the body could not be read, and
   * crashes exactly on a null body or a panicking decision; otherwise it
   * answers with the decision's response.
   */
  lemma HandleByInput(read: ReadRequest, isMutating: bool, marshalOk: bool)
    ensures Handle(read, isMutating, marshalOk).BadRequest? <==> read.Unreadable?
    ensures Handle(read, isMutating, marshalOk) == Crashed
        <==> read.NullRequest?
             || (read.Read? && Decision(read.request.uid, read.request.resource, isMutating, marshalOk) == Panicked)
    ensures read.Read? && Decision(read.request.uid, read.request.resource, isMutating, marshalOk).Responded? ==>
      Handle(read, isMutating, marshalOk)
        == Answered(Decision(read.request.uid, read.request.resource, isMutating, marshalOk).response)
  {
  }

  /** The emitted pointer names the member `mutated_default` of the member `spec`. */
  lemma DefaultPathTokens()
    ensures JsonPointer.Parse(DEFAULT_PATCH_OP.path) == Some(["spec", "mutated_default"])
  {
    JsonPointer.ParsePlainPair("spec", "mutated_default");
    assert "/" + "spec" + "/" + "mutated_default" == DEFAULT_PATCH_OP.path;
  }

  /**
   * Applying the emitted patch to a resource whose `spec` is an object sets
   * `spec.mutated_default` to "default_value" and changes nothing else.
   */
  lemma MutationPatchEffect(uid: Uid, view: ResourceView, spec: map<string, Json>)
    requires "spec" in view && view["spec"] == JObject(spec)
    ensures var r := Decision(uid, view, true, true).response;
      && r.patch.Some?
      && Apply(JObject(view), r.patch.value)
         == Ok(JObject(view["spec" := JObject(spec["mutated_default" := JString("default_value")])]))
  {
    DefaultPathTokens();
  }

  /**
   * When `spec` is present but not an object, mutation still emits the
   * patch, and no document of that shape accepts it.
   */
  lemma MutationPatchRejected(uid: Uid, view: ResourceView)
    requires HasSpec(view) && !view["spec"].JObject?
    ensures var r := Decision(uid, view, true, true).response;
      && r.patch.Some?
      && Apply(JObject(view), r.patch.value).Err?
  {
    DefaultPathTokens();
  }
}
