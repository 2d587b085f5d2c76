# Admission webhook decision, modelled in Dafny

This project models the admission handler of a Grafana app plugin that acts as a
Kubernetes admission webhook (`pkg/plugin/resources.go`). Each HTTP call carries
an admission request: a correlation `UID` and the object being admitted. The
handler converts the object into a generic view (a map from keys to JSON
values) and builds an admission response. The response allows by default. In
validation mode it is denied when `spec.fail_validation` is `true`. In mutation
mode, when `spec` is present and not null, it carries a JSON Patch of one operation: an `add` of
`/spec/mutated_default` with value `"default_value"`, with the patch type set to
JSON Patch. Two endpoints select the mode: the validation endpoint runs the
handler with `isMutating = false`, the mutation endpoint with `isMutating = true`.

Files and modules:

- `wrappers.dfy` (`Wrappers`): `Option` and `Result`.
- `json_values.dfy` (`JsonValues`): the JSON value tree of the generic view.
  A JSON `null` is `JNull`, which the handler reads as the nil interface.
- `json_pointer.dfy` (`JsonPointer`): JSON Pointer as in RFC 6901. It covers
  escaping and reading of reference tokens (section 3), array-index tokens and
  resolution of a pointer in a document (section 4).
- `json_patch.dfy` (`JsonPatch`): the patch operation the handler emits. It
  also defines what applying a patch means for the `add` operation (section 4.1
  of RFC 6902), applied in order with the first error aborting (section 5).
- `admission.dfy` (`Admission`): the response, status and outcome datatypes.
  `Decision` is a reference definition written case by case on the shape of
  `spec`. `BuildResponse` is the handler's step-by-step construction of the
  response (default record, then field updates), proved equal to `Decision`.
  It also holds the whole handler and the two endpoints.
- `admission_properties.dfy` (`AdmissionProperties`): what the decision
  promises, as lemmas about `Decision`.

Modelling choices:

- `spec` is present when the key exists and its value is not JSON `null`.
  A `spec` that is not an object acts as an empty map, as Go's two-value type
  assertion yields a nil map.
- The single-value type assertion `specAsserted["fail_validation"].(bool)`
  panics when the member is missing, null or not a boolean. This is the
  outcome `Panicked`, not a response.
- Serialising the patch with `json.Marshal` is the parameter `marshalOk`. When
  it fails, the patch is absent (the library returns no bytes), the status
  message says the patch could not be translated, and the patch type is still
  set.
- The patch is modelled as the sequence of operations it encodes, not as its
  bytes.
- Decoding the request and converting its object are one abstract step. The
  handler receives a `ReadRequest`. `Unreadable` is a decoding or conversion
  error, which gets the 400 reply with no decision. `NullRequest` is a JSON
  `null` body: it decodes without error into a nil request, and taking its
  object at line 74 panics. `Read` is a request with its generic view.

Behaviour that follows the code rather than a more defensive design:

- A missing or non-boolean `fail_validation`, or a non-object `spec`, makes
  validation panic instead of denying with a reason.
- Mutation emits no patch and no patch type when `spec` is absent or null:
  the resource gets the allow-only response (`NoSpecAllows`).
- A failed patch serialisation leaves the patch type set without a patch.
- A successful mutation carries a status whose `Status` is `"Success"`.
- The denial carries a status whose members are all empty.
- When `spec` is present but not an object, mutation still emits the patch,
  and the model's `Apply` rejects it (`MutationPatchRejected`). Section 4.1 of
  RFC 6902 requires the target's parent to exist, and section 4 of RFC 6901 lets
  an array parent take only a numeric index, not `mutated_default`.

## Model

| member | source | states |
|---|---|---|
| `Admission.BuildResponse` | pkg/plugin/resources.go:87-139 | The step-by-step construction of the response (an allowing default, then the updates under the mode and `spec`) yields exactly the reference decision, including the panic of the `fail_validation` assertion |
| `Admission.PerformValidationOrMutation` | pkg/plugin/resources.go:62-139 | The reply is `Handle` of what was read: a body that failed to decode or convert gets a 400 reply with that error and no decision; a `null` body, which decodes to a nil request, crashes the handler at line 74; a request that decodes to a request object gets the decision's response for its UID and resource in the given mode, or crashes when the decision panics |
| `AdmissionProperties.HandleByInput` | pkg/plugin/resources.go:67-101 | The handler replies 400 exactly when the body could not be read, crashes exactly on a `null` body or a panicking decision, and otherwise answers with the decision's response |
| `Admission.CallValidation` | pkg/plugin/resources.go:53-55 | The validation endpoint's reply is `Handle` in validation mode (`isMutating = false`) |
| `Admission.CallMutation` | pkg/plugin/resources.go:57-59 | The mutation endpoint's reply is `Handle` in mutation mode (`isMutating = true`) |
| `AdmissionProperties.UidPreserved` | pkg/plugin/resources.go:87-88 | Every response carries the request's UID, in both modes and for every resource |
| `AdmissionProperties.NoSpecAllows` | pkg/plugin/resources.go:87-97 | With no `spec` key or a null `spec`, both modes allow, with no status, no patch and no patch type |
| `AdmissionProperties.ValidationDenies` | pkg/plugin/resources.go:100-112 | In validation mode, `fail_validation == true` denies with the (empty) status and no patch or patch type |
| `AdmissionProperties.ValidationAllows` | pkg/plugin/resources.go:100-101 | In validation mode, `fail_validation == false` allows with no status, no patch and no patch type |
| `AdmissionProperties.PanicsExactly` | pkg/plugin/resources.go:97-101 | The decision panics if and only if it is in validation mode, `spec` is present, and `spec.fail_validation` is not a boolean (also when `spec` is not an object) |
| `AdmissionProperties.DeniesExactly` | pkg/plugin/resources.go:89-102 | A response denies if and only if the mode is validation and `spec.fail_validation` is `true`, so mutation never denies |
| `AdmissionProperties.MutationPatches` | pkg/plugin/resources.go:113-136 | With any `spec` present, mutation allows and sets the patch type to JSON Patch. The patch is exactly the one `add` of `/spec/mutated_default` with a "Success" status when serialisation succeeds, and absent with the "Could not translate the patch" status when it fails |
| `AdmissionProperties.MutationIgnoresContent` | pkg/plugin/resources.go:113-137 | Mutation reads nothing of the resource beyond whether `spec` is present: two resources that agree on that get the same response |
| `AdmissionProperties.PatchTypeAccompaniesPatch` | pkg/plugin/resources.go:119-136 | A patch never comes without the JSON Patch type. The type comes without a patch exactly when a mutation's patch failed to serialise |
| `AdmissionProperties.DefaultPathTokens` | pkg/plugin/resources.go:116 | The emitted path reads, as a JSON Pointer, as the two tokens `spec` and `mutated_default` |
| `AdmissionProperties.MutationPatchEffect` | pkg/plugin/resources.go:114-119 | Applying the emitted patch to a resource whose `spec` is an object gives that resource with `spec.mutated_default = "default_value"` and everything else unchanged |
| `AdmissionProperties.MutationPatchRejected` | pkg/plugin/resources.go:97-119 | When `spec` is present but not an object, mutation still emits the patch, and applying it to the resource fails |
| `JsonPointer.ParseRender` | pkg/plugin/resources.go:116 | Every sequence of reference tokens, rendered as a pointer with '~' and '/' escaped, reads back as the same tokens |
| `JsonPointer.RenderParse` | pkg/plugin/resources.go:116 | Every pointer text that reads successfully is the rendering of the tokens it reads as, so reading and rendering are inverse |
| `JsonPatch.AddAtResolves` | pkg/plugin/resources.go:114-118 | After a successful `add`, the target pointer resolves to the added value, unless the `add` appended to an array with "-" (on an object, "-" is an ordinary member name and is covered) |
| `JsonPatch.AddAtKeepsSiblings` | pkg/plugin/resources.go:114-118 | An `add` into an object keeps every member other than the first token's unchanged and adds no other member |

## Left out

- `handlePing` and `handleEcho` (pkg/plugin/resources.go:14-44) are demo endpoints with no decision logic.
- `registerRoutes` (pkg/plugin/resources.go:47-50) is HTTP mux registration. The model keeps only the endpoint-to-mode mapping, in `CallValidation` and `CallMutation`.
- Request decoding and object conversion (pkg/plugin/resources.go:67-83) call JSON and Kubernetes library code. They are one abstract `ReadRequest`. Its `Unreadable` case stands for any of the three failures that reply 400, and its `NullRequest` case for the `null` body that decodes to a nil request.
- Response encoding and writing (pkg/plugin/resources.go:143-149) are I/O: the headers, the JSON encoding of the response and its 500 reply on failure. The model's `Reply` stops at the response value.
- `json.Marshal` of the patch (pkg/plugin/resources.go:119) is the parameter `marshalOk`. The exact bytes of the serialised patch are not modelled; the patch is the sequence of operations it encodes.
- Logging (pkg/plugin/resources.go:65, 141) has no behaviour to verify.
- Concurrency: the handler keeps no state between calls, so there is nothing to model.
- `AuditAnnotations` and `Warnings` of the response, and the `TypeMeta`, `ListMeta` and `Details` of a status, are always empty and not modelled.
- JSON numbers are integers. The decision never inspects a number, and a non-integer number would make the `fail_validation` assertion panic just as an integer does.
- JSON Patch operations other than `add` are rejected as unsupported. The handler emits only `add`.
- What a panic does to the HTTP connection is left to whatever serves the mux and is not modelled. The reply is just `Crashed`.
