# pod-mutating-webhook: the label-patch rules in Dafny

The webhook is a Kubernetes mutating admission endpoint. For every pod it is
asked about, it answers with an RFC 6902 JSON Patch that sets the label
`cumulo.ai`. This project models the patch-generation logic of `main.go`:

- the live rule `GenerateJSONPatch`. It writes `"false"` into the pod's label
  map when the label is present with any value and `"true"` when it is absent.
  It then emits `[{"op":"add","path":"/metadata/labels/cumulo.ai","value":<v>}]`;
- the earlier variants that are still in the file. `GenerateJSONPatchPrev`
  only reads the pod and uses "replace" when the label exists.
  `GenerateJSONPatchPrev2` flips the current value. `GenerateJSONPatchPrev3`
  and `GenerateJSONPatchPrev4` behave like the live rule, and
  `GenerateJSONPatchPrev5` is the live rule with "replace". `addLabels`
  always writes `"true"`, with "add" when the label reads as empty and
  "replace" otherwise;
- `addResourceLimits`, a loop that emits one "add" operation per container
  whose `resources.limits` is nil;
- the part of `handleMutate` that builds the `AdmissionResponse` from the
  request UID and the result of `GenerateJSONPatch`.

Modules:

- `Wrappers`: an Option type, and a Result type for Go's `(value, error)` returns.
- `Ascii`: the `[]byte` json.Marshal returns, one byte per ASCII character.
- `Decimal`: `%d` formatting of an index, and its inverse.
- `JsonPatch`: the operation datatypes, json.Marshal for the fixed shapes used
  here, and a decoder for exactly those shapes. The decoder is not part of the
  program. It exists so that the round trip `Decode(Encode(ops)) == ops`
  can be stated and proved.
- `Pods`: the pod. It is a class, because the variants write its label map
  in place. `labels` is `None` for a nil map, and `Lookup`/`Index` give Go's
  nil-safe map reads.
- `LabelPatch`, `ResourcePatch`, `Admission`: the three parts listed above.

The code writes `pod.Labels` in place (main.go:357, 360), so
`GenerateJSONPatch` and variants 2 to 5 are methods with `modifies pod`.
Their contracts give the whole new label map. `addLabels` and
`GenerateJSONPatchPrev` only read the pod, so they are functions of the
label map.

In Go, writing into a nil map panics. Every variant that writes the label
(main.go:357, 360, 198-205, 240-243, 280-283, 322-325) therefore requires
`pod.labels.Some?`. The read-only variants accept a nil map, which reads as
empty.

## Model

| member | source | states |
|---|---|---|
| `LabelPatch.GenerateJSONPatch` | main.go:353-379 | new label map = old map with `cumulo.ai` set to "false" if it was present, "true" if absent; containers untouched; the returned bytes decode to exactly `[add /metadata/labels/cumulo.ai <that value>]` |
| `LabelPatch.SetPresenceLabel` | main.go:355-361 | the in-place write of the live rule: the value written is the presence rule's, every other label is kept |
| `LabelPatch.PresenceValue` | main.go:355-361 | the live decision: the value is "true" exactly when the label is absent, and is always "true" or "false" |
| `LabelPatch.WithLabel` | main.go:357 | after `labels["cumulo.ai"] = v` the key holds v and every other key keeps its presence and value |
| `LabelPatch.SecondCallYieldsFalse` | main.go:355-361 | a second application of the live rule to the map it produced always yields "false" |
| `LabelPatch.PresenceSettles` | main.go:355-361 | after two applications of the live rule, any further application leaves the label map unchanged |
| `LabelPatch.PresenceFixpoint` | main.go:355-361 | a label map whose `cumulo.ai` already reads "false" is left unchanged by the live rule |
| `LabelPatch.GenerateTwice` | main.go:353-379 | two admissions of the same pod object: the first patch carries the presence value, the second "false"; the final labels are the old map with the presence value and then "false" written; containers untouched |
| `LabelPatch.LabelOperation` | main.go:364-370 | the `Operation{Op, Path, Value}` literal: the given op, the fixed path `/metadata/labels/cumulo.ai`, the given string value |
| `LabelPatch.LabelPatchDocument` | main.go:364-373 | the one-element patch document is ASCII and decodes back to exactly that one operation |
| `LabelPatch.LabelPatchBytes` | main.go:373-378 | the bytes returned decode to exactly the one operation `{op, /metadata/labels/cumulo.ai, value}` |
| `LabelPatch.LabelPatchText` | main.go:364-373 | the document is exactly `[{"op":"<op>","path":"/metadata/labels/cumulo.ai","value":"<v>"}]`: keys in struct order, no white space |
| `LabelPatch.AddLabelsOperation` | main.go:116-128 | addLabels' operation: value always "true", fixed path; "add" exactly when the label is missing, the map nil, or the value "" |
| `LabelPatch.AddLabels` | main.go:113-131 | addLabels' bytes decode to that single operation; the pod is only read |
| `LabelPatch.PrevOperation` | main.go:166-172 | absent label gives add/"true", present label (any value) gives replace/"false" |
| `LabelPatch.GenerateJSONPatchPrev` | main.go:158-183 | the bytes decode to that single operation; the pod is only read (nil labels read as empty) |
| `LabelPatch.FlipValue` | main.go:194-206 | the flip rule: "false" exactly when the label is present with value "true" |
| `LabelPatch.GenerateJSONPatchPrev2` | main.go:192-234 | new label map = old map with the flipped value; the patch is add with that value |
| `LabelPatch.FlipAlternates` | main.go:194-206 | two successive flips always emit different values |
| `LabelPatch.FlipVersusPresence` | main.go:194-206 | the flip rule and the live rule disagree exactly when the label is present with a value other than "true" |
| `LabelPatch.GenerateJSONPatchPrev3` | main.go:236-269 | same new state and same patch as the live rule |
| `LabelPatch.GenerateJSONPatchPrev4` | main.go:272-311 | same new state and same patch as the live rule |
| `LabelPatch.GenerateJSONPatchPrev5` | main.go:317-348 | same new state as the live rule; the patch uses "replace" |
| `ResourcePatch.ContainerPath` | main.go:91 | `/spec/containers/%d/resources` is plain JSON text |
| `ResourcePatch.ContainerPathInjective` | main.go:91 | two containers get the same path exactly when they have the same index |
| `ResourcePatch.ResourceOperation` | main.go:89-102 | the operation for container i is "add" on that container's own path `ContainerPath(i)`, with requests 150m/128Mi and limits 300m/256Mi |
| `ResourcePatch.ResourceOps` | main.go:86-105 | at most one operation per container |
| `ResourcePatch.ResourceSlice` | main.go:86-105 | the Go slice is nil exactly when no operation was appended |
| `ResourcePatch.ResourceOpsFromUnlimited` | main.go:87-104 | every emitted operation is the one for some container whose limits are nil |
| `ResourcePatch.ResourceOpsCover` | main.go:87-104 | the operation for index i is emitted exactly when container i exists and has nil limits |
| `ResourcePatch.ResourceOpsOrdered` | main.go:87-104 | operations appear in container order: strictly increasing indices |
| `ResourcePatch.ResourceOpsEmpty` | main.go:86-109 | no operation exactly when every container has limits |
| `ResourcePatch.ResourcePatchDocument` | main.go:86-109 | the document is `null` exactly when every container has limits, and decodes to the emitted operations |
| `ResourcePatch.AddResourceLimits` | main.go:82-111 | the loop builds exactly the slice `ResourceSlice` describes; the returned bytes are its marshalled form and decode to exactly those operations |
| `Admission.Respond` | main.go:58-75 | UID copied from the request; patch type JSONPatch; allowed with "Success" exactly when generation returned no error, otherwise denied with "Failed" and nil patch |
| `Admission.AllowedIffSuccess` | main.go:64-75 | a response allows exactly when its status is "Success", and denies exactly when it is "Failed" |
| `Admission.LiveResponse` | main.go:58-77 | for the live rule the response always allows, and its patch decodes to the one label operation |
| `Admission.HandleMutate` | main.go:58-77 | the handler patches the pod's labels in place as the live rule does, keeps its containers, and returns an allowing response whose patch decodes to the live rule's operation |
| `Pods.Lookup` | main.go:355 | Go's `v, ok := m[k]`: found exactly when the map is non-nil and holds the key, and then with the stored value |
| `Pods.Index` | main.go:116 | Go's `m[k]`: the stored value, or `""` when the key is missing or the map nil |
| `JsonPatch.Quote` | main.go:185-190 | a string needing no escape is written as ASCII, two characters longer, opening with `"` |
| `JsonPatch.EncodeQuantities` | main.go:93-100 | a requests or limits object is ASCII text; the key order `cpu`, `memory` (Go's sorted map keys) is fixed by the encoder's body, not proved, and `ParseQuantitiesOf` is its proved inverse |
| `JsonPatch.ParseQuantitiesOf` | main.go:93-100 | the object followed by anything decodes back to the same cpu and memory and the rest |
| `JsonPatch.EncodeValue` | main.go:92-101 | a value is ASCII and opens with `"` for a string and `{` for a resources object; the key order `limits`, `requests` (Go's sorted map keys) is fixed by the encoder's body, not proved, and `ParseValueOf` is its proved inverse |
| `JsonPatch.ParseValueOf` | main.go:92-101 | a value followed by anything decodes back to the same value and the rest |
| `JsonPatch.EncodeOperation` | main.go:185-190 | an operation object is ASCII and opens with `{`; it writes `op`, `path`, `value` in that order, the struct's field order and also sorted order, and `ParseOperationOf` is its proved inverse |
| `JsonPatch.EncodeArray` | main.go:373 | a marshalled non-nil slice is ASCII and bracketed |
| `JsonPatch.EncodeSlice` | main.go:86 | a marshalled slice is `null` exactly when the slice is nil |
| `JsonPatch.DecodeEncodeArray` | main.go:364-373 | decoding a marshalled array gives back its operations in order |
| `JsonPatch.DecodeEncodeSlice` | main.go:86-109 | decoding a marshalled slice gives its operations, none for `null` |
| `JsonPatch.ParseOperationOf` | main.go:185-190 | an operation object followed by anything decodes to that operation and the rest |
| `JsonPatch.ParseElementsOf` | main.go:373 | comma-separated operations followed by `]` decode to the same list |
| `Decimal.FormatNat` | main.go:91 | `%d` of an index: at least one digit, only digits, no leading zero |
| `Decimal.ParseFormatNat` | main.go:91 | the digits `%d` prints read back as the same number |
| `Decimal.FormatNatInjective` | main.go:91 | different indices print differently |
| `Ascii.FromToBytes` | main.go:373 | the marshalled bytes, read as characters, are the JSON text |

## Left out

- The gin server, TLS start-up and `/healtz` endpoint (main.go:18-35): network plumbing.
- `c.BindJSON` and `json.Unmarshal` of the AdmissionReview and pod (main.go:42-56), and `c.JSON` (main.go:79): generic JSON through libraries that are not part of this model. The request is modelled as its UID, and the pod as its label map plus its containers.
- A nil pod pointer, which `json.Unmarshal` yields for the input `null`. The model's `Pod` is a non-null reference.
- All `log.Println` and `fmt.Println` calls: output with no effect on the result.
- General `json.Marshal`. Only the fixed shapes are modelled, and only for strings that need no escape (`JsonPatch.Plain`). Every string these functions emit is of that kind.
- json.Marshal's error results: marshalling these string-only shapes cannot fail, so the `err != nil` branches in main.go are never taken. `Admission.Respond` still takes the error case as an input.
- `handleMutate` only ever calls `GenerateJSONPatch`. `addLabels`, `addResourceLimits` and the Prev variants are never called in the program; they are modelled on their own.
- `Pods.Container` keeps only whether `resources.limits` is nil. The rest of the Kubernetes types (`corev1.Pod`, `v1.AdmissionResponse`, `metav1.Status`) is left out except for the fields read or written.
- A single long literal for each of the two live documents: the verifier does not compare long literal strings character by character. `LabelPatch.LabelPatchText` states the exact document with `op` and `value` as parameters instead. The four example pods (an empty, non-nil label map, `cumulo.ai` = "true", `cumulo.ai` = "false", only an unrelated label) are verified as client methods `LabelPatch.ExampleEmptyLabels`, `ExampleLabelTrue`, `ExampleLabelFalse` and `ExampleOtherLabel`, against `LabelPatchBytes`.
- `Admission.HandleMutate` requires `pod.labels.Some?`. A pod that arrives without `metadata.labels` has a nil map, so `GenerateJSONPatch` panics at the write on main.go:360 and the real handler never answers. The model does not cover that request.
