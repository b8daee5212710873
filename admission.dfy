/**
 * The part of handleMutate that builds the AdmissionResponse from the request
 * UID and what GenerateJSONPatch returned.
 */
module Admission {
  import opened Wrappers
  import opened Ascii
  import opened JsonPatch
  import opened Pods
  import opened LabelPatch

  /** v1.PatchTypeJSONPatch. */
  const JSONPatchType: string := "JSONPatch"

  /** The metav1.Status the handler attaches; only its Status field is set. */
  datatype Status = Status(status: string)

  /** The fields of v1.AdmissionResponse the handler sets. */
  datatype AdmissionResponse = AdmissionResponse(
    uid: string,
    allowed: bool,
    patchType: string,
    patch: Option<seq<byte>>,
    result: Status)

  /**
   * The response for a request with the given UID, when patch generation
   * returned `generated`: the patch bytes, or an error (with nil bytes).
   */
  function Respond(uid: string, generated: Result<seq<byte>, string>): (r: AdmissionResponse)
    ensures r.uid == uid
    ensures r.patchType == JSONPatchType
    ensures r.allowed <==> generated.Ok?
    ensures r.result == Status(if generated.Ok? then "Success" else "Failed")
    ensures generated.Ok? ==> r.patch == Some(generated.value)
    ensures generated.Err? ==> r.patch == None
  {
    match generated
    case Ok(patch) => AdmissionResponse(uid, true, JSONPatchType, Some(patch), Status("Success"))
    case Err(_) => AdmissionResponse(uid, false, JSONPatchType, None, Status("Failed"))
  }

  /** A response denies admission exactly when its status reads "Failed". */
  lemma AllowedIffSuccess(uid: string, generated: Result<seq<byte>, string>)
    ensures Respond(uid, generated).allowed <==> Respond(uid, generated).result.status == "Success"
    ensures !Respond(uid, generated).allowed <==> Respond(uid, generated).result.status == "Failed"
  {
  }

  /** For the live rule the response always allows, and its patch decodes to the one label operation. */
  lemma LiveResponse(uid: string, labels: map<string, string>)
    ensures var r := Respond(uid, Ok(LabelPatchBytes("add", PresenceValue(labels))));
            r.allowed && r.uid == uid && r.result.status == "Success" && r.patch.Some?
            && DecodeBytes(r.patch.value) == Some([LabelOperation("add", PresenceValue(labels))])
  {
  }

  /**
   * handleMutate from the decoded request on: the pod is patched in place by
   * GenerateJSONPatch, whose encoding cannot fail, and the response is built.
   */
  method HandleMutate(uid: string, pod: Pod) returns (r: AdmissionResponse)
    requires pod.labels.Some?
    modifies pod
    ensures pod.labels == Some(WithLabel(old(pod.labels.value), PresenceValue(old(pod.labels.value))))
    ensures pod.containers == old(pod.containers)
    ensures r == Respond(uid, Ok(LabelPatchBytes("add", PresenceValue(old(pod.labels.value)))))
    ensures r.allowed && r.uid == uid && r.patchType == JSONPatchType
    ensures r.patch.Some? && DecodeBytes(r.patch.value) == Some([LabelOperation("add", PresenceValue(old(pod.labels.value)))])
  {
    var patch := GenerateJSONPatch(pod);
    r := Respond(uid, Ok(patch));
  }
}
