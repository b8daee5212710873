/**
 * The label patches of main.go: the live rule GenerateJSONPatch, its earlier
 * variants GenerateJSONPatchPrev .. GenerateJSONPatchPrev5, and addLabels.
 * Each emits a one-operation JSON Patch (RFC 6902) on the label "cumulo.ai".
 */
module LabelPatch {
  import opened Wrappers
  import opened Ascii
  import opened JsonPatch
  import opened Pods

  const LabelKey: string := "cumulo.ai"
  const LabelPath: string := "/metadata/labels/cumulo.ai"

  /** The operation kinds and label values the variants use. */
  predicate IsOpKind(op: string) {
    op == "add" || op == "replace"
  }

  predicate IsFlag(v: string) {
    v == "true" || v == "false"
  }

  function LabelOperation(op: string, value: string): (o: Operation)
    ensures o.op == op && o.path == LabelPath && o.value == Text(value)
  {
    Operation(op, LabelPath, Text(value))
  }

  lemma LabelOperationPlain(op: string, value: string)
    requires IsOpKind(op) && IsFlag(value)
    ensures PlainOperations([LabelOperation(op, value)])
  {
    assert Plain(LabelPath);
    assert Plain(op);
    assert Plain(value);
  }

  /** The JSON text json.Marshal writes for the one-element patch `[{op, LabelPath, value}]`. */
  function LabelPatchDocument(op: string, value: string): (doc: string)
    requires IsOpKind(op) && IsFlag(value)
    ensures IsAscii(doc)
    ensures Decode(doc) == Some([LabelOperation(op, value)])
  {
    LabelOperationPlain(op, value);
    DecodeEncodeArray([LabelOperation(op, value)]);
    EncodeArray([LabelOperation(op, value)])
  }

  /** The same patch as the bytes GenerateJSONPatch and its variants return. */
  function LabelPatchBytes(op: string, value: string): (patch: seq<byte>)
    requires IsOpKind(op) && IsFlag(value)
    ensures DecodeBytes(patch) == Some([LabelOperation(op, value)])
  {
    FromToBytes(LabelPatchDocument(op, value));
    ToBytes(LabelPatchDocument(op, value))
  }

  /** The document, character by character: keys in struct order, no white space. */
  lemma LabelPatchText(op: string, value: string)
    requires IsOpKind(op) && IsFlag(value)
    ensures LabelPatchDocument(op, value)
         == "[{\"op\":\"" + op + "\",\"path\":\"/metadata/labels/cumulo.ai\",\"value\":\"" + value + "\"}]"
  {
    LabelOperationPlain(op, value);
    var o := LabelOperation(op, value);
    var ops := [o];
    assert EncodeElements(ops) == EncodeOperation(o);
    assert EncodeArray(ops) == "[" + EncodeOperation(o) + "]";
    MergeLabelText(op, value);
  }

  lemma MergeLabelText(op: string, value: string)
    ensures "[" + ("{\"op\":" + ("\"" + op + "\"") + ",\"path\":" + ("\"" + LabelPath + "\"")
                   + ",\"value\":" + ("\"" + value + "\"") + "}") + "]"
         == "[{\"op\":\"" + op + "\",\"path\":\"/metadata/labels/cumulo.ai\",\"value\":\"" + value + "\"}]"
  {
    var middle := "\",\"path\":\"" + LabelPath + "\",\"value\":\"";
    assert middle == "\",\"path\":\"/metadata/labels/cumulo.ai\",\"value\":\"";
    RegroupLabelText(op, value, middle);
  }

  lemma RegroupLabelText(op: string, value: string, middle: string)
    requires middle == "\",\"path\":\"" + LabelPath + "\",\"value\":\""
    ensures "[" + ("{\"op\":" + ("\"" + op + "\"") + ",\"path\":" + ("\"" + LabelPath + "\"")
                   + ",\"value\":" + ("\"" + value + "\"") + "}") + "]"
         == "[{\"op\":\"" + op + middle + value + "\"}]"
  {
    Flatten("[", "{\"op\":", "\"", op, ",\"path\":", LabelPath, ",\"value\":", value, "}", "]");
    assert "[" + "{\"op\":" + "\"" == "[{\"op\":\"";
    assert "\"" + ",\"path\":" + "\"" == "\",\"path\":\"";
    assert "\"" + ",\"value\":" + "\"" == "\",\"value\":\"";
    assert "\"" + "}" + "]" == "\"}]";
  }

  /** Regrouping the pieces of an encoded label operation; only associativity is used. */
  lemma Flatten(l: string, p1: string, q: string, op: string, p2: string, path: string,
                p3: string, value: string, c: string, r: string)
    ensures l + (p1 + (q + op + q) + p2 + (q + path + q) + p3 + (q + value + q) + c) + r
         == (l + p1 + q) + op + ((q + p2 + q) + path + (q + p3 + q)) + value + (q + c + r)
  {
  }

  // ---------------------------------------------------------------- decision rules

  /** The live rule: "false" when the label is present with any value, "true" when it is absent. */
  function PresenceValue(labels: map<string, string>): (v: string)
    ensures IsFlag(v)
    ensures v == "true" <==> LabelKey !in labels
  {
    if LabelKey in labels then "false" else "true"
  }

  /** GenerateJSONPatchPrev2's rule: "false" when the label is "true", otherwise "true". */
  function FlipValue(labels: map<string, string>): (v: string)
    ensures IsFlag(v)
    ensures v == "false" <==> LabelKey in labels && labels[LabelKey] == "true"
  {
    if LabelKey in labels && labels[LabelKey] == "true" then "false" else "true"
  }

  /**
   * The label map after `labels[LabelKey] = value`: the key holds value and
   * every other key keeps its entry.
   */
  function WithLabel(labels: map<string, string>, value: string): (r: map<string, string>)
    ensures LabelKey in r && r[LabelKey] == value
    ensures forall k :: k != LabelKey ==> (k in r <==> k in labels)
    ensures forall k :: k != LabelKey && k in labels ==> r[k] == labels[k]
  {
    labels[LabelKey := value]
  }

  /** After one application of the live rule the label is present, so the next one yields "false". */
  lemma SecondCallYieldsFalse(labels: map<string, string>)
    ensures PresenceValue(WithLabel(labels, PresenceValue(labels))) == "false"
  {
  }

  /** After two applications of the live rule, any further application leaves the map unchanged. */
  lemma PresenceSettles(labels: map<string, string>)
    ensures var once := WithLabel(labels, PresenceValue(labels));
            var twice := WithLabel(once, PresenceValue(once));
            WithLabel(twice, PresenceValue(twice)) == twice
  {
  }

  /** A map whose label already reads "false" is a fixed point of the live rule. */
  lemma PresenceFixpoint(labels: map<string, string>)
    requires LabelKey in labels && labels[LabelKey] == "false"
    ensures WithLabel(labels, PresenceValue(labels)) == labels
  {
  }

  /** Applying the flip rule twice from any state alternates the emitted value. */
  lemma FlipAlternates(labels: map<string, string>)
    ensures FlipValue(WithLabel(labels, FlipValue(labels))) != FlipValue(labels)
  {
  }

  /** The two rules differ exactly on a label present with a value other than "true". */
  lemma FlipVersusPresence(labels: map<string, string>)
    ensures FlipValue(labels) != PresenceValue(labels)
        <==> LabelKey in labels && labels[LabelKey] != "true"
  {
  }

  // ---------------------------------------------------------------- pure variants

  /** addLabels: "add" when the label reads as "" (missing, nil map, or empty value), else "replace". */
  function AddLabelsOperation(labels: Option<map<string, string>>): (o: Operation)
    ensures o == LabelOperation(o.op, "true")
    ensures o.op == "add" <==> Lookup(labels, LabelKey) == None || Lookup(labels, LabelKey) == Some("")
    ensures o.op == "replace" <==> !(o.op == "add")
  {
    if Index(labels, LabelKey) == "" then LabelOperation("add", "true")
    else LabelOperation("replace", "true")
  }

  function AddLabels(labels: Option<map<string, string>>): (patch: seq<byte>)
    ensures DecodeBytes(patch) == Some([AddLabelsOperation(labels)])
  {
    var o := AddLabelsOperation(labels);
    LabelPatchBytes(o.op, "true")
  }

  /** GenerateJSONPatchPrev: presence-based, "replace" when the label exists; the pod is only read. */
  function PrevOperation(labels: Option<map<string, string>>): (o: Operation)
    ensures Lookup(labels, LabelKey).None? ==> o == LabelOperation("add", "true")
    ensures Lookup(labels, LabelKey).Some? ==> o == LabelOperation("replace", "false")
  {
    match Lookup(labels, LabelKey)
    case None => LabelOperation("add", "true")
    case Some(_) => LabelOperation("replace", "false")
  }

  function GenerateJSONPatchPrev(labels: Option<map<string, string>>): (patch: seq<byte>)
    ensures DecodeBytes(patch) == Some([PrevOperation(labels)])
  {
    var o := PrevOperation(labels);
    LabelPatchBytes(o.op, o.value.text)
  }

  // ---------------------------------------------------------------- variants that write the pod

  /**
   * The first half of GenerateJSONPatch, Prev3, Prev4 and Prev5: set the
   * label in place by the live rule. Writing into a nil map panics in Go, so
   * the label map must exist.
   */
  method SetPresenceLabel(pod: Pod) returns (value: string)
    requires pod.labels.Some?
    modifies pod
    ensures value == PresenceValue(old(pod.labels.value))
    ensures pod.labels == Some(WithLabel(old(pod.labels.value), value))
    ensures pod.containers == old(pod.containers)
  {
    var labels := pod.labels.value;
    if LabelKey in labels {
      labels := labels[LabelKey := "false"];
    } else {
      labels := labels[LabelKey := "true"];
    }
    pod.labels := Some(labels);
    value := labels[LabelKey];
  }

  /** The live rule: set the label by presence, then emit it with "add". */
  method GenerateJSONPatch(pod: Pod) returns (patch: seq<byte>)
    requires pod.labels.Some?
    modifies pod
    ensures pod.labels == Some(WithLabel(old(pod.labels.value), PresenceValue(old(pod.labels.value))))
    ensures pod.containers == old(pod.containers)
    ensures patch == LabelPatchBytes("add", pod.labels.value[LabelKey])
    ensures DecodeBytes(patch) == Some([LabelOperation("add", PresenceValue(old(pod.labels.value)))])
  {
    var value := SetPresenceLabel(pod);
    patch := LabelPatchBytes("add", value);
  }

  method GenerateJSONPatchPrev3(pod: Pod) returns (patch: seq<byte>)
    requires pod.labels.Some?
    modifies pod
    ensures pod.labels == Some(WithLabel(old(pod.labels.value), PresenceValue(old(pod.labels.value))))
    ensures pod.containers == old(pod.containers)
    ensures patch == LabelPatchBytes("add", PresenceValue(old(pod.labels.value)))
  {
    var value := SetPresenceLabel(pod);
    patch := LabelPatchBytes("add", value);
  }

  method GenerateJSONPatchPrev4(pod: Pod) returns (patch: seq<byte>)
    requires pod.labels.Some?
    modifies pod
    ensures pod.labels == Some(WithLabel(old(pod.labels.value), PresenceValue(old(pod.labels.value))))
    ensures pod.containers == old(pod.containers)
    ensures patch == LabelPatchBytes("add", PresenceValue(old(pod.labels.value)))
  {
    var value := SetPresenceLabel(pod);
    patch := LabelPatchBytes("add", value);
  }

  /** As the live rule, but the operation is "replace". */
  method GenerateJSONPatchPrev5(pod: Pod) returns (patch: seq<byte>)
    requires pod.labels.Some?
    modifies pod
    ensures pod.labels == Some(WithLabel(old(pod.labels.value), PresenceValue(old(pod.labels.value))))
    ensures pod.containers == old(pod.containers)
    ensures patch == LabelPatchBytes("replace", PresenceValue(old(pod.labels.value)))
  {
    var value := SetPresenceLabel(pod);
    patch := LabelPatchBytes("replace", value);
  }

  /** Flip the label's value in place ("true" becomes "false", anything else "true"), then emit it with "add". */
  method GenerateJSONPatchPrev2(pod: Pod) returns (patch: seq<byte>)
    requires pod.labels.Some?
    modifies pod
    ensures pod.labels == Some(WithLabel(old(pod.labels.value), FlipValue(old(pod.labels.value))))
    ensures pod.containers == old(pod.containers)
    ensures patch == LabelPatchBytes("add", FlipValue(old(pod.labels.value)))
  {
    var labels := pod.labels.value;
    if LabelKey !in labels {
      labels := labels[LabelKey := "true"];
    } else if labels[LabelKey] == "true" {
      labels := labels[LabelKey := "false"];
    } else {
      labels := labels[LabelKey := "true"];
    }
    pod.labels := Some(labels);
    patch := LabelPatchBytes("add", labels[LabelKey]);
  }

  // ---------------------------------------------------------------- clients

  /** Two admissions of the same pod object: the second patch always carries "false". */
  method GenerateTwice(pod: Pod) returns (first: seq<byte>, second: seq<byte>)
    requires pod.labels.Some?
    modifies pod
    ensures first == LabelPatchBytes("add", PresenceValue(old(pod.labels.value)))
    ensures second == LabelPatchBytes("add", "false")
    ensures pod.labels == Some(WithLabel(WithLabel(old(pod.labels.value), PresenceValue(old(pod.labels.value))), "false"))
    ensures pod.containers == old(pod.containers)
  {
    first := GenerateJSONPatch(pod);
    second := GenerateJSONPatch(pod);
  }

  /** An empty label map gives "true". */
  method ExampleEmptyLabels() {
    var pod := new Pod(Some(map[]), []);
    var patch := GenerateJSONPatch(pod);
    assert patch == LabelPatchBytes("add", "true");
  }

  /** A label "true" gives "false". */
  method ExampleLabelTrue() {
    var pod := new Pod(Some(map["cumulo.ai" := "true"]), []);
    var patch := GenerateJSONPatch(pod);
    assert patch == LabelPatchBytes("add", "false");
  }

  /** A label "false" gives "false": presence alone decides. */
  method ExampleLabelFalse() {
    var pod := new Pod(Some(map["cumulo.ai" := "false"]), []);
    var patch := GenerateJSONPatch(pod);
    assert patch == LabelPatchBytes("add", "false");
  }

  /** Unrelated labels are ignored and kept, and the label is added as "true". */
  method ExampleOtherLabel() {
    var pod := new Pod(Some(map["other-label" := "x"]), []);
    var patch := GenerateJSONPatch(pod);
    assert patch == LabelPatchBytes("add", "true");
    assert pod.labels.value["other-label"] == "x";
  }
}
