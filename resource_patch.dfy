/**
 * addResourceLimits: one "add" operation per container whose resources.limits
 * is nil, setting fixed requests and limits at that container's index.
 */
module ResourcePatch {
  import opened Wrappers
  import opened Ascii
  import opened Decimal
  import opened JsonPatch
  import opened Pods

  const PathPrefix: string := "/spec/containers/"
  const PathSuffix: string := "/resources"

  /** The value written for every such container: requests 150m/128Mi, limits 300m/256Mi. */
  const DefaultResources: Value := Resources(Quantities("150m", "128Mi"), Quantities("300m", "256Mi"))

  /** `fmt.Sprintf("/spec/containers/%d/resources", i)`. */
  function ContainerPath(i: nat): (p: string)
    ensures Plain(p)
  {
    var digits := FormatNat(i);
    assert Plain(digits) by {
      forall k | 0 <= k < |digits| ensures PlainChar(digits[k]) {
        assert IsDigit(digits[k]);
      }
    }
    assert Plain(PathPrefix) && Plain(PathSuffix);
    PlainConcat(PathPrefix, digits);
    PlainConcat(PathPrefix + digits, PathSuffix);
    PathPrefix + digits + PathSuffix
  }

  /** Different containers get different paths. */
  lemma ContainerPathInjective(i: nat, j: nat)
    ensures ContainerPath(i) == ContainerPath(j) <==> i == j
  {
    if ContainerPath(i) == ContainerPath(j) {
      var p := ContainerPath(i);
      var n := |PathPrefix|;
      assert |FormatNat(i)| == |p| - n - |PathSuffix| == |FormatNat(j)|;
      assert p[n..|p| - |PathSuffix|] == FormatNat(i);
      assert ContainerPath(j)[n..|p| - |PathSuffix|] == FormatNat(j);
      FormatNatInjective(i, j);
    }
  }

  function ResourceOperation(i: nat): (o: Operation)
    ensures PlainOperation(o)
    ensures o.op == "add" && o.path == ContainerPath(i) && o.value == DefaultResources
  {
    var o := Operation("add", ContainerPath(i), DefaultResources);
    assert Plain("add") && Plain("150m") && Plain("128Mi") && Plain("300m") && Plain("256Mi");
    o
  }

  /** The operations emitted for the containers cs, in the order the loop appends them. */
  function ResourceOps(cs: seq<Container>): (ops: seq<Operation>)
    ensures |ops| <= |cs|
    decreases |cs|
  {
    if cs == [] then []
    else
      var n := |cs| - 1;
      ResourceOps(cs[..n]) + (if cs[n].hasLimits then [] else [ResourceOperation(n)])
  }

  /** The Go slice the loop builds: nil until the first append. */
  function ResourceSlice(cs: seq<Container>): (slice: Option<seq<Operation>>)
    ensures slice.Some? ==> slice.value == ResourceOps(cs) && slice.value != []
    ensures slice.None? ==> ResourceOps(cs) == []
  {
    if ResourceOps(cs) == [] then None else Some(ResourceOps(cs))
  }

  lemma {:induction false} ResourceOpsPlain(cs: seq<Container>)
    ensures PlainOperations(ResourceOps(cs))
    decreases |cs|
  {
    if cs != [] {
      var n := |cs| - 1;
      ResourceOpsPlain(cs[..n]);
    }
  }

  /** Every emitted operation is the one for some container without limits. */
  lemma {:induction false} ResourceOpsFromUnlimited(cs: seq<Container>)
    ensures forall k :: 0 <= k < |ResourceOps(cs)| ==>
      exists i :: 0 <= i < |cs| && !cs[i].hasLimits && ResourceOps(cs)[k] == ResourceOperation(i)
    decreases |cs|
  {
    if cs != [] {
      var n := |cs| - 1;
      var front := cs[..n];
      ResourceOpsFromUnlimited(front);
      var ops, fops := ResourceOps(cs), ResourceOps(front);
      assert ops == fops + (if cs[n].hasLimits then [] else [ResourceOperation(n)]);
      forall k | 0 <= k < |ops|
        ensures exists i :: 0 <= i < |cs| && !cs[i].hasLimits && ops[k] == ResourceOperation(i)
      {
        if k < |fops| {
          assert exists i :: 0 <= i < |front| && !front[i].hasLimits && ResourceOps(front)[k] == ResourceOperation(i);
          var i :| 0 <= i < |front| && !front[i].hasLimits && fops[k] == ResourceOperation(i);
          assert cs[i] == front[i] && ops[k] == fops[k];
        } else {
          assert !cs[n].hasLimits && ops[k] == ResourceOperation(n);
        }
      }
    } else {
      assert ResourceOps(cs) == [];
    }
  }

  /** Exactly the containers without limits get an operation. */
  lemma {:induction false} ResourceOpsCover(cs: seq<Container>, i: nat)
    ensures ResourceOperation(i) in ResourceOps(cs) <==> i < |cs| && !cs[i].hasLimits
    decreases |cs|
  {
    if cs != [] {
      var n := |cs| - 1;
      var front := cs[..n];
      ResourceOpsCover(front, i);
      ContainerPathInjective(i, n);
      if i < n {
        assert cs[i] == front[i];
      }
    }
  }

  /** The operations follow container order: earlier operations name smaller indices. */
  lemma {:induction false} ResourceOpsOrdered(cs: seq<Container>)
    ensures forall k1, k2, i1: nat, i2: nat ::
      0 <= k1 < k2 < |ResourceOps(cs)| &&
      ResourceOps(cs)[k1] == ResourceOperation(i1) && ResourceOps(cs)[k2] == ResourceOperation(i2)
      ==> i1 < i2
    decreases |cs|
  {
    if cs != [] {
      var n := |cs| - 1;
      var front := cs[..n];
      ResourceOpsOrdered(front);
      var ops := ResourceOps(cs);
      forall k1, k2, i1: nat, i2: nat |
        0 <= k1 < k2 < |ops| && ops[k1] == ResourceOperation(i1) && ops[k2] == ResourceOperation(i2)
        ensures i1 < i2
      {
        assert ops[k1] == ResourceOps(front)[k1];
        ResourceOpsCover(front, i1);
        assert i1 < n;
        if k2 < |ResourceOps(front)| {
          assert ops[k2] == ResourceOps(front)[k2];
        } else {
          ContainerPathInjective(i2, n);
        }
      }
    }
  }

  /** The patch is JSON null exactly when every container already has limits. */
  lemma {:induction false} ResourceOpsEmpty(cs: seq<Container>)
    ensures ResourceOps(cs) == [] <==> forall i :: 0 <= i < |cs| ==> cs[i].hasLimits
    decreases |cs|
  {
    if cs != [] {
      var n := |cs| - 1;
      ResourceOpsEmpty(cs[..n]);
      assert forall i :: 0 <= i < n ==> cs[..n][i] == cs[i];
    }
  }

  /** json.Marshal of the slice the loop builds; `null` when nothing was appended. */
  function ResourcePatchDocument(cs: seq<Container>): (doc: string)
    ensures IsAscii(doc)
    ensures doc == "null" <==> forall i :: 0 <= i < |cs| ==> cs[i].hasLimits
    ensures Decode(doc) == Some(ResourceOps(cs))
  {
    ResourceOpsPlain(cs);
    ResourceOpsEmpty(cs);
    DecodeEncodeSlice(ResourceSlice(cs));
    EncodeSlice(ResourceSlice(cs))
  }

  /** The loop of addResourceLimits over the pod's containers, then json.Marshal of the slice. */
  method AddResourceLimits(pod: Pod) returns (patch: seq<byte>)
    ensures patch == ToBytes(ResourcePatchDocument(pod.containers))
    ensures DecodeBytes(patch) == Some(ResourceOps(pod.containers))
  {
    var containers := pod.containers;
    var slice: Option<seq<Operation>> := None;
    for i := 0 to |containers|
      invariant slice == ResourceSlice(containers[..i])
    {
      var container := containers[i];
      if !container.hasLimits {
        slice := Some(slice.GetOr([]) + [Operation("add", ContainerPath(i), DefaultResources)]);
      }
      AppendStep(containers, i);
    }
    assert containers[..|containers|] == containers;
    ResourceOpsPlain(containers);
    var doc := EncodeSlice(slice);
    assert doc == ResourcePatchDocument(containers);
    FromToBytes(doc);
    patch := ToBytes(doc);
  }

  /** One turn of the loop: the slice for containers[..i + 1] from the one for containers[..i]. */
  lemma AppendStep(containers: seq<Container>, i: nat)
    requires i < |containers|
    ensures var before := ResourceSlice(containers[..i]);
            var after := if containers[i].hasLimits then before
                         else Some(before.GetOr([]) + [Operation("add", ContainerPath(i), DefaultResources)]);
            after == ResourceSlice(containers[..i + 1])
  {
    assert containers[..i + 1][..i] == containers[..i];
    var front := ResourceOps(containers[..i]);
    if containers[i].hasLimits {
      assert ResourceOps(containers[..i + 1]) == front + [];
      assert front + [] == front;
    } else {
      assert ResourceOps(containers[..i + 1]) == front + [ResourceOperation(i)];
    }
  }
}
