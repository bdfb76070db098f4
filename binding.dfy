// The identity resolver's pure part: the "<namespace>/<name>" binding format,
// read from the remediation record's own annotation or from the Node's.

module Binding {
  import opened Wrappers
  import opened Errors
  import opened Resources
  import Strings

  /** The record's write-once annotation naming the Machine to follow. */
  const MachineNameNsAnnotation: string := "machine-deletion-remediation.medik8s.io/machineNameNamespace"

  /** The Node's annotation naming the Machine that created it. */
  const MachineAnnotationOpenshift: string := "machine.openshift.io/machine"

  /** The "%s/%s" rendering of namespace and name. */
  function Format(id: NamespacedName): (r: string)
    ensures |r| == |id.namespace| + 1 + |id.name| && r[|id.namespace|] == '/'
    ensures multiset(r)['/'] == multiset(id.namespace)['/'] + 1 + multiset(id.name)['/']
  {
    id.namespace + "/" + id.name
  }

  /**
   * extractNameAndNamespace: succeeds exactly when the value splits on "/"
   * into two parts, the namespace before and the name after; otherwise the
   * invalid-value error naming the node.
   */
  function ExtractNameAndNamespace(nameNs: string, nodeName: string): (r: Result<NamespacedName, Error>)
    ensures r.Success? <==> multiset(nameNs)['/'] == 1
    ensures r.Success? ==> Format(r.value) == nameNs && '/' !in r.value.namespace && '/' !in r.value.name
    ensures r.Failure? ==> r.error == InvalidValue(nodeName)
  {
    var parts := Strings.Split(nameNs, '/');
    if |parts| == 2 then
      assert Strings.Join(parts, '/') == parts[0] + "/" + parts[1];
      Success(NamespacedName(parts[0], parts[1]))
    else Failure(InvalidValue(nodeName))
  }

  /** Formatting then parsing gives the key back when neither part holds a "/". */
  lemma {:induction false} FormatThenExtract(id: NamespacedName, nodeName: string)
    requires '/' !in id.namespace && '/' !in id.name
    ensures ExtractNameAndNamespace(Format(id), nodeName) == Success(id)
  {
    Strings.SplitAtLoneSeparator(id.namespace, id.name, '/');
  }

  /**
   * getMachineNameNsFromRemediation: an absent binding reads as an empty
   * key; a malformed one is an error naming the record and the raw value.
   */
  function MachineNameNsFromRemediation(annotations: map<string, string>, remediation: string): (r: Result<NamespacedName, Error>)
    ensures MachineNameNsAnnotation !in annotations ==> r == Success(NamespacedName("", ""))
    ensures MachineNameNsAnnotation in annotations ==>
      (r.Success? <==> multiset(annotations[MachineNameNsAnnotation])['/'] == 1)
    ensures MachineNameNsAnnotation in annotations && r.Success? ==>
      Format(r.value) == annotations[MachineNameNsAnnotation]
    ensures r.Failure? ==>
      r.error == BadBinding(remediation, annotations[MachineNameNsAnnotation], InvalidValue(remediation))
  {
    if MachineNameNsAnnotation !in annotations then Success(NamespacedName("", ""))
    else
      var nameNs := annotations[MachineNameNsAnnotation];
      match ExtractNameAndNamespace(nameNs, remediation)
      case Success(id) => Success(id)
      case Failure(e) => Failure(BadBinding(remediation, nameNs, e))
  }

  /**
   * getMachineNameNsFromNode: no annotation map, a missing or empty machine
   * annotation, and a value that does not split in two are three distinct
   * errors naming the node.
   */
  function MachineNameNsFromNode(node: Node): (r: Result<NamespacedName, Error>)
    ensures node.annotations.None? ==> r == Failure(NoAnnotations(node.name))
    ensures node.annotations.Some? &&
            (MachineAnnotationOpenshift !in node.annotations.value ||
             node.annotations.value[MachineAnnotationOpenshift] == "") ==>
      r == Failure(NoMachineAnnotation(node.name))
    ensures r.Success? ==>
      node.annotations.Some? && MachineAnnotationOpenshift in node.annotations.value &&
      Format(r.value) == node.annotations.value[MachineAnnotationOpenshift]
    ensures node.annotations.Some? && MachineAnnotationOpenshift in node.annotations.value &&
            node.annotations.value[MachineAnnotationOpenshift] != "" ==>
      (r.Success? <==> multiset(node.annotations.value[MachineAnnotationOpenshift])['/'] == 1) &&
      (r.Failure? ==> r.error == InvalidValue(node.name))
  {
    match node.annotations
    case None => Failure(NoAnnotations(node.name))
    case Some(annotations) =>
      var machineNameNs := if MachineAnnotationOpenshift in annotations then annotations[MachineAnnotationOpenshift] else "";
      if |machineNameNs| == 0 then Failure(NoMachineAnnotation(node.name))
      else
        var parts := Strings.Split(machineNameNs, '/');
        if |parts| == 2 then
          assert Strings.Join(parts, '/') == parts[0] + "/" + parts[1];
          Success(NamespacedName(parts[0], parts[1]))
        else Failure(InvalidValue(node.name))
  }
}
