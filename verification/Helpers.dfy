/**
 Label and annotation maps on the heap (controllers/helpers.go).  A Go map is a reference; `nil` is
 a map without entries that can be read but is never written here.
 */
module Helpers {

  class StringMap {
    var m: map<string, string>

    constructor ()
      ensures m == map[]
    {
      m := map[];
    }
  }

  class Template {
    var labels: StringMap?
    var annotations: StringMap?

    constructor (labels: StringMap?, annotations: StringMap?)
      ensures this.labels == labels && this.annotations == annotations
    {
      this.labels, this.annotations := labels, annotations;
    }
  }

  function Entries(s: StringMap?): map<string, string>
    reads s
  {
    if s == null then map[] else s.m
  }

  /** A fresh map with the entries of `from`; the order of iteration does not matter. */
  method CopyMap(from: StringMap?) returns (to: StringMap)
    ensures fresh(to) && to.m == Entries(from)
  {
    to := new StringMap();
    if from != null {
      var keys := from.m.Keys;
      while keys != {}
        invariant keys <= from.m.Keys && fresh(to)
        invariant from.m == old(from.m)
        invariant to.m.Keys == from.m.Keys - keys
        invariant forall k :: k in to.m ==> to.m[k] == from.m[k]
        decreases |keys|
      {
        var k :| k in keys;
        to.m := to.m[k := from.m[k]];
        keys := keys - {k};
      }
    }
  }

  /** getPodsLabelSet. */
  method GetPodsLabelSet(template: Template) returns (labels: StringMap)
    ensures fresh(labels) && labels.m == Entries(template.labels)
    ensures labels.m == if template.labels == null then map[] else template.labels.m
  {
    labels := CopyMap(template.labels);
  }

  datatype Spec = Spec(name: string, sourcePod: string, action: string, snapshotPath: string, replicas: int)

  function Annotated(a: map<string, string>, spec: Spec): map<string, string> {
    a["sourcePod" := spec.sourcePod]["snapshotPolicy" := spec.action]["snapshotPath" := spec.snapshotPath]
  }

  /** The annotations of a migration, key by key. */
  predicate HasAnnotations(m: map<string, string>, sourcePod: string, policy: string, path: string) {
    && "sourcePod" in m && m["sourcePod"] == sourcePod
    && "snapshotPolicy" in m && m["snapshotPolicy"] == policy
    && "snapshotPath" in m && m["snapshotPath"] == path
  }

  lemma DistinctKeys()
    ensures "sourcePod" != "snapshotPolicy" && "sourcePod" != "snapshotPath" && "snapshotPolicy" != "snapshotPath"
  {
    assert "sourcePod"[1] == 'o' && "snapshotPolicy"[1] == 'n' && "snapshotPath"[1] == 'n';
    assert "snapshotPolicy"[9] == 'o' && "snapshotPath"[9] == 'a';
  }

  /** getPodsAnnotationSet: the migration's three annotations over the template's. */
  method GetPodsAnnotationSet(spec: Spec, template: Template) returns (annotations: StringMap)
    ensures fresh(annotations) && annotations.m == Annotated(Entries(template.annotations), spec)
    ensures HasAnnotations(annotations.m, spec.sourcePod, spec.action, spec.snapshotPath)
    ensures forall k :: k !in {"sourcePod", "snapshotPolicy", "snapshotPath"} ==>
              (k in annotations.m <==> k in Entries(template.annotations))
    ensures forall k :: k in annotations.m && k !in {"sourcePod", "snapshotPolicy", "snapshotPath"} ==>
              annotations.m[k] == Entries(template.annotations)[k]
  {
    DistinctKeys();
    annotations := CopyMap(template.annotations);
    annotations.m := annotations.m["sourcePod" := spec.sourcePod];
    annotations.m := annotations.m["snapshotPolicy" := spec.action];
    annotations.m := annotations.m["snapshotPath" := spec.snapshotPath];
  }

  /** The conversion of a Go int to an int32. */
  function Int32(n: int): (r: int)
    ensures -0x8000_0000 <= r < 0x8000_0000
    ensures -0x8000_0000 <= n < 0x8000_0000 ==> r == n
    ensures (n - r) % 0x1_0000_0000 == 0
  {
    (n + 0x8000_0000) % 0x1_0000_0000 - 0x8000_0000
  }

  class Deployment {
    const selector: StringMap
    const podLabels: StringMap
    const podAnnotations: StringMap
    const replicas: int

    constructor (selector: StringMap, podLabels: StringMap, podAnnotations: StringMap, replicas: int)
      ensures this.selector == selector && this.podLabels == podLabels
      ensures this.podAnnotations == podAnnotations && this.replicas == replicas
    {
      this.selector, this.podLabels := selector, podLabels;
      this.podAnnotations, this.replicas := podAnnotations, replicas;
    }
  }

  /** desiredDeployment: the `migratingPod` label reaches selector and pod labels, which are one and
      the same map, and leaves the template's labels as they were; later writes through the
      deployment cannot reach the template either, because the map is new. */
  method DesiredDeployment(spec: Spec, template: Template) returns (d: Deployment)
    ensures d.selector == d.podLabels && fresh(d.selector)
    ensures d.selector.m == Entries(template.labels)["migratingPod" := spec.name]
    ensures "migratingPod" in d.podLabels.m && d.podLabels.m["migratingPod"] == spec.name
    ensures template.labels != null ==>
              forall k :: k != "migratingPod" ==>
                (k in d.podLabels.m <==> k in template.labels.m) &&
                (k in d.podLabels.m ==> d.podLabels.m[k] == template.labels.m[k])
    ensures fresh(d.podAnnotations) && d.podAnnotations != d.selector
    ensures d.podAnnotations.m == Annotated(Entries(template.annotations), spec)
    ensures HasAnnotations(d.podAnnotations.m, spec.sourcePod, spec.action, spec.snapshotPath)
    ensures forall k :: k !in {"sourcePod", "snapshotPolicy", "snapshotPath"} ==>
              (k in d.podAnnotations.m <==> k in Entries(template.annotations))
    ensures forall k :: k in d.podAnnotations.m && k !in {"sourcePod", "snapshotPolicy", "snapshotPath"} ==>
              d.podAnnotations.m[k] == Entries(template.annotations)[k]
    ensures d.replicas == Int32(spec.replicas)
    ensures template.labels == old(template.labels) && Entries(template.labels) == old(Entries(template.labels))
    ensures template.annotations == old(template.annotations)
            && Entries(template.annotations) == old(Entries(template.annotations))
  {
    var labels := GetPodsLabelSet(template);
    var annotations := GetPodsAnnotationSet(spec, template);
    labels.m := labels.m["migratingPod" := spec.name];
    d := new Deployment(labels, labels, annotations, Int32(spec.replicas));
  }

  /** Relabelling the pods of such a deployment relabels its selector with them, so they never stop
      matching, and still leaves the template alone. */
  method RelabelPods(spec: Spec, template: Template, key: string, value: string) returns (d: Deployment)
    ensures d.selector.m == d.podLabels.m == Entries(template.labels)["migratingPod" := spec.name][key := value]
    ensures Entries(template.labels) == old(Entries(template.labels))
  {
    d := DesiredDeployment(spec, template);
    d.podLabels.m := d.podLabels.m[key := value];
  }
}
