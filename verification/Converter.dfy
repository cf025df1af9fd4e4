/**
 From.Object and From.List (api-server/endpoints/converter.go).  The module is built with the loop
 semantics of Go 1.21: `range` has one loop variable for the whole loop, and the list converter
 takes its address.
 */
module Converter {

  datatype Status = Status(state: string, revision: string, activePod: string)

  /** A label selector on the heap. */
  class LabelSelector {
    var labels: map<string, string>

    constructor (labels: map<string, string>)
      ensures this.labels == labels
    {
      this.labels := labels;
    }
  }

  datatype LiveMigration = LiveMigration(
    name: string, action: string, replicas: int, sourcePod: string, destHost: string, snapshotPath: string,
    selector: LabelSelector?, status: Status)

  /** A variable that holds a LiveMigration and whose address can be taken. */
  class Variable {
    var value: LiveMigration

    constructor (value: LiveMigration)
      ensures this.value == value
    {
      this.value := value;
    }
  }

  /** `status` is the address of a variable's status; `Unset` is an item not filled yet. */
  datatype Item =
    | Unset
    | Item(name: string, action: string, replicas: int, sourcePod: string, destHost: string, snapshotPath: string,
           selector: LabelSelector?, status: Variable)

  /** All fields but the status agree; the selector is the very same object. */
  predicate Mirrors(item: Item, pm: LiveMigration) {
    && item.Item?
    && item.name == pm.name && item.action == pm.action && item.replicas == pm.replicas
    && item.sourcePod == pm.sourcePod && item.destHost == pm.destHost
    && item.snapshotPath == pm.snapshotPath && item.selector == pm.selector
  }

  /** From.Object: selector and status are shared with the argument, not copied. */
  method Object(pm: Variable) returns (item: Item)
    ensures Mirrors(item, pm.value) && item.status == pm
    ensures item.Item? && item.name == pm.value.name && item.action == pm.value.action
    ensures item.Item? && item.replicas == pm.value.replicas && item.sourcePod == pm.value.sourcePod
    ensures item.Item? && item.destHost == pm.value.destHost && item.snapshotPath == pm.value.snapshotPath
    ensures item.Item? && item.selector == pm.value.selector
  {
    var v := pm.value;
    item := Item(v.name, v.action, v.replicas, v.sourcePod, v.destHost, v.snapshotPath, v.selector, pm);
  }

  /** From.List: every item mirrors its own element, but all status pointers are the one loop
      variable, which ends up holding the last element. */
  method List(list: seq<LiveMigration>) returns (items: array<Item>)
    ensures fresh(items) && items.Length == |list|
    ensures forall i :: 0 <= i < |list| ==> items[i].Item? && Mirrors(items[i], list[i])
    ensures forall i :: 0 <= i < |list| ==>
              && items[i].Item? && items[i].name == list[i].name && items[i].action == list[i].action
              && items[i].replicas == list[i].replicas && items[i].sourcePod == list[i].sourcePod
              && items[i].destHost == list[i].destHost && items[i].snapshotPath == list[i].snapshotPath
              && items[i].selector == list[i].selector
    ensures forall i :: 0 <= i < |list| ==>
              items[i].status == items[|list| - 1].status && items[i].status.value == list[|list| - 1]
    ensures list != [] ==> fresh(items[0].status)
    ensures (forall i :: 0 <= i < |list| ==> items[i].status.value.status == list[i].status) <==>
            (forall i :: 0 <= i < |list| ==> list[i].status == list[|list| - 1].status)
  {
    items := new Item[|list|](_ => Unset);
    if list == [] {
      return;
    }
    var r := new Variable(list[0]);
    for i := 0 to |list|
      invariant fresh(items) && fresh(r) && items.Length == |list|
      invariant forall k :: 0 <= k < i ==> Mirrors(items[k], list[k]) && items[k].status == r
      invariant i > 0 ==> r.value == list[i - 1]
    {
      r.value := list[i];
      items[i] := Object(r);
    }
  }
}
