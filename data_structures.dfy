/**
  The data-structure views of `DataStructureService`: the records as an array of
  timestamps, as linked lists, drained through a stack and a queue, as a hand-written
  circular doubly linked list, and as a tree rendered to nested maps. The records
  (`detectionService.getAllDetections()`) are a parameter.
*/
module DataStructures {
  import opened MapSums
  import opened Detections

  /** `s` back to front. */
  function Reversed<T>(s: seq<T>): (r: seq<T>)
    ensures |r| == |s|
    ensures forall i :: 0 <= i < |s| ==> r[i] == s[|s| - 1 - i]
  {
    if |s| == 0 then [] else [s[|s| - 1]] + Reversed(s[..|s| - 1])
  }

  /** Reversing twice gives the sequence back. */
  lemma ReversedTwice<T>(s: seq<T>)
    ensures Reversed(Reversed(s)) == s
  {
    var rr := Reversed(Reversed(s));
    forall i | 0 <= i < |s| ensures rr[i] == s[i] {
      assert Reversed(s)[|s| - 1 - i] == s[i];
    }
  }

  // ---------------------------------------------------------------------------
  // The circular doubly linked list

  /** A list cell: its element, and its neighbours once linked. */
  class Node<T> {
    const data: T
    var next: Node?<T>
    var prev: Node?<T>

    constructor (data: T)
      ensures this.data == data && next == null && prev == null
    {
      this.data := data;
      next := null;
      prev := null;
    }
  }

  /** The elements of `ns`, in order. */
  function Data<T>(ns: seq<Node<T>>): (r: seq<T>)
    ensures |r| == |ns|
    ensures forall i :: 0 <= i < |ns| ==> r[i] == ns[i].data
  {
    if |ns| == 0 then [] else Data(ns[..|ns| - 1]) + [ns[|ns| - 1].data]
  }

  /**
    `CircularDoubleLinkedList`: `head`, `tail` and `size`, over the cells `nodes` in
    insertion order. Each cell's `next` is the following cell and the last one's is
    `head`; each cell's `prev` is the preceding cell and the first one's is `tail`.
  */
  class CircularDoubleLinkedList<T> {
    var head: Node?<T>
    var tail: Node?<T>
    var size: int
    ghost var nodes: seq<Node<T>>
    ghost var Repr: set<object>

    ghost predicate Valid()
      reads this, Repr
    {
      && this in Repr
      && (forall i :: 0 <= i < |nodes| ==> nodes[i] in Repr)
      && size == |nodes|
      && (|nodes| == 0 ==> head == null && tail == null)
      && (|nodes| > 0 ==>
            && head == nodes[0] && tail == nodes[|nodes| - 1]
            && nodes[|nodes| - 1].next == nodes[0] && nodes[0].prev == nodes[|nodes| - 1])
      && (forall i :: 0 <= i < |nodes| - 1 ==> nodes[i].next == nodes[i + 1] && nodes[i + 1].prev == nodes[i])
      && (forall i, j :: 0 <= i < j < |nodes| ==> nodes[i] != nodes[j])
    }

    /** The elements, from `head` along `next`. */
    ghost function Elements(): seq<T>
      reads this
    {
      Data(nodes)
    }

    constructor ()
      ensures Valid() && fresh(Repr) && Elements() == [] && head == null && size == 0
    {
      head := null;
      tail := null;
      size := 0;
      nodes := [];
      Repr := {this};
    }

    /**
      `add`: the new cell becomes the tail, linked to the old tail and to the head;
      into an empty list it is both head and tail and its own neighbour.
    */
    method Add(data: T)
      requires Valid()
      modifies Repr
      ensures Valid() && fresh(Repr - old(Repr))
      ensures Elements() == old(Elements()) + [data]
      ensures size == old(size) + 1
      ensures head != null && tail != null && tail.data == data
      ensures tail.next == head && head.prev == tail
      ensures old(head) == null ==> head == tail && head.next == head && head.prev == head
      ensures old(head) != null ==> head == old(head)
    {
      var newNode := new Node(data);
      if head == null {
        head := newNode;
        tail := newNode;
        head.next := head;
        head.prev := head;
      } else {
        tail.next := newNode;
        newNode.prev := tail;
        newNode.next := head;
        head.prev := newNode;
        tail := newNode;
      }
      size := size + 1;
      nodes := nodes + [newNode];
      Repr := Repr + {newNode};
    }

    /** `toList`: from `head` along `next` until `head` comes round again. */
    method ToList() returns (result: seq<T>)
      requires Valid()
      ensures result == Elements()
      ensures |result| == size
    {
      result := [];
      if head == null {
        return;
      }
      var current: Node?<T> := head;
      // The first pass of the do-while loop.
      result := result + [current.data];
      current := current.next;
      ghost var k := 1;
      while current != head
        invariant 1 <= k <= |nodes|
        invariant current == nodes[if k < |nodes| then k else 0]
        invariant result == Elements()[..k]
        decreases |nodes| - k
      {
        result := result + [current.data];
        current := current.next;
        k := k + 1;
      }
    }

    /** `toReverseList`: from `tail` along `prev` until `tail` comes round again. */
    method ToReverseList() returns (result: seq<T>)
      requires Valid()
      ensures result == Reversed(Elements())
    {
      result := [];
      if head == null {
        return;
      }
      ghost var n := |nodes|;
      var current: Node?<T> := tail;
      // The first pass of the do-while loop.
      result := result + [current.data];
      current := current.prev;
      ghost var k := 1;
      while current != tail
        invariant 1 <= k <= n
        invariant current == nodes[if k < n then n - 1 - k else n - 1]
        invariant |result| == k
        invariant forall i :: 0 <= i < k ==> result[i] == Elements()[n - 1 - i]
        decreases n - k
      {
        result := result + [current.data];
        current := current.prev;
        k := k + 1;
      }
    }
  }

  /** The reverse walk gives the forward walk back to front. */
  method ListBothWays<T>(list: CircularDoubleLinkedList<T>) returns (forward: seq<T>, backward: seq<T>)
    requires list.Valid()
    ensures backward == Reversed(forward)
    ensures forward == Reversed(backward)
  {
    forward := list.ToList();
    backward := list.ToReverseList();
    ReversedTwice(forward);
  }

  // ---------------------------------------------------------------------------
  // The conversions

  /** `getDetectionsAsArray()`: each record's `timestampMs.intValue()`, in order. */
  method GetDetectionsAsArray(detections: seq<Detection>) returns (a: array<int>)
    ensures fresh(a) && a.Length == |detections|
    ensures forall i :: 0 <= i < a.Length ==> a[i] == IntValue(detections[i].timestampMs)
    ensures forall i :: 0 <= i < a.Length ==> -TWO_POW_31 <= a[i] < TWO_POW_31
  {
    a := new int[|detections|];
    for i := 0 to |detections|
      invariant forall j :: 0 <= j < i ==> a[j] == IntValue(detections[j].timestampMs)
      invariant forall j :: 0 <= j < i ==> -TWO_POW_31 <= a[j] < TWO_POW_31
    {
      IntValueFacts(detections[i].timestampMs);
      a[i] := IntValue(detections[i].timestampMs);
    }
  }

  /** `getDetectionsAsLinkedList()`, and `getDetectionsAsDoubleLinkedList()` which returns it. */
  method GetDetectionsAsLinkedList(detections: seq<Detection>) returns (linkedList: seq<Detection>)
    ensures linkedList == detections
  {
    linkedList := [];
    for i := 0 to |detections|
      invariant linkedList == detections[..i]
    {
      linkedList := linkedList + [detections[i]];
    }
    assert detections[..|detections|] == detections;
  }

  /** `getDetectionsAsCircularDoubleLinkedList()`: every record added, then walked forward. */
  method GetDetectionsAsCircularDoubleLinkedList(detections: seq<Detection>) returns (result: seq<Detection>)
    ensures result == detections
  {
    var list := new CircularDoubleLinkedList<Detection>();
    for i := 0 to |detections|
      invariant list.Valid() && fresh(list.Repr)
      invariant list.Elements() == detections[..i]
    {
      assert detections[..i + 1] == detections[..i] + [detections[i]];
      list.Add(detections[i]);
    }
    assert detections[..|detections|] == detections;
    result := list.ToList();
  }

  /** `getDetectionsAsStack()`: every record pushed, then popped until empty. */
  method GetDetectionsAsStack(detections: seq<Detection>) returns (result: seq<Detection>)
    ensures result == Reversed(detections)
  {
    var stack: seq<Detection> := [];
    for i := 0 to |detections|
      invariant stack == detections[..i]
    {
      stack := stack + [detections[i]];
    }
    assert stack == detections;
    result := [];
    while |stack| > 0
      invariant stack == detections[..|stack|]
      invariant |result| + |stack| == |detections|
      invariant forall i :: 0 <= i < |result| ==> result[i] == detections[|detections| - 1 - i]
      decreases |stack|
    {
      result := result + [stack[|stack| - 1]];
      stack := stack[..|stack| - 1];
    }
  }

  /** `getDetectionsAsQueue()`: every record offered, then polled until empty. */
  method GetDetectionsAsQueue(detections: seq<Detection>) returns (result: seq<Detection>)
    ensures result == detections
  {
    var queue: seq<Detection> := [];
    for i := 0 to |detections|
      invariant queue == detections[..i]
    {
      queue := queue + [detections[i]];
    }
    assert queue == detections;
    result := [];
    while |queue| > 0
      invariant result + queue == detections
      decreases |queue|
    {
      result := result + [queue[0]];
      queue := queue[1..];
    }
  }

  // ---------------------------------------------------------------------------
  // The tree

  /** `TreeNode`: a label and its children in the order they were added. */
  datatype TreeNode = TreeNode(value: string, children: seq<TreeNode>)

  /** The values a `Map<String, Object>` of `toMap` holds: strings, lists and nested maps. */
  datatype JsonValue = JString(s: string) | JArray(items: seq<JsonValue>) | JObject(fields: map<string, JsonValue>)

  /** `toMap`: `"value"` always, `"children"` only for a node that has any, each child rendered the same way. */
  function ToMap(t: TreeNode): (r: map<string, JsonValue>)
    ensures r.Keys <= {"value", "children"}
    ensures "value" in r && r["value"] == JString(t.value)
    ensures "children" in r <==> |t.children| > 0
    decreases t
  {
    var fields := map["value" := JString(t.value)];
    if |t.children| == 0 then fields
    else fields["children" := JArray(seq(|t.children|, i requires 0 <= i < |t.children| => JObject(ToMap(t.children[i]))))]
  }

  /** The rendering loses nothing: different trees give different maps. */
  lemma {:induction false} ToMapInjective(t1: TreeNode, t2: TreeNode)
    requires ToMap(t1) == ToMap(t2)
    ensures t1 == t2
    decreases t1
  {
    assert ToMap(t1)["value"] == ToMap(t2)["value"];
    if |t1.children| > 0 {
      var items1, items2 := ToMap(t1)["children"].items, ToMap(t2)["children"].items;
      assert |t1.children| == |items1| == |items2| == |t2.children|;
      forall i | 0 <= i < |t1.children| ensures t1.children[i] == t2.children[i] {
        assert items1[i] == JObject(ToMap(t1.children[i]));
        assert items2[i] == JObject(ToMap(t2.children[i]));
        ToMapInjective(t1.children[i], t2.children[i]);
      }
    }
  }

  /** `keys` lists each vehicle type of `m` once, in some order. */
  ghost predicate IsKeyOrder(keys: seq<string>, m: Counts) {
    && (forall i :: 0 <= i < |keys| ==> keys[i] in m)
    && (forall t :: t in m ==> t in keys)
    && (forall i, j :: 0 <= i < j < |keys| ==> keys[i] != keys[j])
  }

  /** The label `type + ": " + count` of a vehicle node. */
  function VehicleLabel(t: string, count: int): string {
    t + ": " + IntToString(count)
  }

  /** One leaf per vehicle type of `m`, labelled with the type and its count, in some order. */
  ghost predicate ListsCounts(children: seq<TreeNode>, m: Counts) {
    exists keys: seq<string> :: IsKeyOrder(keys, m) && |children| == |keys|
      && forall i :: 0 <= i < |keys| ==> children[i] == TreeNode(VehicleLabel(keys[i], m[keys[i]]), [])
  }

  /** One vehicle leaf per entry of `objectsTotal`, in the map's iteration order. */
  method VehicleNodes(objectsTotal: Counts) returns (children: seq<TreeNode>)
    ensures |children| == |objectsTotal|
    ensures ListsCounts(children, objectsTotal)
  {
    children := [];
    ghost var keys: seq<string> := [];
    var rest := objectsTotal;
    while |rest| > 0
      invariant forall t :: t in rest ==> t in objectsTotal && rest[t] == objectsTotal[t]
      invariant forall i :: 0 <= i < |keys| ==> keys[i] in objectsTotal && keys[i] !in rest
      invariant forall t :: t in objectsTotal ==> t in rest || t in keys
      invariant forall i, j :: 0 <= i < j < |keys| ==> keys[i] != keys[j]
      invariant |children| == |keys| && |keys| + |rest| == |objectsTotal|
      invariant forall i :: 0 <= i < |keys| ==> children[i] == TreeNode(VehicleLabel(keys[i], objectsTotal[keys[i]]), [])
      decreases |rest|
    {
      var vehicleType :| vehicleType in rest;
      var count := rest[vehicleType];
      children := children + [TreeNode(VehicleLabel(vehicleType, count), [])];
      keys := keys + [vehicleType];
      CardRemove(rest, vehicleType);
      rest := rest - {vehicleType};
    }
    assert IsKeyOrder(keys, objectsTotal);
  }

  /** The node of one record: `"Detection " + id`, with its vehicle leaves. */
  ghost predicate IsDetectionNode(node: TreeNode, d: Detection) {
    node.value == "Detection " + IntToString(d.id) && ListsCounts(node.children, ParseObjectsTotal(d))
  }

  /** The body of the loop over the records: one record's node with its vehicle leaves. */
  method DetectionNode(d: Detection) returns (node: TreeNode)
    ensures IsDetectionNode(node, d)
  {
    var objectsTotal := ParseObjectsTotal(d);
    var vehicleNodes := VehicleNodes(objectsTotal);
    node := TreeNode("Detection " + IntToString(d.id), vehicleNodes);
  }

  /** `"Root"` with one node per record, in order. */
  ghost predicate IsDetectionTree(root: TreeNode, detections: seq<Detection>) {
    && root.value == "Root"
    && |root.children| == |detections|
    && forall i :: 0 <= i < |detections| ==> IsDetectionNode(root.children[i], detections[i])
  }

  /** The loop of `getDetectionsAsTree()`: one node per record, in order. */
  method DetectionNodes(detections: seq<Detection>) returns (children: seq<TreeNode>)
    ensures |children| == |detections|
    ensures forall j :: 0 <= j < |detections| ==> IsDetectionNode(children[j], detections[j])
  {
    children := [];
    for i := 0 to |detections|
      invariant |children| == i
      invariant forall j :: 0 <= j < i ==> IsDetectionNode(children[j], detections[j])
    {
      var detectionNode := DetectionNode(detections[i]);
      ghost var before := children;
      children := children + [detectionNode];
      forall j | 0 <= j < i + 1 ensures IsDetectionNode(children[j], detections[j]) {
        if j < i {
          assert children[j] == before[j];
        }
      }
    }
  }

  /** `getDetectionsAsTree()`: the tree built record by record, then rendered by `toMap`. */
  method GetDetectionsAsTree(detections: seq<Detection>) returns (r: map<string, JsonValue>)
    ensures exists root :: IsDetectionTree(root, detections) && r == ToMap(root)
    ensures "children" in r <==> |detections| > 0
  {
    var children := DetectionNodes(detections);
    var root := TreeNode("Root", children);
    assert IsDetectionTree(root, detections);
    r := ToMap(root);
  }
}
