/** `getPlusMetrics` (src/metrics.go:123-148): the fixed-JSON status module's bag, projected
    from the already-decoded JSON object of the status page. */
module PlusStatus {
  import opened Common
  import opened Text

  /** The four roots whose children become metrics, in the order the source visits them. */
  function Root(i: nat): (r: string)
    requires i < 4
  {
    if i == 0 then "connections" else if i == 1 then "requests" else if i == 2 then "ssl" else "processes"
  }

  predicate IsRoot(key: string)
  {
    key == "connections" || key == "requests" || key == "ssl" || key == "processes"
  }

  /** The source converts every child of an object-valued root to a number and panics on
      anything else; the model asks for numbers there. */
  predicate NumericRoots(json: Bag)
  {
    forall i: nat, child :: i < 4 && Lookup(json, Root(i)).JObject? && child in Lookup(json, Root(i)).fields
      ==> Lookup(json, Root(i)).fields[child].JInt?
  }

  /** The metrics that visiting the children `names` of one root adds. */
  function Children(root: string, node: map<string, Json>, names: set<string>): Bag
  {
    PrefixInjective(root);
    map child | child in names && child in node :: root + "." + child := node[child]
  }

  /** Different children of one root get different metric names. */
  lemma PrefixInjective(root: string)
    ensures forall a: string, b: string :: root + "." + a == root + "." + b ==> a == b
  {
    forall a: string, b: string | root + "." + a == root + "." + b
      ensures a == b
    {
      assert a == (root + "." + a)[|root| + 1..];
      assert b == (root + "." + b)[|root| + 1..];
    }
  }

  /** What the first `i` roots contribute. */
  function Collected(json: Bag, i: nat): Bag
    requires i <= 4
  {
    if i == 0 then map[]
    else
      var node := Lookup(json, Root(i - 1));
      if node.JObject? then Collected(json, i - 1) + Children(Root(i - 1), node.fields, node.fields.Keys)
      else Collected(json, i - 1)
  }

  /** The bag `getPlusMetrics` returns for a decoded page, or the decoder's error. */
  function PlusMetrics(decoded: Result<Bag>): (r: Result<Bag>)
    requires decoded.Ok? ==> NumericRoots(decoded.value)
    ensures r.Err? <==> decoded.Err?
    ensures decoded.Err? ==> r.error == decoded.error
  {
    match decoded
    case Err(e) => Err(e)
    case Ok(json) =>
      Ok(Collected(json, 4)["version" := Lookup(json, "nginx_version")]["edition" := JString("plus")])
  }

  /** Adds the children of one object-valued root, in the map's unspecified order. */
  method AddChildren(metrics: Bag, root: string, node: map<string, Json>) returns (r: Bag)
    ensures r == metrics + Children(root, node, node.Keys)
  {
    r := metrics;
    var remaining := node.Keys;
    ghost var done: set<string> := {};
    while remaining != {}
      invariant done !! remaining && done + remaining == node.Keys
      invariant r == metrics + Children(root, node, done)
      decreases |remaining|
    {
      var child :| child in remaining;
      ChildrenAdvance(metrics, root, node, done, child, r);
      r := r[root + "." + child := node[child]];
      remaining := remaining - {child};
      done := done + {child};
    }
  }

  /** Visiting one more child adds exactly its metric. */
  lemma ChildrenStep(root: string, node: map<string, Json>, done: set<string>, child: string)
    requires child in node && child !in done
    ensures Children(root, node, done + {child}) == Children(root, node, done)[root + "." + child := node[child]]
  {
    PrefixInjective(root);
  }

  /** Updating the right operand of a union updates the union. */
  lemma UnionUpdate(a: Bag, b: Bag, k: string, v: Json)
    ensures a + b[k := v] == (a + b)[k := v]
  {
  }

  /** The bag after visiting one more child, given the bag before it. */
  lemma ChildrenAdvance(metrics: Bag, root: string, node: map<string, Json>, done: set<string>,
                        child: string, current: Bag)
    requires child in node && child !in done
    requires current == metrics + Children(root, node, done)
    ensures metrics + Children(root, node, done + {child}) == current[root + "." + child := node[child]]
  {
    ChildrenStep(root, node, done, child);
    UnionUpdate(metrics, Children(root, node, done), root + "." + child, node[child]);
  }

  /** One more root's contribution. */
  lemma CollectedStep(json: Bag, i: nat)
    requires i < 4
    ensures Collected(json, i + 1) ==
      if Lookup(json, Root(i)).JObject?
      then Collected(json, i) + Children(Root(i), Lookup(json, Root(i)).fields, Lookup(json, Root(i)).fields.Keys)
      else Collected(json, i)
  {
  }

  /** `getPlusMetrics` after decoding: a decoder error is returned as is; otherwise every
      child of an object-valued root is stored as `root.child`, then the version and the
      edition. A root that is missing or not an object is skipped. */
  method GetPlusMetrics(decoded: Result<Bag>) returns (r: Result<Bag>)
    requires decoded.Ok? ==> NumericRoots(decoded.value)
    ensures r == PlusMetrics(decoded)
  {
    if decoded.Err? {
      return Err(decoded.error);
    }
    var json := decoded.value;
    var metrics: Bag := map[];
    var i := 0;
    while i < 4
      invariant 0 <= i <= 4
      invariant metrics == Collected(json, i)
    {
      CollectedStep(json, i);
      var node := Lookup(json, Root(i));
      if node.JObject? {
        metrics := AddChildren(metrics, Root(i), node.fields);
      }
      i := i + 1;
    }
    metrics := metrics["version" := Lookup(json, "nginx_version")];
    metrics := metrics["edition" := JString("plus")];
    return Ok(metrics);
  }

  /** Whether `child` is a child of the object-valued root number `j`. */
  predicate IsChild(json: Bag, j: nat, child: string)
  {
    j < 4 && Lookup(json, Root(j)).JObject? && child in Lookup(json, Root(j)).fields
  }

  /** Reads an output name back as the root and the child it was made from. The four roots
      start with different letters, so the first letter decides the root. */
  function Origin(key: string): (r: Option<(nat, string)>)
    ensures r.Some? ==> r.value.0 < 4 && key == Root(r.value.0) + "." + r.value.1
  {
    if key == [] then None
    else
      var j: nat := if key[0] == 'c' then 0 else if key[0] == 'r' then 1
                    else if key[0] == 's' then 2 else if key[0] == 'p' then 3 else 4;
      if j < 4 && HasPrefix(key, Root(j) + ".") then Some((j, key[|Root(j)| + 1..])) else None
  }

  lemma OriginOf(j: nat, child: string)
    requires j < 4
    ensures Origin(Root(j) + "." + child) == Some((j, child))
  {
    var key := Root(j) + "." + child;
    assert key[0] == Root(j)[0];
    assert key[..|Root(j)| + 1] == Root(j) + ".";
    assert key[|Root(j)| + 1..] == child;
  }

  /** A name is contributed by root `j` exactly when its origin is `j` and one of the root's
      children, and it then holds that child's value. */
  lemma ChildrenAt(j: nat, node: map<string, Json>, k: string)
    requires j < 4
    ensures k in Children(Root(j), node, node.Keys) <==>
      (Origin(k).Some? && Origin(k).value.0 == j && Origin(k).value.1 in node)
    ensures k in Children(Root(j), node, node.Keys) ==>
      Children(Root(j), node, node.Keys)[k] == node[Origin(k).value.1]
  {
    var c := Children(Root(j), node, node.Keys);
    if k in c {
      var child :| child in node && k == Root(j) + "." + child;
      OriginOf(j, child);
    }
  }

  /** A name is among what the first `i` roots contribute exactly when its origin is one of
      those roots and one of that root's children. */
  lemma {:induction false} CollectedAt(json: Bag, i: nat, k: string)
    requires i <= 4
    ensures k in Collected(json, i) <==>
      (Origin(k).Some? && Origin(k).value.0 < i && IsChild(json, Origin(k).value.0, Origin(k).value.1))
  {
    if i > 0 {
      CollectedAt(json, i - 1, k);
      CollectedStep(json, i - 1);
      var node := Lookup(json, Root(i - 1));
      if node.JObject? {
        ChildrenAt(i - 1, node.fields, k);
      }
    }
  }

  /** A contributed name holds the value of the child it was made from. */
  lemma {:induction false} CollectedValue(json: Bag, i: nat, k: string)
    requires i <= 4 && k in Collected(json, i)
    ensures Origin(k).Some? && IsChild(json, Origin(k).value.0, Origin(k).value.1)
    ensures Collected(json, i)[k] == Lookup(json, Root(Origin(k).value.0)).fields[Origin(k).value.1]
  {
    CollectedAt(json, i, k);
    CollectedStep(json, i - 1);
    var node := Lookup(json, Root(i - 1));
    if node.JObject? && k in Children(Root(i - 1), node.fields, node.fields.Keys) {
      ChildrenAt(i - 1, node.fields, k);
    } else {
      CollectedValue(json, i - 1, k);
    }
  }

  /** The output names of `getPlusMetrics`: the version, the edition, and `root.child` for
      every child of an object-valued root, and nothing else. Timestamps and any other
      top-level key contribute nothing. */
  lemma PlusMetricsKeys(json: Bag, k: string)
    requires NumericRoots(json)
    ensures k in PlusMetrics(Ok(json)).value <==>
      (k == "version" || k == "edition" ||
       (Origin(k).Some? && IsChild(json, Origin(k).value.0, Origin(k).value.1)))
  {
    CollectedAt(json, 4, k);
  }

  /** The values of `getPlusMetrics`: the version is the page's `nginx_version` (nil when it is
      missing), the edition is "plus", and every other name holds the number of the child it
      was made from. */
  lemma PlusMetricsValues(json: Bag, k: string)
    requires NumericRoots(json)
    ensures PlusMetrics(Ok(json)).value["version"] == Lookup(json, "nginx_version")
    ensures PlusMetrics(Ok(json)).value["edition"] == JString("plus")
    ensures k in PlusMetrics(Ok(json)).value && k != "version" && k != "edition" ==>
      Origin(k).Some? && IsChild(json, Origin(k).value.0, Origin(k).value.1) &&
      PlusMetrics(Ok(json)).value[k] == Lookup(json, Root(Origin(k).value.0)).fields[Origin(k).value.1] &&
      PlusMetrics(Ok(json)).value[k].JInt?
  {
    if k in Collected(json, 4) {
      CollectedValue(json, 4, k);
    }
  }

  /** Every child of an object-valued root is stored under `root.child` with its value. */
  lemma PlusChildStored(json: Bag, j: nat, child: string)
    requires NumericRoots(json) && IsChild(json, j, child)
    ensures Root(j) + "." + child in PlusMetrics(Ok(json)).value
    ensures PlusMetrics(Ok(json)).value[Root(j) + "." + child] == Lookup(json, Root(j)).fields[child]
  {
    var k := Root(j) + "." + child;
    OriginOf(j, child);
    CollectedAt(json, 4, k);
    CollectedValue(json, 4, k);
    assert k[0] == Root(j)[0];
  }

  /** A top-level key other than the four roots and `nginx_version` has no influence on the
      result. */
  lemma OtherKeysIgnored(json: Bag, key: string, v: Json)
    requires NumericRoots(json) && !IsRoot(key) && key != "nginx_version"
    ensures NumericRoots(json[key := v])
    ensures PlusMetrics(Ok(json[key := v])) == PlusMetrics(Ok(json))
  {
    RootsUnchanged(json, key, v);
    CollectedUnchanged(json, key, v, 4);
  }

  lemma RootsUnchanged(json: Bag, key: string, v: Json)
    requires !IsRoot(key)
    ensures forall i: nat :: i < 4 ==> Lookup(json[key := v], Root(i)) == Lookup(json, Root(i))
  {
  }

  lemma {:induction false} CollectedUnchanged(json: Bag, key: string, v: Json, i: nat)
    requires i <= 4
    requires forall i: nat :: i < 4 ==> Lookup(json[key := v], Root(i)) == Lookup(json, Root(i))
    ensures Collected(json[key := v], i) == Collected(json, i)
  {
    if i > 0 {
      CollectedUnchanged(json, key, v, i - 1);
    }
  }
}
