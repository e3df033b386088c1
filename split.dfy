/**
 * The split manipulator: an annotation whose value conflates several values joined by a
 * delimiter is split into its parts, and each part becomes an annotation of the same node.
 * A part at a configured position gets the annotation named for that position; any other
 * part is looked up among the values listed for each target annotation; unknown parts are
 * ignored. The conflated annotation is deleted unless it is to be kept.
 */
module SplitValues {
  import opened Wrappers
  import opened Strings
  import opened Events

  datatype Key = Key(ns: string, name: string)

  /** A target annotation given as a qualified name; without a namespace it is the empty one. */
  function QualifiedKey(q: string): Key
  {
    var (ns, name) := SplitQName(q);
    Key(if ns.Some? then ns.value else "", name)
  }

  /** The values of `vs`, each mapped to `key`. */
  function AllTo(vs: seq<string>, key: string): (m: map<string, string>)
    ensures forall v :: v in m <==> v in vs
    ensures forall v :: v in m ==> m[v] == key
  {
    map v | v in vs :: key
  }

  /**
   * `value_map`: the layer map inverted, mapping each listed value to its target annotation;
   * the entries are read in key order, and a value listed twice belongs to the later key.
   */
  function ValueMap(layerMap: seq<(string, seq<string>)>): map<string, string>
  {
    if layerMap == [] then map[]
    else
      var last := layerMap[|layerMap| - 1];
      ValueMap(layerMap[..|layerMap| - 1]) + AllTo(last.1, last.0)
  }

  /** A value is in the inverted map exactly when some target lists it, and it maps to the last target that does. */
  lemma {:induction false} ValueMapIff(layerMap: seq<(string, seq<string>)>, v: string)
    ensures v in ValueMap(layerMap) <==> exists i :: 0 <= i < |layerMap| && v in layerMap[i].1
    ensures v in ValueMap(layerMap) ==>
      exists i :: 0 <= i < |layerMap| && v in layerMap[i].1 && ValueMap(layerMap)[v] == layerMap[i].0 &&
        forall j :: i < j < |layerMap| ==> v !in layerMap[j].1
  {
    ValueMapHas(layerMap, v);
    if v in ValueMap(layerMap) {
      var i := ValueMapLast(layerMap, v);
    }
  }

  lemma {:induction false} ValueMapHas(layerMap: seq<(string, seq<string>)>, v: string)
    ensures v in ValueMap(layerMap) <==> exists i :: 0 <= i < |layerMap| && v in layerMap[i].1
  {
    if layerMap != [] {
      var n := |layerMap| - 1;
      var init := layerMap[..n];
      ValueMapHas(init, v);
      if v in ValueMap(init) {
        var i :| 0 <= i < n && v in init[i].1;
        assert init[i] == layerMap[i];
      }
      if i :| 0 <= i < n && v in layerMap[i].1 {
        assert init[i] == layerMap[i];
      }
      assert ValueMap(layerMap) == ValueMap(init) + AllTo(layerMap[n].1, layerMap[n].0);
    }
  }

  /** The target of an inverted value is the last target that lists it. */
  lemma {:induction false} ValueMapLast(layerMap: seq<(string, seq<string>)>, v: string) returns (i: nat)
    requires v in ValueMap(layerMap)
    ensures i < |layerMap| && v in layerMap[i].1 && ValueMap(layerMap)[v] == layerMap[i].0
    ensures forall j :: i < j < |layerMap| ==> v !in layerMap[j].1
  {
    var n := |layerMap| - 1;
    var init := layerMap[..n];
    if v in layerMap[n].1 {
      i := n;
    } else {
      i := ValueMapLast(init, v);
      assert init[i] == layerMap[i];
      forall j | i < j < |layerMap| ensures v !in layerMap[j].1 {
        if j < n {
          assert init[j] == layerMap[j];
        }
      }
    }
  }

  /** `index_to_key`: the positional targets; an index given twice belongs to the later name. */
  function IndexKeys(indexMap: seq<(string, nat)>): map<nat, Key>
  {
    if indexMap == [] then map[]
    else
      var last := indexMap[|indexMap| - 1];
      IndexKeys(indexMap[..|indexMap| - 1])[last.1 := QualifiedKey(last.0)]
  }

  /** A position has a target exactly when some name is configured for it. */
  lemma IndexKeysIff(indexMap: seq<(string, nat)>, i: nat)
    ensures i in IndexKeys(indexMap) <==> exists k :: 0 <= k < |indexMap| && indexMap[k].1 == i
    ensures i in IndexKeys(indexMap) ==> exists k :: 0 <= k < |indexMap| && indexMap[k].1 == i && IndexKeys(indexMap)[i] == QualifiedKey(indexMap[k].0)
  {
    IndexKeysHas(indexMap, i);
    if i in IndexKeys(indexMap) {
      var k := IndexKeysLast(indexMap, i);
    }
  }

  lemma {:induction false} IndexKeysHas(indexMap: seq<(string, nat)>, i: nat)
    ensures i in IndexKeys(indexMap) <==> exists k :: 0 <= k < |indexMap| && indexMap[k].1 == i
  {
    if indexMap != [] {
      var n := |indexMap| - 1;
      var init := indexMap[..n];
      var m := IndexKeys(init);
      assert IndexKeys(indexMap) == m[indexMap[n].1 := QualifiedKey(indexMap[n].0)];
      IndexKeysHas(init, i);
      if i in IndexKeys(indexMap) {
        if i == indexMap[n].1 {
          assert indexMap[n].1 == i;
        } else {
          var k :| 0 <= k < n && init[k].1 == i;
          assert indexMap[k].1 == i;
        }
      }
      if k :| 0 <= k < |indexMap| && indexMap[k].1 == i {
        if k < n {
          assert init[k].1 == i;
        }
      }
    }
  }

  /** The target of a position is the name configured last for it. */
  lemma {:induction false} IndexKeysLast(indexMap: seq<(string, nat)>, i: nat) returns (k: nat)
    requires i in IndexKeys(indexMap)
    ensures k < |indexMap| && indexMap[k].1 == i && IndexKeys(indexMap)[i] == QualifiedKey(indexMap[k].0)
    ensures forall j :: k < j < |indexMap| ==> indexMap[j].1 != i
  {
    var n := |indexMap| - 1;
    var init := indexMap[..n];
    if indexMap[n].1 == i {
      k := n;
    } else {
      k := IndexKeysLast(init, i);
      assert init[k] == indexMap[k];
      forall j | k < j < |indexMap| ensures indexMap[j].1 != i {
        if j < n {
          assert init[j] == indexMap[j];
        }
      }
    }
  }

  /** The label of the part at (0-based) position i: positional targets first, then the value lookup. */
  function PartLabel(nodeName: string, i: nat, v: string, valueMap: map<string, string>, indexKeys: map<nat, Key>): seq<Event>
  {
    if i + 1 in indexKeys then [AddNodeLabel(nodeName, indexKeys[i + 1].ns, indexKeys[i + 1].name, v)]
    else if v in valueMap then
      var key := QualifiedKey(valueMap[v]);
      [AddNodeLabel(nodeName, key.ns, key.name, v)]
    else []
  }

  /** The labels of the first n parts. */
  function PartLabels(nodeName: string, parts: seq<string>, valueMap: map<string, string>, indexKeys: map<nat, Key>, n: nat): seq<Event>
    requires n <= |parts|
  {
    if n == 0 then [] else PartLabels(nodeName, parts, valueMap, indexKeys, n - 1) + PartLabel(nodeName, n - 1, parts[n - 1], valueMap, indexKeys)
  }

  /** `SplitValues::map`: one label per part that has a target. */
  method Map(u: Update, nodeName: string, value: string, delimiter: string, valueMap: map<string, string>, indexKeys: map<nat, Key>)
    modifies u
    ensures var parts := SplitBy(value, delimiter);
      u.events == old(u.events) + PartLabels(nodeName, parts, valueMap, indexKeys, |parts|)
  {
    var parts := SplitBy(value, delimiter);
    for i := 0 to |parts|
      invariant u.events == old(u.events) + PartLabels(nodeName, parts, valueMap, indexKeys, i)
    {
      var v := parts[i];
      AppendAssoc(old(u.events), PartLabels(nodeName, parts, valueMap, indexKeys, i), PartLabel(nodeName, i, v, valueMap, indexKeys));
      if i + 1 in indexKeys {
        var key := indexKeys[i + 1];
        u.Add(AddNodeLabel(nodeName, key.ns, key.name, v));
      } else if v in valueMap {
        var key := QualifiedKey(valueMap[v]);
        u.Add(AddNodeLabel(nodeName, key.ns, key.name, v));
      }
    }
  }

  /** Every label is on the node and carries one of the parts as its value; there are at most as many labels as parts. */
  lemma {:induction false} PartLabelsSound(nodeName: string, parts: seq<string>, valueMap: map<string, string>, indexKeys: map<nat, Key>, n: nat)
    requires n <= |parts|
    ensures |PartLabels(nodeName, parts, valueMap, indexKeys, n)| <= n
    ensures forall e :: e in PartLabels(nodeName, parts, valueMap, indexKeys, n) ==>
      e.AddNodeLabel? && e.nodeName == nodeName && e.annoValue in parts[..n]
  {
    if n > 0 {
      PartLabelsSound(nodeName, parts, valueMap, indexKeys, n - 1);
      assert forall x :: x in parts[..n - 1] ==> x in parts[..n];
      assert parts[n - 1] in parts[..n];
    }
  }

  /** What the labels of the first n parts contain: a positional target wins; otherwise a listed value; otherwise nothing. */
  lemma {:induction false} PartLabelsComplete(nodeName: string, parts: seq<string>, valueMap: map<string, string>, indexKeys: map<nat, Key>,
                                              n: nat, i: nat)
    requires i < n <= |parts|
    ensures i + 1 in indexKeys ==>
      AddNodeLabel(nodeName, indexKeys[i + 1].ns, indexKeys[i + 1].name, parts[i]) in PartLabels(nodeName, parts, valueMap, indexKeys, n)
    ensures i + 1 !in indexKeys && parts[i] in valueMap ==>
      AddNodeLabel(nodeName, QualifiedKey(valueMap[parts[i]]).ns, QualifiedKey(valueMap[parts[i]]).name, parts[i])
        in PartLabels(nodeName, parts, valueMap, indexKeys, n)
    decreases n
  {
    if i < n - 1 {
      PartLabelsComplete(nodeName, parts, valueMap, indexKeys, n - 1, i);
    }
  }

  /** The number of labels is the number of parts that have a target. */
  function Targeted(parts: seq<string>, valueMap: map<string, string>, indexKeys: map<nat, Key>, n: nat): nat
    requires n <= |parts|
  {
    if n == 0 then 0
    else Targeted(parts, valueMap, indexKeys, n - 1) + (if n in indexKeys || parts[n - 1] in valueMap then 1 else 0)
  }

  lemma {:induction false} PartLabelsCount(nodeName: string, parts: seq<string>, valueMap: map<string, string>, indexKeys: map<nat, Key>, n: nat)
    requires n <= |parts|
    ensures |PartLabels(nodeName, parts, valueMap, indexKeys, n)| == Targeted(parts, valueMap, indexKeys, n)
  {
    if n > 0 {
      PartLabelsCount(nodeName, parts, valueMap, indexKeys, n - 1);
    }
  }

  /** A node carrying the conflated annotation: its name, if it has one, and the value, if present. */
  datatype Found = Found(nodeName: Option<string>, value: Option<string>)

  datatype Config = Config(delimiter: string, anno: string, layerMap: seq<(string, seq<string>)>, indexMap: seq<(string, nat)>, keep: bool)

  /** The parts of a found node's value; a node without the value has none. */
  function FoundParts(cfg: Config, f: Found): seq<string>
  {
    if f.value.Some? then SplitBy(f.value.value, cfg.delimiter) else []
  }

  /** The deletion of the conflated annotation of a named node, unless it is kept. */
  function Deletion(cfg: Config, nodeName: string): seq<Event>
  {
    if cfg.keep then [] else [DeleteNodeLabel(nodeName, QualifiedKey(cfg.anno).ns, QualifiedKey(cfg.anno).name)]
  }

  /** The events for one found node: the deletion of the conflated annotation, then the labels of its parts. */
  function FoundEvents(cfg: Config, f: Found): seq<Event>
  {
    if f.nodeName.None? then []
    else
      var parts := FoundParts(cfg, f);
      Deletion(cfg, f.nodeName.value) + PartLabels(f.nodeName.value, parts, ValueMap(cfg.layerMap), IndexKeys(cfg.indexMap), |parts|)
  }

  function CorpusEvents(cfg: Config, found: seq<Found>, k: nat): seq<Event>
    requires k <= |found|
  {
    if k == 0 then [] else CorpusEvents(cfg, found, k - 1) + FoundEvents(cfg, found[k - 1])
  }

  /** One iteration of the loop over the found nodes. */
  method MapFound(u: Update, cfg: Config, f: Found, valueMap: map<string, string>, indexKeys: map<nat, Key>)
    requires valueMap == ValueMap(cfg.layerMap) && indexKeys == IndexKeys(cfg.indexMap)
    modifies u
    ensures u.events == old(u.events) + FoundEvents(cfg, f)
  {
    if f.nodeName.None? {
      return;
    }
    var nodeName := f.nodeName.value;
    if !cfg.keep {
      var key := QualifiedKey(cfg.anno);
      u.Add(DeleteNodeLabel(nodeName, key.ns, key.name));
    }
    ghost var mid := u.events;
    assert mid == old(u.events) + Deletion(cfg, nodeName);
    if f.value.Some? {
      Map(u, nodeName, f.value.value, cfg.delimiter, valueMap, indexKeys);
    }
    AppendAssoc(old(u.events), Deletion(cfg, nodeName),
                PartLabels(nodeName, FoundParts(cfg, f), valueMap, indexKeys, |FoundParts(cfg, f)|));
  }

  /** `manipulate_corpus` on the nodes found with the conflated annotation. */
  method ManipulateCorpus(u: Update, cfg: Config, found: seq<Found>)
    modifies u
    ensures u.events == old(u.events) + CorpusEvents(cfg, found, |found|)
  {
    var valueMap := ValueMap(cfg.layerMap);
    var indexKeys := IndexKeys(cfg.indexMap);
    for k := 0 to |found|
      invariant u.events == old(u.events) + CorpusEvents(cfg, found, k)
    {
      MapFound(u, cfg, found[k], valueMap, indexKeys);
      AppendAssoc(old(u.events), CorpusEvents(cfg, found, k), FoundEvents(cfg, found[k]));
    }
  }

  /** The conflated annotation is deleted from every named node unless it is kept; when kept, nothing is deleted. */
  lemma {:induction false} DeletedUnlessKept(cfg: Config, found: seq<Found>, k: nat, m: nat)
    requires m < k <= |found| && found[m].nodeName.Some?
    ensures !cfg.keep ==>
      DeleteNodeLabel(found[m].nodeName.value, QualifiedKey(cfg.anno).ns, QualifiedKey(cfg.anno).name) in CorpusEvents(cfg, found, k)
    decreases k
  {
    if m < k - 1 {
      DeletedUnlessKept(cfg, found, k - 1, m);
    } else if !cfg.keep {
      var f := found[m];
      var d := Deletion(cfg, f.nodeName.value);
      assert d[0] in FoundEvents(cfg, f);
    }
  }

  lemma {:induction false} KeptNeverDeleted(cfg: Config, found: seq<Found>, k: nat)
    requires k <= |found| && cfg.keep
    ensures forall e :: e in CorpusEvents(cfg, found, k) ==> e.AddNodeLabel?
  {
    if k > 0 {
      KeptNeverDeleted(cfg, found, k - 1);
      FoundKept(cfg, found[k - 1]);
      var before := CorpusEvents(cfg, found, k - 1);
      var step := FoundEvents(cfg, found[k - 1]);
      assert CorpusEvents(cfg, found, k) == before + step;
      forall e: Event | e in before + step ensures e.AddNodeLabel? {
        if e !in before {
          assert e in step;
        }
      }
    }
  }

  /** With `keep` the events of one found node are only new labels. */
  lemma FoundKept(cfg: Config, f: Found)
    requires cfg.keep
    ensures forall e :: e in FoundEvents(cfg, f) ==> e.AddNodeLabel?
  {
    if f.nodeName.Some? {
      var parts := FoundParts(cfg, f);
      PartLabelsSound(f.nodeName.value, parts, ValueMap(cfg.layerMap), IndexKeys(cfg.indexMap), |parts|);
      assert Deletion(cfg, f.nodeName.value) == [];
    }
  }
}
