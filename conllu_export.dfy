/**
 * The line assembly of the CoNLL-U exporter: the nodes of a document in their token
 * order become one tab-separated line each, numbered from 1 within each sentence group,
 * with the dependency head written relative to the dependent's position.
 */
module ConlluExport {
  import opened Wrappers
  import opened Strings
  import opened Sorting
  import opened UpdateEvent

  const NoValue := "_"

  // ---------------------------------------------------------------------------
  // Dependency data
  // ---------------------------------------------------------------------------

  /** An incoming dependency of a node: the head's node id and the edge's label, if any. */
  type Dependency = (nat, Option<string>)

  /**
   * `map_dependency_data`: the head column and the label column of one dependency. The head
   * becomes the head's order index minus the dependent's order index plus the dependent's
   * CoNLL id; either node missing from the order is an error; no dependency gives `_` twice.
   */
  function MapDependencyData(dep: Option<Dependency>, conllId: nat, node: nat, index: map<nat, nat>): (r: Result<(string, string)>)
    ensures r.Err? <==> dep.Some? && (dep.value.0 !in index || node !in index)
    ensures dep.None? ==> r == Ok((NoValue, NoValue))
    ensures r.Ok? && dep.Some? ==> r.value.1 == if dep.value.1.Some? then dep.value.1.value else NoValue
  {
    match dep
    case None => Ok((NoValue, NoValue))
    case Some((head, rel)) =>
      if head !in index then Err("Unknown node id of dependency head.")
      else if node !in index then Err("Unknown dependent id.")
      else
        var normalized := index[head] - index[node] + conllId;
        Ok((IntToString(normalized), if rel.Some? then rel.value else NoValue))
  }

  /**
   * The head column is the head's own CoNLL id: when the dependent is the n-th node of a
   * sentence that starts at order index `start`, a head at order index `start + m - 1` of the
   * same sentence is written as m.
   */
  lemma HeadColumnIsHeadId(head: nat, rel: Option<string>, conllId: nat, node: nat, index: map<nat, nat>, start: nat)
    requires head in index && node in index
    requires index[node] >= start && conllId == index[node] - start + 1
    requires index[head] >= start
    ensures MapDependencyData(Some((head, rel)), conllId, node, index).Ok?
    ensures MapDependencyData(Some((head, rel)), conllId, node, index).value.0 == NatToString(index[head] - start + 1)
  {
  }

  /** Distinct heads of one dependent are written as distinct head columns. */
  lemma HeadColumnsDistinct(h1: nat, h2: nat, l1: Option<string>, l2: Option<string>, conllId: nat, node: nat, index: map<nat, nat>)
    requires h1 in index && h2 in index && node in index && index[h1] != index[h2]
    ensures MapDependencyData(Some((h1, l1)), conllId, node, index).value.0
         != MapDependencyData(Some((h2, l2)), conllId, node, index).value.0
  {
    var a := index[h1] - index[node] + conllId;
    var b := index[h2] - index[node] + conllId;
    if IntToString(a) == IntToString(b) {
      IntToStringInjective(a, b);
    }
  }

  /**
   * The dependency sources of `node_data`: the configured dependency component (an error when
   * the graph lacks it) and the enhanced components that exist, paired with the dependency
   * label key and the enhanced label keys; differing numbers of the two are an error.
   */
  function DependencySources<C, K>(component: Option<(C, bool)>, enhanced: seq<(C, bool)>, anno: Option<K>, enhancedAnnos: seq<K>): (r: Result<seq<(C, K)>>)
    ensures component.Some? && !component.value.1 ==> r.Err?
    ensures r.Ok? ==> |r.value| == |Existing(enhanced)| + (if component.Some? then 1 else 0)
    ensures r.Ok? ==> |r.value| == |enhancedAnnos| + (if anno.Some? then 1 else 0)
  {
    if component.Some? && !component.value.1 then Err("No such component. Please check configuration.")
    else
      var storages := (if component.Some? then [component.value.0] else []) + Existing(enhanced);
      var keys := (if anno.Some? then [anno.value] else []) + enhancedAnnos;
      if |storages| != |keys| then Err("Number of dependency components does not match number of label names.")
      else Ok(seq(|storages|, i requires 0 <= i < |storages| => (storages[i], keys[i])))
  }

  /** The components of the list that the graph has, in order. */
  function Existing<C>(cs: seq<(C, bool)>): (r: seq<C>)
    ensures |r| <= |cs|
  {
    if cs == [] then [] else (if cs[0].1 then [cs[0].0] else []) + Existing(cs[1..])
  }

  /** The sources fail exactly when the component is missing or the two counts differ. */
  lemma DependencySourcesErr<C, K>(component: Option<(C, bool)>, enhanced: seq<(C, bool)>, anno: Option<K>, enhancedAnnos: seq<K>)
    ensures DependencySources(component, enhanced, anno, enhancedAnnos).Err? <==>
      (component.Some? && !component.value.1)
      || |Existing(enhanced)| + (if component.Some? then 1 else 0) != |enhancedAnnos| + (if anno.Some? then 1 else 0)
  {
  }

  // ---------------------------------------------------------------------------
  // One line
  // ---------------------------------------------------------------------------

  /**
   * The `name=value` entries of the keys that still have a value, in key order; each key
   * is taken out of the data once it is used, so a repeated key yields one entry.
   */
  function Entries(data: map<AnnoKey, string>, keys: seq<AnnoKey>): (r: seq<string>)
    ensures |r| <= |keys|
  {
    if keys == [] then []
    else
      var k := keys[0];
      (if k in data then [k.name + "=" + data[k]] else []) + Entries(data - {k}, keys[1..])
  }

  /** The data left once the keys have been taken out. */
  function Without(data: map<AnnoKey, string>, keys: seq<AnnoKey>): map<AnnoKey, string>
  {
    data - set k | k in keys
  }

  /** A feature-like column: `_` when no key has a value, otherwise the sorted entries joined by '|'. */
  function Column(entries: seq<string>): string
  {
    if entries == [] then NoValue else Join(SortBy(entries, StringLe), "|")
  }

  /** The column is `_` exactly when there are no entries; the entries come sorted and complete. */
  lemma ColumnProperties(entries: seq<string>)
    ensures entries == [] ==> Column(entries) == NoValue
    ensures entries != [] ==> Column(entries) == Join(SortBy(entries, StringLe), "|")
    ensures SortedBy(SortBy(entries, StringLe), StringLe)
    ensures multiset(SortBy(entries, StringLe)) == multiset(entries)
  {
    StringLeTotal();
    SortBySorted(entries, StringLe);
    SortByPermutes(entries, StringLe);
  }

  /** An entry is there for exactly the keys that have a value. */
  lemma {:induction false} EntriesMembers(data: map<AnnoKey, string>, keys: seq<AnnoKey>)
    ensures forall k :: k in keys && k in data ==> k.name + "=" + data[k] in Entries(data, keys)
    ensures Entries(data, keys) == [] <==> forall k :: k in keys ==> k !in data
  {
    if keys != [] {
      EntriesMembers(data - {keys[0]}, keys[1..]);
      forall k | k in keys && k in data
        ensures k.name + "=" + data[k] in Entries(data, keys)
      {
        if k != keys[0] {
          assert k in keys[1..];
        }
      }
    }
  }

  datatype Config = Config(formKey: AnnoKey, lemmaKey: AnnoKey, uposKey: AnnoKey, xposKey: AnnoKey,
                           features: seq<AnnoKey>, misc: seq<AnnoKey>, hasDependency: bool)

  /** What `node_data` finds for one node: its annotations, its sentence group, its incoming dependencies. */
  datatype NodeData = NodeData(id: nat, name: string, data: map<AnnoKey, string>, group: Option<nat>, deps: seq<Dependency>)

  /** The enhanced-dependency column: `head:label` per dependency joined by '|', or `_` when there are none. */
  function Enhanced(deps: seq<Dependency>, conllId: nat, node: nat, index: map<nat, nat>): (r: Result<seq<string>>)
    ensures r.Err? <==> exists i :: 0 <= i < |deps| && (deps[i].0 !in index || node !in index)
    ensures r.Ok? ==> |r.value| == |deps|
  {
    if deps == [] then Ok([])
    else
      match MapDependencyData(Some(deps[0]), conllId, node, index)
      case Err(e) => Err(e)
      case Ok(hl) =>
        match Enhanced(deps[1..], conllId, node, index)
        case Err(e) =>
          assert exists i :: 0 <= i < |deps| && (deps[i].0 !in index || node !in index) by {
            var i :| 0 <= i < |deps[1..]| && (deps[1..][i].0 !in index || node !in index);
            assert deps[i + 1] == deps[1..][i];
          }
          Err(e)
        case Ok(rest) =>
          assert forall i :: 0 <= i < |deps| ==> deps[i].0 in index by {
            forall i | 0 <= i < |deps|
              ensures deps[i].0 in index
            {
              if i > 0 {
                assert deps[i] == deps[1..][i - 1];
              }
            }
          }
          Ok([hl.0 + ":" + hl.1] + rest)
  }

  /**
   * The ten columns of a node's line: id, form (an error when missing), lemma, upos, xpos,
   * features, head, deprel, enhanced dependencies and misc. Every key is taken out of the
   * data once it has been used.
   */
  function Fields(cfg: Config, n: NodeData, conllId: nat, index: map<nat, nat>): (r: Result<seq<string>>)
    ensures r.Err? <==> (
      || cfg.formKey !in n.data
      || (cfg.hasDependency && MapDependencyData(if n.deps == [] then None else Some(n.deps[0]), conllId, n.id, index).Err?)
      || Enhanced(n.deps, conllId, n.id, index).Err?)
    ensures r.Ok? ==> |r.value| == 10 && r.value[0] == NatToString(conllId) && r.value[1] == n.data[cfg.formKey]
  {
    if cfg.formKey !in n.data then Err("No form value for node " + n.name)
    else
      var d := n.data - {cfg.formKey};
      var lem := if cfg.lemmaKey in d then d[cfg.lemmaKey] else NoValue;
      var d := d - {cfg.lemmaKey};
      var upos := if cfg.uposKey in d then d[cfg.uposKey] else NoValue;
      var d := d - {cfg.uposKey};
      var xpos := if cfg.xposKey in d then d[cfg.xposKey] else NoValue;
      var d := d - {cfg.xposKey};
      var feats := Column(Entries(d, cfg.features));
      var misc := Column(Entries(Without(d, cfg.features), cfg.misc));
      var basic := if cfg.hasDependency then MapDependencyData(if n.deps == [] then None else Some(n.deps[0]), conllId, n.id, index)
                   else Ok((NoValue, NoValue));
      match basic
      case Err(e) => Err(e)
      case Ok(hl) =>
        match Enhanced(n.deps, conllId, n.id, index)
        case Err(e) => Err(e)
        case Ok(entries) =>
          var enhanced := if entries == [] then NoValue else Join(entries, "|");
          Ok([NatToString(conllId), n.data[cfg.formKey], lem, upos, xpos, feats, hl.0, hl.1, enhanced, misc])
  }

  /** A line is its fields joined by tabs; splitting it at tabs gives the fields back when none holds a tab. */
  lemma LineColumns(fields: seq<string>)
    requires |fields| == 10
    requires forall i :: 0 <= i < 10 ==> '\t' !in fields[i]
    ensures Split(Join(fields, "\t"), '\t') == fields
  {
    SplitJoin(fields, '\t');
  }

  // ---------------------------------------------------------------------------
  // The document
  // ---------------------------------------------------------------------------

  /** Node `i` starts a new sentence: it and its predecessor both have a group, and the groups differ. */
  predicate GroupChanged(nodes: seq<NodeData>, i: nat)
    requires i < |nodes|
  {
    i > 0 && nodes[i - 1].group.Some? && nodes[i].group.Some? && nodes[i - 1].group != nodes[i].group
  }

  /** The order index of the first node of the sentence node `i` belongs to. */
  function SentenceStart(nodes: seq<NodeData>, i: nat): (s: nat)
    requires i < |nodes|
    ensures s <= i
  {
    if i == 0 || GroupChanged(nodes, i) then i else SentenceStart(nodes, i - 1)
  }

  /** The text written for the first `k` nodes, with the CoNLL id the next node would get. */
  datatype Written = Written(text: string, nextId: nat)

  /** The output of `export_document` for the first `k` nodes in token order. */
  function Export(cfg: Config, nodes: seq<NodeData>, index: map<nat, nat>, k: nat): (r: Result<Written>)
    requires k <= |nodes|
  {
    if k == 0 then Ok(Written("", 1))
    else
      match Export(cfg, nodes, index, k - 1)
      case Err(e) => Err(e)
      case Ok(w) =>
        var i := k - 1;
        var id := if GroupChanged(nodes, i) then 1 else w.nextId;
        var sep := if GroupChanged(nodes, i) then "\n" else "";
        match Fields(cfg, nodes[i], id, index)
        case Err(e) => Err(e)
        case Ok(fields) => Ok(Written(w.text + sep + Join(fields, "\t") + "\n", id + 1))
  }

  /** The CoNLL id of node `i` counts the nodes of its sentence up to it, from 1. */
  lemma {:induction false} ExportIds(cfg: Config, nodes: seq<NodeData>, index: map<nat, nat>, k: nat)
    requires 0 < k <= |nodes|
    requires Export(cfg, nodes, index, k).Ok?
    ensures Export(cfg, nodes, index, k).value.nextId == k - SentenceStart(nodes, k - 1) + 1
  {
    if k > 1 {
      ExportIds(cfg, nodes, index, k - 1);
    }
  }

  /** A node that is not the first of the export fails only if its own line fails. */
  lemma ExportStep(cfg: Config, nodes: seq<NodeData>, index: map<nat, nat>, k: nat)
    requires k < |nodes|
    requires Export(cfg, nodes, index, k).Ok?
    ensures var id := if GroupChanged(nodes, k) then 1 else Export(cfg, nodes, index, k).value.nextId;
      Export(cfg, nodes, index, k + 1).Ok? <==> Fields(cfg, nodes[k], id, index).Ok?
  {
  }

  /**
   * Every line's head column names the head by its CoNLL id when the order index of each
   * node is its position and the head lies in the same sentence.
   */
  lemma HeadInSentence(cfg: Config, nodes: seq<NodeData>, index: map<nat, nat>, k: nat, w: Written, head: nat, rel: Option<string>)
    requires 0 < k <= |nodes| && Export(cfg, nodes, index, k) == Ok(w)
    requires nodes[k - 1].id in index && index[nodes[k - 1].id] == k - 1
    requires head in index && SentenceStart(nodes, k - 1) <= index[head]
    ensures MapDependencyData(Some((head, rel)), w.nextId - 1, nodes[k - 1].id, index).value.0
        == NatToString(index[head] - SentenceStart(nodes, k - 1) + 1)
  {
    ExportIds(cfg, nodes, index, k);
    HeadColumnIsHeadId(head, rel, w.nextId - 1, nodes[k - 1].id, index, SentenceStart(nodes, k - 1));
  }

  /** `export_document`'s loop over the ordered nodes, with the running id and the last group. */
  method ExportDocument(cfg: Config, nodes: seq<NodeData>, index: map<nat, nat>) returns (r: Result<string>)
    ensures r.Ok? <==> Export(cfg, nodes, index, |nodes|).Ok?
    ensures r.Ok? ==> r.value == Export(cfg, nodes, index, |nodes|).value.text
    ensures r.Err? ==> r.msg == Export(cfg, nodes, index, |nodes|).msg
  {
    var out := "";
    var nodeId := 1;
    var lastGroup: Option<nat> := None;
    for k := 0 to |nodes|
      invariant Export(cfg, nodes, index, k).Ok?
      invariant Export(cfg, nodes, index, k).value == Written(out, nodeId)
      invariant lastGroup == if k == 0 then None else nodes[k - 1].group
    {
      var n := nodes[k];
      var sep := "";
      if lastGroup.Some? && n.group.Some? {
        if lastGroup != n.group {
          sep := "\n";
          lastGroup := n.group;
          nodeId := 1;
        }
      } else {
        lastGroup := n.group;
      }
      var fields := Fields(cfg, n, nodeId, index);
      if fields.Err? {
        ExportErrSticks(cfg, nodes, index, k + 1);
        return Err(fields.msg);
      }
      out := out + sep + Join(fields.value, "\t") + "\n";
      nodeId := nodeId + 1;
    }
    return Ok(out);
  }

  /** Once a line fails the export fails, with that line's message. */
  lemma {:induction false} ExportErrSticks(cfg: Config, nodes: seq<NodeData>, index: map<nat, nat>, k: nat)
    requires k <= |nodes| && Export(cfg, nodes, index, k).Err?
    ensures Export(cfg, nodes, index, |nodes|) == Export(cfg, nodes, index, k)
    decreases |nodes| - k
  {
    if k < |nodes| {
      ExportErrSticks(cfg, nodes, index, k + 1);
    }
  }
}
