/**
 * The order in which query matches are listed: by document path, then by the position
 * of the matched node's first token, then by node name, and by node id as a last resort.
 * The graph is given as plain data (node names, left tokens, the token order relation);
 * the caches of the source only remember these lookups and do not change any result.
 */
module SortMatches {
  import opened Wrappers
  import opened Strings

  /** `rsplit_once('#')`, or the whole name and an empty node name when there is no `#`. */
  function SplitPathAndNodename(fullName: string): (r: (string, string))
    ensures '#' in fullName ==> r.0 + "#" + r.1 == fullName && '#' !in r.1
    ensures '#' !in fullName ==> r == (fullName, "")
  {
    match LastIndexOf(fullName, '#')
    case None => (fullName, "")
    case Some(k) =>
      assert fullName == fullName[..k] + "#" + fullName[k + 1..];
      (fullName[..k], fullName[k + 1..])
  }

  /** The parts that are not empty, in order. */
  function NonEmpty(parts: seq<string>): (r: seq<string>)
    ensures forall k :: 0 <= k < |r| ==> r[k] != ""
  {
    if parts == [] then []
    else if parts[0] == "" then NonEmpty(parts[1..])
    else [parts[0]] + NonEmpty(parts[1..])
  }

  /** The non-empty pieces of a path cut at every '/'. */
  function Segments(p: string): seq<string>
  {
    NonEmpty(Split(p, '/'))
  }

  function CompareNat(a: nat, b: nat): (r: Ordering)
    ensures r == Equal <==> a == b
    ensures r == Less <==> a < b
  {
    if a < b then Less else if a == b then Equal else Greater
  }

  /** The loop over the zipped segments, then the segment counts. */
  function CompareSegments(a: seq<string>, b: seq<string>): Ordering
  {
    if a == [] || b == [] then CompareNat(|a|, |b|)
    else if CompareStrings(a[0], b[0]) != Equal then CompareStrings(a[0], b[0])
    else CompareSegments(a[1..], b[1..])
  }

  /** `compare_document_path`. */
  function CompareDocumentPath(p1: string, p2: string): Ordering
  {
    CompareSegments(Segments(p1), Segments(p2))
  }

  /** Two segment lists compare equal exactly when they are the same list. */
  lemma {:induction false} CompareSegmentsEqual(a: seq<string>, b: seq<string>)
    ensures CompareSegments(a, b) == Equal <==> a == b
  {
    if a != [] && b != [] && CompareStrings(a[0], b[0]) == Equal {
      CompareSegmentsEqual(a[1..], b[1..]);
      assert a == [a[0]] + a[1..] && b == [b[0]] + b[1..];
    }
  }

  /** Swapping the segment lists reverses the comparison. */
  lemma {:induction false} CompareSegmentsAntisymmetric(a: seq<string>, b: seq<string>)
    ensures CompareSegments(b, a) == CompareSegments(a, b).Reverse()
  {
    if a != [] && b != [] {
      CompareStringsAntisymmetric(a[0], b[0]);
      if CompareStrings(a[0], b[0]) == Equal {
        CompareSegmentsAntisymmetric(a[1..], b[1..]);
      }
    }
  }

  /** A proper prefix of segments sorts first. */
  lemma {:induction false} CompareSegmentsPrefix(a: seq<string>, b: seq<string>)
    requires |a| < |b| && a == b[..|a|]
    ensures CompareSegments(a, b) == Less
  {
    if a != [] {
      assert a[0] == b[0];
      assert a[1..] == b[1..][..|a| - 1];
      CompareSegmentsPrefix(a[1..], b[1..]);
    }
  }

  /** Document paths compare equal exactly when their non-empty segments agree, and swapping them reverses the order. */
  lemma CompareDocumentPathProperties(p1: string, p2: string)
    ensures CompareDocumentPath(p1, p2) == Equal <==> Segments(p1) == Segments(p2)
    ensures CompareDocumentPath(p2, p1) == CompareDocumentPath(p1, p2).Reverse()
  {
    CompareSegmentsEqual(Segments(p1), Segments(p2));
    CompareSegmentsAntisymmetric(Segments(p1), Segments(p2));
  }

  /** Segment lists with the same first segment compare by the rest. */
  lemma CompareSegmentsCommon(s: string, a: seq<string>, b: seq<string>)
    ensures CompareSegments([s] + a, [s] + b) == CompareSegments(a, b)
  {
    assert ([s] + a)[1..] == a && ([s] + b)[1..] == b;
  }

  /** After a common prefix, strings compare by their rests. */
  lemma {:induction false} CompareStringsSuffix(p: string, a: string, b: string)
    ensures CompareStrings(p + a, p + b) == CompareStrings(a, b)
  {
    if p != [] {
      var pa, pb := p + a, p + b;
      assert pa[0] == p[0] == pb[0];
      assert pa[1..] == p[1..] + a && pb[1..] == p[1..] + b;
      CompareStringsSuffix(p[1..], a, b);
    } else {
      assert p + a == a && p + b == b;
    }
  }

  /** Two paths of three segments that differ only in the last compare as their last segments. */
  lemma CompareLastSegments(x: string, y: string, a: string, b: string)
    ensures CompareSegments([x, y, a], [x, y, b]) == CompareSegments([a], [b])
  {
    CompareStringsAntisymmetric(x, x);
    CompareStringsAntisymmetric(y, y);
    assert [x, y, a][1..] == [y, a] && [x, y, b][1..] == [y, b];
    assert [y, a][1..] == [a] && [y, b][1..] == [b];
  }

  /** '1' sorts before '_', so "..._110" sorts before "..._1_1". */
  lemma TigerSegmentOrder()
    ensures CompareSegments(["tiger_release_dec05_110"], ["tiger_release_dec05_1_1"]) == Less
  {
    var p := "tiger_release_dec05_1";
    assert p + "10" == "tiger_release_dec05_110" && p + "_1" == "tiger_release_dec05_1_1";
    CompareStringsSuffix(p, "10", "_1");
  }

  /** A path of three non-empty names without '/' splits into those names. */
  lemma SegmentsOfThree(x: string, y: string, z: string)
    requires x != "" && y != "" && z != "" && '/' !in x && '/' !in y && '/' !in z
    ensures Segments(x + "/" + y + "/" + z) == [x, y, z]
  {
    assert x + "/" + y + "/" + z == x + ['/'] + (y + ['/'] + z);
    SplitPrefix(x, '/', y + ['/'] + z);
    SplitPrefix(y, '/', z);
    SplitNone(z, '/');
    var parts := [x, y, z];
    assert Split(x + "/" + y + "/" + z, '/') == parts;
    assert parts[1..] == [y, z] && parts[1..][1..] == [z] && parts[1..][1..][1..] == [];
    assert NonEmpty([z]) == [z];
    assert NonEmpty([y, z]) == [y] + NonEmpty([z]);
    assert NonEmpty(parts) == [x] + NonEmpty([y, z]);
  }

  /** The first path of the example splits into two "tiger2" folders and the document name. */
  lemma TigerPathFirst()
    ensures Segments("tiger2/tiger2/tiger_release_dec05_110") == ["tiger2", "tiger2", "tiger_release_dec05_110"]
  {
    SegmentsOfThree("tiger2", "tiger2", "tiger_release_dec05_110");
    assert "tiger2" + "/" + "tiger2" + "/" == "tiger2/tiger2/";
    assert "tiger2/tiger2/" + "tiger_release_dec05_110" == "tiger2/tiger2/tiger_release_dec05_110";
  }

  /** So does the second. */
  lemma TigerPathSecond()
    ensures Segments("tiger2/tiger2/tiger_release_dec05_1_1") == ["tiger2", "tiger2", "tiger_release_dec05_1_1"]
  {
    SegmentsOfThree("tiger2", "tiger2", "tiger_release_dec05_1_1");
    assert "tiger2" + "/" + "tiger2" + "/" == "tiger2/tiger2/";
    assert "tiger2/tiger2/" + "tiger_release_dec05_1_1" == "tiger2/tiger2/tiger_release_dec05_1_1";
  }

  /** The unit-test example: a path segment is compared as a whole string, character by character. */
  lemma TigerDocumentOrder()
    ensures CompareDocumentPath("tiger2/tiger2/tiger_release_dec05_110", "tiger2/tiger2/tiger_release_dec05_1_1") == Less
  {
    TigerPathFirst();
    TigerPathSecond();
    CompareLastSegments("tiger2", "tiger2", "tiger_release_dec05_110", "tiger_release_dec05_1_1");
    TigerSegmentOrder();
  }

  /** graphannis's annotation key; its derived order compares the name first, then the namespace. */
  datatype AnnoKey = AnnoKey(ns: string, name: string)

  function CompareKeys(a: AnnoKey, b: AnnoKey): (r: Ordering)
  {
    if CompareStrings(a.name, b.name) != Equal then CompareStrings(a.name, b.name) else CompareStrings(a.ns, b.ns)
  }

  lemma CompareKeysProperties(a: AnnoKey, b: AnnoKey)
    ensures CompareKeys(a, b) == Equal <==> a == b
    ensures CompareKeys(b, a) == CompareKeys(a, b).Reverse()
  {
    CompareStringsAntisymmetric(a.name, b.name);
    CompareStringsAntisymmetric(a.ns, b.ns);
  }

  datatype Match = Match(node: nat, annoKey: AnnoKey)

  /**
   * What the comparison reads from the graph: the `node_name` of each node, the left
   * token of each node that has one, and the token order: `(a, b)` in `precedes` when
   * token b is reachable from token a along ordering edges.
   */
  datatype Graph = Graph(names: map<nat, string>, leftToken: map<nat, nat>, precedes: set<(nat, nat)>)

  /** The token order of a real corpus has no cycles, so no two tokens precede each other. */
  ghost predicate Acyclic(g: Graph)
  {
    forall a, b :: (a, b) in g.precedes ==> (b, a) !in g.precedes
  }

  /** Two different nodes that both have a name: path, then token order, then node name, then id. */
  function CompareNamed(g: Graph, m1: Match, m2: Match): Ordering
    requires m1.node in g.names && m2.node in g.names
  {
    var (path1, name1) := SplitPathAndNodename(g.names[m1.node]);
    var (path2, name2) := SplitPathAndNodename(g.names[m2.node]);
    var pathCmp := CompareDocumentPath(path1, path2);
    if pathCmp != Equal then pathCmp
    else if m1.node in g.leftToken && m2.node in g.leftToken && (g.leftToken[m1.node], g.leftToken[m2.node]) in g.precedes then Less
    else if m1.node in g.leftToken && m2.node in g.leftToken && (g.leftToken[m2.node], g.leftToken[m1.node]) in g.precedes then Greater
    else if CompareStrings(name1, name2) != Equal then CompareStrings(name1, name2)
    else CompareNat(m1.node, m2.node)
  }

  /** `compare_match_by_text_pos`, after the lookups. */
  function CompareMatch(g: Graph, m1: Match, m2: Match): Ordering
  {
    if m1.node == m2.node then CompareKeys(m1.annoKey, m2.annoKey)
    else if m1.node in g.names && m2.node in g.names then CompareNamed(g, m1, m2)
    else CompareNat(m1.node, m2.node)
  }

  /** Two matches compare equal exactly when they are the same node and key. */
  lemma CompareMatchEqual(g: Graph, m1: Match, m2: Match)
    ensures CompareMatch(g, m1, m2) == Equal <==> m1 == m2
  {
    CompareKeysProperties(m1.annoKey, m2.annoKey);
  }

  lemma CompareNamedAntisymmetric(g: Graph, m1: Match, m2: Match)
    requires Acyclic(g) && m1.node in g.names && m2.node in g.names
    ensures CompareNamed(g, m2, m1) == CompareNamed(g, m1, m2).Reverse()
  {
    var (path1, name1) := SplitPathAndNodename(g.names[m1.node]);
    var (path2, name2) := SplitPathAndNodename(g.names[m2.node]);
    CompareDocumentPathProperties(path1, path2);
    CompareStringsAntisymmetric(name1, name2);
  }

  /** On an acyclic token order, swapping two matches reverses their comparison. */
  lemma CompareMatchAntisymmetric(g: Graph, m1: Match, m2: Match)
    requires Acyclic(g)
    ensures CompareMatch(g, m2, m1) == CompareMatch(g, m1, m2).Reverse()
  {
    CompareKeysProperties(m1.annoKey, m2.annoKey);
    if m1.node != m2.node && m1.node in g.names && m2.node in g.names {
      CompareNamedAntisymmetric(g, m1, m2);
    }
  }

  /** `compare_matchgroup_by_text_pos`: element by element; on a tie the longer group comes first. */
  function CompareGroups(g: Graph, m1: seq<Match>, m2: seq<Match>): Ordering
  {
    if m1 == [] || m2 == [] then CompareNat(|m2|, |m1|)
    else if CompareMatch(g, m1[0], m2[0]) != Equal then CompareMatch(g, m1[0], m2[0])
    else CompareGroups(g, m1[1..], m2[1..])
  }

  /** Two groups compare equal exactly when they are the same. */
  lemma {:induction false} CompareGroupsEqual(g: Graph, m1: seq<Match>, m2: seq<Match>)
    ensures CompareGroups(g, m1, m2) == Equal <==> m1 == m2
  {
    if m1 != [] && m2 != [] {
      CompareMatchEqual(g, m1[0], m2[0]);
      if m1[0] == m2[0] {
        CompareGroupsEqual(g, m1[1..], m2[1..]);
        assert m1 == [m1[0]] + m1[1..] && m2 == [m2[0]] + m2[1..];
      }
    }
  }

  /** A group that extends another sorts before it. */
  lemma {:induction false} CompareGroupsLongerFirst(g: Graph, m1: seq<Match>, m2: seq<Match>)
    requires |m1| < |m2| && m1 == m2[..|m1|]
    ensures CompareGroups(g, m2, m1) == Less
  {
    if m1 != [] {
      CompareMatchEqual(g, m2[0], m1[0]);
      assert m2[0] == m1[0];
      assert m1[1..] == m2[1..][..|m1| - 1];
      CompareGroupsLongerFirst(g, m1[1..], m2[1..]);
    }
  }

  /** On an acyclic token order, swapping two groups reverses their comparison. */
  lemma {:induction false} CompareGroupsAntisymmetric(g: Graph, m1: seq<Match>, m2: seq<Match>)
    requires Acyclic(g)
    ensures CompareGroups(g, m2, m1) == CompareGroups(g, m1, m2).Reverse()
  {
    if m1 != [] && m2 != [] {
      CompareMatchAntisymmetric(g, m1[0], m2[0]);
      if CompareMatch(g, m1[0], m2[0]) == Equal {
        CompareGroupsAntisymmetric(g, m1[1..], m2[1..]);
      }
    }
  }
}
