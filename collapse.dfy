/**
 * The collapse manipulator: every group of nodes connected in one component becomes a
 * single hypernode. The model covers how the groups (hyperedges) are collected and made
 * disjoint, how each hypernode is named, which member nodes are deleted, and which node
 * annotations are carried over to the hypernode.
 */
module Collapse {
  import opened Wrappers
  import opened Strings
  import opened Sorting
  import opened Events
  import opened UpdateEvent

  // ---------------------------------------------------------------------------
  // Hyperedges
  // ---------------------------------------------------------------------------

  /** Every node that lies in some hyperedge of `hs`. */
  function Members(hs: seq<set<nat>>): set<nat>
  {
    if |hs| == 0 then {} else Members(hs[..|hs| - 1]) + hs[|hs| - 1]
  }

  lemma MembersAppend(hs: seq<set<nat>>, h: set<nat>)
    ensures Members(hs + [h]) == Members(hs) + h
  {
    assert (hs + [h])[..|hs|] == hs;
  }

  /** Each hyperedge is part of the members. */
  lemma {:induction false} MembersCover(hs: seq<set<nat>>, k: nat)
    requires k < |hs|
    ensures hs[k] <= Members(hs)
  {
    if k < |hs| - 1 {
      MembersCover(hs[..|hs| - 1], k);
    }
  }

  /** The members are no more than what bounds every hyperedge. */
  lemma {:induction false} MembersBounded(hs: seq<set<nat>>, s: set<nat>)
    requires forall k :: 0 <= k < |hs| ==> hs[k] <= s
    ensures Members(hs) <= s
  {
    if |hs| > 0 {
      MembersBounded(hs[..|hs| - 1], s);
    }
  }

  predicate PairwiseDisjoint(hs: seq<set<nat>>)
  {
    forall a, b :: 0 <= a < b < |hs| ==> hs[a] * hs[b] == {}
  }

  /** `h` lies inside one of the hyperedges of `d`. */
  predicate InsideSome(h: set<nat>, d: seq<set<nat>>)
  {
    exists k :: 0 <= k < |d| && h <= d[k]
  }

  /** Appending a hyperedge keeps what was inside some hyperedge, and holds what it contains. */
  lemma {:induction false} InsideSomeAppend(h: set<nat>, d: seq<set<nat>>, x: set<nat>)
    ensures InsideSome(h, d) ==> InsideSome(h, d + [x])
    ensures h <= x ==> InsideSome(h, d + [x])
  {
    if InsideSome(h, d) {
      var k :| 0 <= k < |d| && h <= d[k];
      assert (d + [x])[k] == d[k];
    }
    if h <= x {
      assert (d + [x])[|d|] == x;
    }
  }

  /** Inside a hyperedge of `d`, each of which lies inside one of `e`, is inside one of `e`. */
  lemma {:induction false} InsideSomeTrans(h: set<nat>, d: seq<set<nat>>, e: seq<set<nat>>)
    requires InsideSome(h, d)
    requires forall k :: 0 <= k < |d| ==> InsideSome(d[k], e)
    ensures InsideSome(h, e)
  {
    var k :| 0 <= k < |d| && h <= d[k];
    var m :| 0 <= m < |e| && d[k] <= e[m];
  }

  /** The hyperedge of each source node: the node and whatever the traversal reached from it. */
  function Seeded(sources: seq<nat>, reached: seq<set<nat>>): seq<set<nat>>
    requires |reached| == |sources|
  {
    seq(|sources|, i requires 0 <= i < |sources| => reached[i] + {sources[i]})
  }

  /** Every source and every node reached from it is a member of the seeded hyperedges. */
  lemma SeededMembers(sources: seq<nat>, reached: seq<set<nat>>)
    requires |reached| == |sources|
    ensures forall i :: 0 <= i < |sources| ==> sources[i] in Members(Seeded(sources, reached))
    ensures forall i :: 0 <= i < |sources| ==> reached[i] <= Members(Seeded(sources, reached))
  {
    forall i | 0 <= i < |sources|
      ensures reached[i] + {sources[i]} <= Members(Seeded(sources, reached))
    {
      MembersCover(Seeded(sources, reached), i);
    }
  }

  /**
   * Builds one hyperedge per source node of the component; `reached[i]` is what the
   * store's depth-first search from `sources[i]` (minimum depth 1) visits.
   */
  method InitialHyperedges(sources: seq<nat>, reached: seq<set<nat>>) returns (hs: seq<set<nat>>)
    requires |reached| == |sources|
    ensures hs == Seeded(sources, reached)
  {
    hs := [];
    for i := 0 to |sources|
      invariant hs == Seeded(sources[..i], reached[..i])
    {
      hs := hs + [reached[i] + {sources[i]}];
    }
    assert sources[..|sources|] == sources && reached[..|reached|] == reached;
  }

  /**
   * The inner loop of a merge pass for hyperedge `i`: it grows by every hyperedge at or
   * after it that meets what it has gathered so far, and those are marked to be skipped.
   * `merged` tells whether some later hyperedge was absorbed; when none was, hyperedge `i`
   * meets none of the later ones and comes out unchanged.
   */
  method Absorb(hs: seq<set<nat>>, i: nat, skip: set<nat>) returns (joint: set<nat>, skip': set<nat>, ghost merged: bool)
    requires i < |hs|
    requires forall m :: m in skip ==> m < |hs|
    ensures hs[i] <= joint <= Members(hs)
    ensures skip <= skip'
    ensures forall m :: m in skip' ==> m < |hs|
    ensures forall m :: m in skip' && m !in skip ==> hs[m] <= joint
    ensures !merged ==> joint == hs[i] && skip' - skip <= {i}
    ensures !merged ==> forall m :: i < m < |hs| ==> hs[i] * hs[m] == {}
    ensures merged ==> exists b :: i < b < |hs| && b in skip'
  {
    var n := |hs|;
    joint := hs[i];
    skip' := skip;
    merged := false;
    MembersCover(hs, i);
    for j := 0 to n - i
      invariant hs[i] <= joint <= Members(hs)
      invariant skip <= skip'
      invariant forall m :: m in skip' ==> m < n
      invariant forall m :: m in skip' && m !in skip ==> hs[m] <= joint
      invariant !merged ==> joint == hs[i] && skip' - skip <= {i}
      invariant !merged ==> forall m :: i < m < i + j ==> hs[i] * hs[m] == {}
      invariant merged ==> exists b :: i < b < n && b in skip'
    {
      var probe := hs[i + j];
      if joint * probe != {} {
        MembersCover(hs, i + j);
        joint := joint + probe;
        skip' := skip' + {i + j};
        if j > 0 {
          merged := true;
        }
      }
    }
  }

  /** What a merge pass has established once it has visited the first `i` hyperedges. */
  ghost predicate PassInv(hs: seq<set<nat>>, i: nat, d: seq<set<nat>>, skip: set<nat>, anyMerge: bool)
  {
    var n := |hs|;
    i <= n &&
    |d| <= i &&
    Members(d) <= Members(hs) &&
    (forall j :: 0 <= j < n && (j < i || j in skip) ==> hs[j] <= Members(d)) &&
    (forall j :: j in skip ==> j < n) &&
    ((forall k :: 0 <= k < n ==> hs[k] != {}) ==> forall k :: 0 <= k < |d| ==> d[k] != {}) &&
    (!anyMerge ==> d == hs[..i] && forall j :: j in skip ==> j < i) &&
    (!anyMerge ==> forall a, b :: 0 <= a < i && a < b < n ==> hs[a] * hs[b] == {}) &&
    (anyMerge ==> |d| < i || exists b :: i <= b < n && b in skip)
  }

  /** Every hyperedge visited or absorbed so far lies inside one of the pass's results. */
  predicate CoveredSoFar(hs: seq<set<nat>>, i: nat, d: seq<set<nat>>, skip: set<nat>)
  {
    forall j :: 0 <= j < |hs| && (j < i || j in skip) ==> InsideSome(hs[j], d)
  }

  /** The hyperedge a visit gathers holds the visited one and all it newly absorbs. */
  lemma {:induction false} CoveredStep(hs: seq<set<nat>>, i: nat, d: seq<set<nat>>, skip: set<nat>,
                                       joint: set<nat>, skip': set<nat>)
    requires CoveredSoFar(hs, i, d, skip)
    requires i < |hs| && hs[i] <= joint && skip <= skip'
    requires forall m :: m in skip' ==> m < |hs|
    requires forall m :: m in skip' && m !in skip ==> hs[m] <= joint
    ensures CoveredSoFar(hs, i + 1, d + [joint], skip')
  {
    forall j | 0 <= j < |hs| && (j < i + 1 || j in skip') ensures InsideSome(hs[j], d + [joint]) {
      InsideSomeAppend(hs[j], d, joint);
    }
  }

  /** Taking one more hyperedge appends it. */
  lemma {:induction false} TakeOneMore(hs: seq<set<nat>>, i: nat)
    requires i < |hs|
    ensures hs[..i + 1] == hs[..i] + [hs[i]]
  {
  }

  /** A visit that absorbs nothing but the visited hyperedge keeps the skip set below the next index. */
  lemma {:induction false} SkipBelow(skip: set<nat>, skip': set<nat>, i: nat)
    requires forall j :: j in skip ==> j < i
    requires skip' - skip <= {i}
    ensures forall j :: j in skip' ==> j < i + 1
  {
    forall j | j in skip' ensures j < i + 1 {
      if j !in skip {
        assert j in skip' - skip;
      }
    }
  }

  /** The merge pass's visit of hyperedge `i`: absorbed already, it is skipped; otherwise it absorbs what meets it. */
  method MergeStep(hs: seq<set<nat>>, i: nat, d: seq<set<nat>>, skip: set<nat>, ghost anyMerge: bool)
    returns (d': seq<set<nat>>, skip': set<nat>, ghost anyMerge': bool)
    requires i < |hs| && PassInv(hs, i, d, skip, anyMerge) && CoveredSoFar(hs, i, d, skip)
    ensures PassInv(hs, i + 1, d', skip', anyMerge') && CoveredSoFar(hs, i + 1, d', skip')
  {
    d', skip', anyMerge' := d, skip, anyMerge;
    if i !in skip {
      var joint;
      ghost var merged;
      joint, skip', merged := Absorb(hs, i, skip);
      MembersAppend(d, joint);
      CoveredStep(hs, i, d, skip, joint, skip');
      if !anyMerge && !merged {
        TakeOneMore(hs, i);
        SkipBelow(skip, skip', i);
      }
      d' := d + [joint];
      anyMerge' := anyMerge || merged;
    }
  }

  /**
   * One pass of the merge loop: a hyperedge that has not been absorbed yet absorbs what
   * meets it, and the absorbed ones are skipped when their turn comes. The pass never adds
   * hyperedges and never loses a member, and a pass that keeps the count finds the
   * hyperedges already disjoint.
   */
  method MergePass(hs: seq<set<nat>>) returns (d: seq<set<nat>>)
    ensures |d| <= |hs|
    ensures Members(d) == Members(hs)
    ensures (forall k :: 0 <= k < |hs| ==> hs[k] != {}) ==> forall k :: 0 <= k < |d| ==> d[k] != {}
    ensures |d| == |hs| ==> d == hs && PairwiseDisjoint(hs)
    ensures forall j :: 0 <= j < |hs| ==> InsideSome(hs[j], d)
  {
    var n := |hs|;
    d := [];
    var skip: set<nat> := {};
    ghost var anyMerge := false;
    for i := 0 to n
      invariant PassInv(hs, i, d, skip, anyMerge) && CoveredSoFar(hs, i, d, skip)
    {
      d, skip, anyMerge := MergeStep(hs, i, d, skip, anyMerge);
    }
    MembersBounded(hs, Members(d));
    assert hs[..n] == hs;
  }

  /**
   * The hyperedges of the component. Unless the configuration promises that they are
   * disjoint already, merge passes run until one no longer reduces their number; the loop
   * ends because the number drops on every pass that repeats. The result keeps every
   * member, and after merging no node lies in two hyperedges.
   */
  method CollectHyperedges(sources: seq<nat>, reached: seq<set<nat>>, disjoint: bool) returns (hs: seq<set<nat>>)
    requires |reached| == |sources|
    ensures Members(hs) == Members(Seeded(sources, reached))
    ensures forall k :: 0 <= k < |hs| ==> hs[k] != {}
    ensures disjoint ==> hs == Seeded(sources, reached)
    ensures !disjoint ==> PairwiseDisjoint(hs)
    ensures forall x :: 0 <= x < |sources| ==> InsideSome(Seeded(sources, reached)[x], hs)
  {
    hs := InitialHyperedges(sources, reached);
    forall x | 0 <= x < |sources| ensures InsideSome(hs[x], hs) {
      assert hs[x] <= hs[x];
    }
    if disjoint {
      return;
    }
    ghost var seeded := hs;
    var repeat := true;
    while repeat
      invariant Members(hs) == Members(Seeded(sources, reached))
      invariant forall k :: 0 <= k < |hs| ==> hs[k] != {}
      invariant !repeat ==> PairwiseDisjoint(hs)
      invariant forall x :: 0 <= x < |seeded| ==> InsideSome(seeded[x], hs)
      decreases |hs| + (if repeat then 1 else 0)
    {
      var n := |hs|;
      var next := MergePass(hs);
      forall x | 0 <= x < |seeded| ensures InsideSome(seeded[x], next) {
        InsideSomeTrans(seeded[x], hs, next);
      }
      repeat := n > |next|;
      hs := next;
    }
  }

  // ---------------------------------------------------------------------------
  // Naming the hypernodes
  // ---------------------------------------------------------------------------

  const HypernodeStem := "#mrg"

  /**
   * A member of a hyperedge as the store describes it: its id, its node name (if it has
   * one), the name of its part-of parent ("" when it has no single parent), whether it
   * has no outgoing edge in the component, and its node annotations.
   */
  datatype Member = Member(id: nat, name: Option<string>, parent: string, terminal: bool,
                           annos: seq<(AnnoKey, string)>)

  /** The part of a node name after its last `#`, or the whole name when it has none. */
  function RelevantSuffix(name: string): (r: string)
    ensures |r| <= |name| && r == name[|name| - |r|..]
    ensures '#' !in r
    ensures |r| < |name| ==> name[|name| - |r| - 1] == '#'
  {
    match LastIndexOf(name, '#')
    case None => name
    case Some(i) => name[i + 1..]
  }

  /** The suffix a member contributes to the name; a member without a name gives "". */
  function MemberSuffix(m: Member): string
  {
    RelevantSuffix(if m.name.Some? then m.name.value else "")
  }

  /** The suffixes of the members under parent `p`, in member order. */
  function SuffixesOf(members: seq<Member>, p: string): seq<string>
  {
    if |members| == 0 then []
    else
      var last := members[|members| - 1];
      SuffixesOf(members[..|members| - 1], p) + (if last.parent == p then [MemberSuffix(last)] else [])
  }

  /** The distinct parents in the order they first occur. */
  function FirstParents(members: seq<Member>): seq<string>
  {
    if |members| == 0 then []
    else
      var prev := FirstParents(members[..|members| - 1]);
      if members[|members| - 1].parent in prev then prev else prev + [members[|members| - 1].parent]
  }

  /** Each parent is listed once. */
  lemma {:induction false} FirstParentsDistinct(members: seq<Member>)
    ensures forall i, j :: 0 <= i < j < |FirstParents(members)| ==> FirstParents(members)[i] != FirstParents(members)[j]
  {
    if |members| > 0 {
      FirstParentsDistinct(members[..|members| - 1]);
    }
  }

  /** A parent has a group exactly when some member hangs under it. */
  lemma {:induction false} FirstParentsMembers(members: seq<Member>, p: string)
    ensures p in FirstParents(members) <==> SuffixesOf(members, p) != []
    ensures p in FirstParents(members) <==> exists j :: 0 <= j < |members| && members[j].parent == p
  {
    if |members| > 0 {
      var init := members[..|members| - 1];
      FirstParentsMembers(init, p);
      assert forall j :: 0 <= j < |init| ==> init[j] == members[j];
    }
  }

  /** Each member's suffix is in its parent's group. */
  lemma {:induction false} SuffixesOfMember(members: seq<Member>, j: nat)
    requires j < |members|
    ensures MemberSuffix(members[j]) in SuffixesOf(members, members[j].parent)
  {
    if j < |members| - 1 {
      var init := members[..|members| - 1];
      SuffixesOfMember(init, j);
      assert init[j] == members[j];
    }
  }

  /** A group holds only the suffixes of the members under its parent: `j` is a member giving `s`. */
  lemma {:induction false} SuffixesOfOnly(members: seq<Member>, p: string, s: string) returns (j: nat)
    requires s in SuffixesOf(members, p)
    ensures j < |members| && members[j].parent == p && MemberSuffix(members[j]) == s
  {
    var init := members[..|members| - 1];
    if s in SuffixesOf(init, p) {
      j := SuffixesOfOnly(init, p, s);
      assert init[j] == members[j];
    } else {
      j := |members| - 1;
    }
  }

  /** Groups the member suffixes by parent, as the parent-to-member map of the naming step. */
  method GroupByParent(members: seq<Member>) returns (parents: seq<string>, groups: map<string, seq<string>>)
    ensures parents == FirstParents(members)
    ensures forall p :: p in groups <==> p in parents
    ensures forall p :: p in groups ==> groups[p] == SuffixesOf(members, p)
  {
    parents := [];
    groups := map[];
    for k := 0 to |members|
      invariant parents == FirstParents(members[..k])
      invariant forall p :: p in groups <==> p in parents
      invariant forall p :: p in groups ==> groups[p] == SuffixesOf(members[..k], p)
      invariant forall p :: p !in groups ==> SuffixesOf(members[..k], p) == []
    {
      var m := members[k];
      assert members[..k + 1][..k] == members[..k];
      if m.parent in groups {
        groups := groups[m.parent := groups[m.parent] + [MemberSuffix(m)]];
      } else {
        groups := groups[m.parent := [MemberSuffix(m)]];
        parents := parents + [m.parent];
      }
    }
    assert members[..|members|] == members;
  }

  /** The parent groups in ascending order of the parent name, as a sorted map yields them. */
  function Entries(members: seq<Member>): seq<(string, seq<string>)>
  {
    Groups(members, SortBy(FirstParents(members), StringLe))
  }

  /** The group of each parent in `keys`, in the order of `keys`. */
  function Groups(members: seq<Member>, keys: seq<string>): seq<(string, seq<string>)>
  {
    if |keys| == 0 then []
    else Groups(members, keys[..|keys| - 1]) + [(keys[|keys| - 1], SuffixesOf(members, keys[|keys| - 1]))]
  }

  lemma {:induction false} GroupsAt(members: seq<Member>, keys: seq<string>)
    ensures |Groups(members, keys)| == |keys|
    ensures forall i :: 0 <= i < |keys| ==> Groups(members, keys)[i] == (keys[i], SuffixesOf(members, keys[i]))
  {
    if |keys| > 0 {
      GroupsAt(members, keys[..|keys| - 1]);
    }
  }

  /** The entries come in ascending order of their parent, each parent once. */
  lemma EntriesSorted(members: seq<Member>)
    ensures forall i, j :: 0 <= i < j < |Entries(members)| ==> CompareStrings(Entries(members)[i].0, Entries(members)[j].0) == Less
  {
    var ps := FirstParents(members);
    var keys := SortBy(ps, StringLe);
    GroupsAt(members, keys);
    FirstParentsDistinct(members);
    StringLeTotal();
    SortBySorted(ps, StringLe);
    SortByPermutes(ps, StringLe);
    forall i, j | 0 <= i < j < |keys| ensures CompareStrings(keys[i], keys[j]) == Less {
      assert StringLe(keys[i], keys[j]);
      if keys[i] == keys[j] {
        DistinctTwice(ps, keys, i, j);
      }
    }
  }

  /** A permutation of a sequence without repeats has no repeats either. */
  lemma DistinctTwice(ps: seq<string>, keys: seq<string>, i: nat, j: nat)
    requires forall a, b :: 0 <= a < b < |ps| ==> ps[a] != ps[b]
    requires multiset(keys) == multiset(ps)
    requires i < j < |keys|
    ensures keys[i] != keys[j]
  {
    if keys[i] == keys[j] {
      var x := keys[i];
      assert multiset(keys)[x] >= 2 by {
        assert keys == keys[..i] + [x] + keys[i + 1..j] + [x] + keys[j + 1..];
      }
      DistinctCount(ps, x);
      assert false;
    }
  }

  lemma {:induction false} DistinctCount(ps: seq<string>, x: string)
    requires forall a, b :: 0 <= a < b < |ps| ==> ps[a] != ps[b]
    ensures multiset(ps)[x] <= 1
  {
    if |ps| > 0 {
      var init := ps[..|ps| - 1];
      DistinctCount(init, x);
      assert ps == init + [ps[|ps| - 1]];
      if ps[|ps| - 1] == x {
        assert x !in init;
      }
    }
  }

  /** One step of the `reduce` over the parent groups. */
  function Combine(a: (string, seq<string>), b: (string, seq<string>)): (string, seq<string>)
  {
    (Join([a.0] + a.1 + ["", b.0] + b.1, "_"), [])
  }

  /** `reduce(Combine)` from the left; only called on a non-empty list. */
  function Reduce(entries: seq<(string, seq<string>)>): (string, seq<string>)
    requires |entries| > 0
  {
    if |entries| == 1 then entries[0] else Combine(Reduce(entries[..|entries| - 1]), entries[|entries| - 1])
  }

  /** The name part of the reduced groups; no group gives "". */
  function Label(entries: seq<(string, seq<string>)>): string
  {
    if |entries| == 0 then "" else Reduce(entries).0
  }

  /**
   * The pieces the name is joined from: the first parent and its suffixes, then for every
   * further parent an empty piece, the parent and its suffixes.
   */
  function Pieces(entries: seq<(string, seq<string>)>): seq<string>
    requires |entries| > 0
  {
    if |entries| == 1 then [entries[0].0] + entries[0].1
    else Pieces(entries[..|entries| - 1]) + (["", entries[|entries| - 1].0] + entries[|entries| - 1].1)
  }

  /**
   * With one parent the label is that parent alone (its members' suffixes are dropped);
   * with several it is all pieces joined by `_`.
   */
  lemma {:induction false} LabelPieces(entries: seq<(string, seq<string>)>)
    ensures |entries| == 1 ==> Label(entries) == entries[0].0
    ensures |entries| >= 2 ==> Label(entries) == Join(Pieces(entries), "_") && Reduce(entries).1 == []
  {
    if |entries| >= 2 {
      var init := entries[..|entries| - 1];
      var b := entries[|entries| - 1];
      var tail := ["", b.0] + b.1;
      var a := Reduce(init);
      assert Reduce(entries) == Combine(a, b);
      assert [a.0] + a.1 + ["", b.0] + b.1 == [a.0] + a.1 + tail;
      assert Pieces(entries) == Pieces(init) + tail;
      if |init| == 1 {
        assert a == init[0];
        assert [a.0] + a.1 == Pieces(init);
      } else {
        LabelPieces(init);
        assert [a.0] + a.1 + tail == [Join(Pieces(init), "_")] + tail;
        JoinConcat([Join(Pieces(init), "_")], tail, "_");
        JoinConcat(Pieces(init), tail, "_");
      }
    }
  }

  /** The first member without an outgoing edge in the component, if any. */
  function FirstTerminal(members: seq<Member>): (r: Option<nat>)
    ensures r.Some? ==> r.value < |members| && members[r.value].terminal
    ensures r.Some? ==> forall j :: 0 <= j < r.value ==> !members[j].terminal
    ensures r.None? ==> forall j :: 0 <= j < |members| ==> !members[j].terminal
  {
    if |members| == 0 then None
    else if members[0].terminal then Some(0)
    else match FirstTerminal(members[1..])
      case None => None
      case Some(k) => Some(k + 1)
  }

  /** The generated name of the hypernode with number `id`. */
  function StemName(id: nat, tag: string): string
  {
    HypernodeStem + NatToString(id) + "_" + tag
  }

  /**
   * The name of the hypernode of one hyperedge: with `keepName`, the name of the first
   * terminal member, failing when there is none or it has no name; otherwise the stem, the
   * hypernode's number and the label of the parent groups.
   */
  function TraceName(members: seq<Member>, id: nat, keepName: bool): Result<string>
  {
    if keepName then
      match FirstTerminal(members)
      case None => Err("Could not determine node to provide name for collapsed hypernode")
      case Some(k) =>
        if members[k].name.Some? then Ok(members[k].name.value)
        else Err("Could not determine name for resulting node.")
    else Ok(StemName(id, Label(Entries(members))))
  }

  /** Computes the hypernode's name from the parent groups. */
  method HypernodeName(members: seq<Member>, id: nat, keepName: bool) returns (r: Result<string>)
    ensures r == TraceName(members, id, keepName)
  {
    var parents, groups := GroupByParent(members);
    var keys := SortBy(parents, StringLe);
    SortByPermutes(parents, StringLe);
    forall i | 0 <= i < |keys| ensures keys[i] in groups {
      assert keys[i] in multiset(parents);
    }
    var entries := seq(|keys|, i requires 0 <= i < |keys| => (keys[i], groups[keys[i]]));
    GroupsAt(members, keys);
    assert entries == Entries(members);
    var tag := Label(entries);
    if keepName {
      var t := FirstTerminal(members);
      if t.None? {
        return Err("Could not determine node to provide name for collapsed hypernode");
      }
      var name := members[t.value].name;
      if name.None? {
        return Err("Could not determine name for resulting node.");
      }
      return Ok(name.value);
    }
    return Ok(StemName(id, tag));
  }

  /** A kept name is the name of the first terminal member; failure means there is no usable one. */
  lemma KeptName(members: seq<Member>, id: nat)
    ensures TraceName(members, id, true).Ok? <==>
      exists k :: 0 <= k < |members| && members[k].terminal && members[k].name.Some? && (forall j :: 0 <= j < k ==> !members[j].terminal)
    ensures TraceName(members, id, true).Ok? ==>
      exists k :: 0 <= k < |members| && members[k].terminal && members[k].name == Some(TraceName(members, id, true).value)
  {
    var t := FirstTerminal(members);
    if t.Some? {
      var k := t.value;
      forall k' | 0 <= k' < |members| && members[k'].terminal && (forall j :: 0 <= j < k' ==> !members[j].terminal)
        ensures k' == k
      {
      }
    }
  }

  /** Generated names never collide: distinct numbers give distinct names. */
  lemma StemNamesDistinct(id1: nat, id2: nat, tag1: string, tag2: string)
    requires id1 != id2
    ensures StemName(id1, tag1) != StemName(id2, tag2)
  {
    var d1 := NatToString(id1);
    var d2 := NatToString(id2);
    if StemName(id1, tag1) == StemName(id2, tag2) {
      var s := StemName(id1, tag1);
      assert s == HypernodeStem + (d1 + "_" + tag1);
      assert s == HypernodeStem + (d2 + "_" + tag2);
      assert s[|HypernodeStem|..] == d1 + "_" + tag1;
      assert s[|HypernodeStem|..] == d2 + "_" + tag2;
      DigitsPrefix(d1, d2, tag1, tag2);
      NatToStringInjective(id1, id2);
    }
  }

  /** A digit string followed by `_` is told apart from another only when they differ. */
  lemma DigitsPrefix(d1: string, d2: string, x1: string, x2: string)
    requires IsDigitString(d1) && IsDigitString(d2)
    requires d1 + "_" + x1 == d2 + "_" + x2
    ensures d1 == d2
  {
    var s := d1 + "_" + x1;
    assert forall i :: 0 <= i < |d1| ==> s[i] == d1[i];
    assert forall i :: 0 <= i < |d2| ==> s[i] == d2[i];
    assert s[|d1|] == '_' && s[|d2|] == '_';
    assert |d1| == |d2|;
    assert d1 == s[..|d1|] == d2;
  }

  // ---------------------------------------------------------------------------
  // Creating the hypernode and deleting its members
  // ---------------------------------------------------------------------------

  function MissingNameMessage(id: nat): string
  {
    "Node " + NatToString(id) + " has no node name or it cannot be retrieved, this can lead to an invalid result."
  }

  /**
   * The events for the first `k` members: the hypernode first, then the deletion of each
   * member by name, except the member whose name the hypernode keeps; a member without a
   * name is an error.
   */
  function NodeEvents(members: seq<Member>, trace: string, keepName: bool, k: nat): Result<seq<Event>>
    requires k <= |members|
  {
    if k == 0 then Ok([Node(trace)])
    else
      match NodeEvents(members, trace, keepName, k - 1)
      case Err(e) => Err(e)
      case Ok(evs) =>
        var m := members[k - 1];
        if m.name.None? then Err(MissingNameMessage(m.id))
        else if keepName && m.name.value == trace then Ok(evs)
        else Ok(evs + [DeleteNode(m.name.value)])
  }

  lemma {:induction false} NodeEventsErrSticks(members: seq<Member>, trace: string, keepName: bool, k: nat)
    requires k <= |members| && NodeEvents(members, trace, keepName, k).Err?
    ensures NodeEvents(members, trace, keepName, |members|).Err?
    decreases |members| - k
  {
    if k < |members| {
      NodeEventsErrSticks(members, trace, keepName, k + 1);
    }
  }

  /** The member-to-hypernode map after mapping every member to `trace`. */
  function Assign(hmap: map<nat, string>, members: seq<Member>, trace: string): map<nat, string>
  {
    if |members| == 0 then hmap
    else Assign(hmap, members[..|members| - 1], trace)[members[|members| - 1].id := trace]
  }

  /** After the assignment every member maps to `trace` and every other node keeps its entry. */
  lemma {:induction false} AssignLookup(hmap: map<nat, string>, members: seq<Member>, trace: string, x: nat)
    ensures x in Assign(hmap, members, trace) <==> x in hmap || exists j :: 0 <= j < |members| && members[j].id == x
    ensures (exists j :: 0 <= j < |members| && members[j].id == x) ==> Assign(hmap, members, trace)[x] == trace
    ensures x in hmap && (forall j :: 0 <= j < |members| ==> members[j].id != x) ==> Assign(hmap, members, trace)[x] == hmap[x]
  {
    if |members| > 0 {
      var init := members[..|members| - 1];
      AssignLookup(hmap, init, trace, x);
      assert forall j :: 0 <= j < |init| ==> init[j] == members[j];
    }
  }

  /**
   * Appends the hypernode and the member deletions, and maps every member to the
   * hypernode's name.
   */
  method AddHypernode(u: Update, members: seq<Member>, trace: string, keepName: bool, hmap: map<nat, string>)
    returns (r: Result<()>, hmap': map<nat, string>)
    modifies u
    ensures r.Ok? <==> NodeEvents(members, trace, keepName, |members|).Ok?
    ensures r.Ok? ==> u.events == old(u.events) + NodeEvents(members, trace, keepName, |members|).value
    ensures r.Ok? ==> hmap' == Assign(hmap, members, trace)
  {
    u.Add(Node(trace));
    hmap' := hmap;
    for k := 0 to |members|
      invariant NodeEvents(members, trace, keepName, k).Ok?
      invariant u.events == old(u.events) + NodeEvents(members, trace, keepName, k).value
      invariant hmap' == Assign(hmap, members[..k], trace)
    {
      var m := members[k];
      assert members[..k + 1][..k] == members[..k];
      hmap' := hmap'[m.id := trace];
      if m.name.None? {
        NodeEventsErrSticks(members, trace, keepName, k + 1);
        return Err(MissingNameMessage(m.id)), hmap';
      }
      if !(keepName && m.name.value == trace) {
        AppendAssoc(old(u.events), NodeEvents(members, trace, keepName, k).value, [DeleteNode(m.name.value)]);
        u.Add(DeleteNode(m.name.value));
      }
    }
    assert members[..|members|] == members;
    return Ok(()), hmap';
  }

  /**
   * The member deletions: every named member is deleted unless it gives the hypernode
   * its name, a kept name is never deleted, and only members' names are deleted; the
   * events fail exactly when some member has no name.
   */
  lemma {:induction false} NodeEventsContents(members: seq<Member>, trace: string, keepName: bool, k: nat)
    requires k <= |members|
    ensures NodeEvents(members, trace, keepName, k).Ok? <==> forall j :: 0 <= j < k ==> members[j].name.Some?
    ensures NodeEvents(members, trace, keepName, k).Ok? ==>
      var evs := NodeEvents(members, trace, keepName, k).value;
      && |evs| > 0 && evs[0] == Node(trace)
      && (forall j :: 0 <= j < k && !(keepName && members[j].name.value == trace) ==> DeleteNode(members[j].name.value) in evs)
      && (keepName ==> DeleteNode(trace) !in evs)
      && (forall x :: DeleteNode(x) in evs ==> exists j :: 0 <= j < k && members[j].name == Some(x))
  {
    if k > 0 {
      NodeEventsContents(members, trace, keepName, k - 1);
    }
  }

  // ---------------------------------------------------------------------------
  // Moving node annotations to the hypernode
  // ---------------------------------------------------------------------------

  const NodeNameAnno := AnnoKey(AnnisNs, NodeNameKey)

  /**
   * Whether an annotation moves to the hypernode: never the node name, and keys of the
   * `annis` namespace only from nodes without outgoing edges in the component.
   */
  predicate Transferable(key: AnnoKey, terminal: bool)
  {
    (key.ns != AnnisNs || terminal) && key != NodeNameAnno
  }

  /** The label events for the first `k` annotations of a member that pass the filter. */
  function Labels(annos: seq<(AnnoKey, string)>, toNode: string, terminal: bool, k: nat): seq<Event>
    requires k <= |annos|
  {
    if k == 0 then []
    else
      var (key, value) := annos[k - 1];
      Labels(annos, toNode, terminal, k - 1)
        + (if Transferable(key, terminal) then [AddNodeLabel(toNode, key.ns, key.name, value)] else [])
  }

  /** A label is emitted exactly for an annotation that passes the filter. */
  lemma {:induction false} LabelsContents(annos: seq<(AnnoKey, string)>, toNode: string, terminal: bool, k: nat)
    requires k <= |annos|
    ensures forall e :: e in Labels(annos, toNode, terminal, k) <==>
      exists j :: 0 <= j < k && Transferable(annos[j].0, terminal) && e == AddNodeLabel(toNode, annos[j].0.ns, annos[j].0.name, annos[j].1)
  {
    if k > 0 {
      LabelsContents(annos, toNode, terminal, k - 1);
    }
  }

  /**
   * The node name never moves to the hypernode, an `annis` annotation moves only from a
   * terminal node, and every annotation from any other namespace moves.
   */
  lemma TransferFilter(annos: seq<(AnnoKey, string)>, toNode: string, terminal: bool)
    ensures forall e :: e in Labels(annos, toNode, terminal, |annos|) ==> e.AddNodeLabel? && e.nodeName == toNode
    ensures forall e :: e in Labels(annos, toNode, terminal, |annos|) ==> AnnoKey(e.annoNs, e.annoName) != NodeNameAnno
    ensures !terminal ==> forall e :: e in Labels(annos, toNode, terminal, |annos|) ==> e.annoNs != AnnisNs
    ensures forall j :: 0 <= j < |annos| && annos[j].0.ns != AnnisNs ==>
      AddNodeLabel(toNode, annos[j].0.ns, annos[j].0.name, annos[j].1) in Labels(annos, toNode, terminal, |annos|)
  {
    LabelsContents(annos, toNode, terminal, |annos|);
  }

  const NamelessMessage := "Original node has no name. This is a severe error that originates somewhere in the graph model."

  /**
   * Moving one member's annotations to the hypernode `toNode`: the member is deleted and
   * its transferable annotations are added to the hypernode, unless the member is the
   * hypernode itself.
   */
  function Transfer(m: Member, toNode: string): Result<seq<Event>>
  {
    if m.name.None? then Err(NamelessMessage)
    else if toNode == m.name.value then Ok([])
    else Ok([DeleteNode(m.name.value)] + Labels(m.annos, toNode, m.terminal, |m.annos|))
  }

  method TransferNodeAnnos(u: Update, m: Member, toNode: string) returns (r: Result<()>)
    modifies u
    ensures r.Ok? <==> Transfer(m, toNode).Ok?
    ensures r.Ok? ==> u.events == old(u.events) + Transfer(m, toNode).value
    ensures r.Err? ==> u.events == old(u.events)
  {
    if m.name.None? {
      return Err(NamelessMessage);
    }
    var fromName := m.name.value;
    if toNode == fromName {
      return Ok(());
    }
    u.Add(DeleteNode(fromName));
    ghost var start := u.events;
    for k := 0 to |m.annos|
      invariant u.events == start + Labels(m.annos, toNode, m.terminal, k)
    {
      var (key, value) := m.annos[k];
      if Transferable(key, m.terminal) {
        AppendAssoc(start, Labels(m.annos, toNode, m.terminal, k), [AddNodeLabel(toNode, key.ns, key.name, value)]);
        u.Add(AddNodeLabel(toNode, key.ns, key.name, value));
      }
    }
    return Ok(());
  }

  /** The events of collapsing one hyperedge, member after member, for the first `k` members. */
  function Transfers(members: seq<Member>, toNode: string, k: nat): Result<seq<Event>>
    requires k <= |members|
  {
    if k == 0 then Ok([])
    else
      match Transfers(members, toNode, k - 1)
      case Err(e) => Err(e)
      case Ok(evs) =>
        match Transfer(members[k - 1], toNode)
        case Err(e) => Err(e)
        case Ok(more) => Ok(evs + more)
  }

  lemma {:induction false} TransfersErrSticks(members: seq<Member>, toNode: string, k: nat)
    requires k <= |members| && Transfers(members, toNode, k).Err?
    ensures Transfers(members, toNode, |members|).Err?
    decreases |members| - k
  {
    if k < |members| {
      TransfersErrSticks(members, toNode, k + 1);
    }
  }

  /**
   * Collapsing one hyperedge: the target is the hypernode of its last member; an empty
   * hyperedge and a member without a hypernode are errors.
   */
  function HyperedgeEvents(members: seq<Member>, hmap: map<nat, string>): Result<seq<Event>>
  {
    if |members| == 0 then Err("Encountered an empty hyperedge.")
    else if members[|members| - 1].id !in hmap then Err("Hypernode is unknown.")
    else Transfers(members, hmap[members[|members| - 1].id], |members|)
  }

  method CollapseHyperedge(u: Update, members: seq<Member>, hmap: map<nat, string>) returns (r: Result<()>)
    modifies u
    ensures r.Ok? <==> HyperedgeEvents(members, hmap).Ok?
    ensures r.Ok? ==> u.events == old(u.events) + HyperedgeEvents(members, hmap).value
  {
    if |members| == 0 {
      return Err("Encountered an empty hyperedge.");
    }
    var last := members[|members| - 1].id;
    if last !in hmap {
      return Err("Hypernode is unknown.");
    }
    var target := hmap[last];
    for k := 0 to |members|
      invariant Transfers(members, target, k).Ok?
      invariant u.events == old(u.events) + Transfers(members, target, k).value
    {
      var t := TransferNodeAnnos(u, members[k], target);
      if t.Err? {
        TransfersErrSticks(members, target, k + 1);
        return Err(t.msg);
      }
      AppendAssoc(old(u.events), Transfers(members, target, k).value, Transfer(members[k], target).value);
    }
    return Ok(());
  }

  // ---------------------------------------------------------------------------
  // The whole manipulator
  // ---------------------------------------------------------------------------

  /** How many existing node names contain the stem; generated numbers start after them. */
  function Offset(names: seq<string>): (r: nat)
    ensures r <= |names|
  {
    if |names| == 0 then 0
    else Offset(names[..|names| - 1]) + (if Find(names[|names| - 1], HypernodeStem).Some? then 1 else 0)
  }

  /** A generated name contains the stem, so a later run counts it in its offset. */
  lemma StemNameCounted(id: nat, tag: string)
    ensures Find(StemName(id, tag), HypernodeStem).Some?
  {
    assert OccursAt(StemName(id, tag), HypernodeStem, 0);
  }

  /**
   * The names of the first `k` hypernodes, the `id`-th one numbered `id + offset`; the
   * first hyperedge that cannot be named ends the run with its error.
   */
  function Names(hyperedges: seq<seq<Member>>, offset: nat, keepName: bool, k: nat): (r: Result<seq<string>>)
    requires k <= |hyperedges|
    ensures r.Ok? ==> |r.value| == k
  {
    if k == 0 then Ok([])
    else
      match Names(hyperedges, offset, keepName, k - 1)
      case Err(e) => Err(e)
      case Ok(prev) =>
        match TraceName(hyperedges[k - 1], k - 1 + offset, keepName)
        case Err(e) => Err(e)
        case Ok(t) => Ok(prev + [t])
  }

  /** Whether `traces` are the names of all the hypernodes. */
  predicate NamesOf(hyperedges: seq<seq<Member>>, offset: nat, keepName: bool, traces: seq<string>)
  {
    Names(hyperedges, offset, keepName, |hyperedges|) == Ok(traces)
  }

  /** Each name is the one of its own hyperedge and number. */
  lemma {:induction false} NamesAt(hyperedges: seq<seq<Member>>, offset: nat, keepName: bool, k: nat, i: nat)
    requires i < k <= |hyperedges| && Names(hyperedges, offset, keepName, k).Ok?
    ensures TraceName(hyperedges[i], i + offset, keepName) == Ok(Names(hyperedges, offset, keepName, k).value[i])
  {
    if i < k - 1 {
      NamesAt(hyperedges, offset, keepName, k - 1, i);
    }
  }

  /** The events of the naming phase for the first `k` hyperedges, given their names. */
  function Naming(hyperedges: seq<seq<Member>>, traces: seq<string>, keepName: bool, k: nat): Result<seq<Event>>
    requires k <= |hyperedges| && k <= |traces|
  {
    if k == 0 then Ok([])
    else
      match Naming(hyperedges, traces, keepName, k - 1)
      case Err(e) => Err(e)
      case Ok(prev) =>
        match NodeEvents(hyperedges[k - 1], traces[k - 1], keepName, |hyperedges[k - 1]|)
        case Err(e) => Err(e)
        case Ok(evs) => Ok(prev + evs)
  }

  /** The member-to-hypernode map after naming the first `k` hyperedges. */
  function HypernodeMap(hyperedges: seq<seq<Member>>, traces: seq<string>, k: nat): map<nat, string>
    requires k <= |hyperedges| && k <= |traces|
  {
    if k == 0 then map[] else Assign(HypernodeMap(hyperedges, traces, k - 1), hyperedges[k - 1], traces[k - 1])
  }

  lemma {:induction false} NamingErrSticks(hyperedges: seq<seq<Member>>, traces: seq<string>, keepName: bool, k: nat)
    requires k <= |hyperedges| == |traces| && Naming(hyperedges, traces, keepName, k).Err?
    ensures Naming(hyperedges, traces, keepName, |hyperedges|).Err?
    decreases |hyperedges| - k
  {
    if k < |hyperedges| {
      NamingErrSticks(hyperedges, traces, keepName, k + 1);
    }
  }

  /** The events of the joining phase for the first `k` hyperedges. */
  function Joining(hyperedges: seq<seq<Member>>, hmap: map<nat, string>, k: nat): Result<seq<Event>>
    requires k <= |hyperedges|
  {
    if k == 0 then Ok([])
    else
      match Joining(hyperedges, hmap, k - 1)
      case Err(e) => Err(e)
      case Ok(evs) =>
        match HyperedgeEvents(hyperedges[k - 1], hmap)
        case Err(e) => Err(e)
        case Ok(more) => Ok(evs + more)
  }

  lemma {:induction false} JoiningErrSticks(hyperedges: seq<seq<Member>>, hmap: map<nat, string>, k: nat)
    requires k <= |hyperedges| && Joining(hyperedges, hmap, k).Err?
    ensures Joining(hyperedges, hmap, |hyperedges|).Err?
    decreases |hyperedges| - k
  {
    if k < |hyperedges| {
      JoiningErrSticks(hyperedges, hmap, k + 1);
    }
  }

  /** Names one hyperedge, creates its hypernode and maps its members to it. */
  method NameOne(u: Update, members: seq<Member>, id: nat, keepName: bool, hmap: map<nat, string>)
    returns (r: Result<()>, hmap': map<nat, string>, ghost trace: string)
    modifies u
    ensures r.Ok? ==> TraceName(members, id, keepName) == Ok(trace)
    ensures r.Ok? ==> NodeEvents(members, trace, keepName, |members|).Ok?
    ensures r.Ok? ==> u.events == old(u.events) + NodeEvents(members, trace, keepName, |members|).value
    ensures r.Ok? ==> hmap' == Assign(hmap, members, trace)
  {
    var name := HypernodeName(members, id, keepName);
    if name.Err? {
      return Err(name.msg), hmap, "";
    }
    trace := name.value;
    r, hmap' := AddHypernode(u, members, name.value, keepName, hmap);
  }

  /** Names the hypernodes of a batch of hyperedges, filling the member-to-hypernode map. */
  method NameAll(u: Update, hyperedges: seq<seq<Member>>, offset: nat, keepName: bool)
    returns (r: Result<map<nat, string>>, ghost traces: seq<string>)
    modifies u
    ensures r.Ok? ==> NamesOf(hyperedges, offset, keepName, traces)
    ensures r.Ok? ==> Naming(hyperedges, traces, keepName, |hyperedges|).Ok?
    ensures r.Ok? ==> u.events == old(u.events) + Naming(hyperedges, traces, keepName, |hyperedges|).value
    ensures r.Ok? ==> r.value == HypernodeMap(hyperedges, traces, |hyperedges|)
  {
    traces := [];
    var hmap: map<nat, string> := map[];
    for id := 0 to |hyperedges|
      invariant |traces| == id
      invariant Names(hyperedges, offset, keepName, id).Ok? && Names(hyperedges, offset, keepName, id).value == traces
      invariant Naming(hyperedges, traces, keepName, id).Ok?
      invariant u.events == old(u.events) + Naming(hyperedges, traces, keepName, id).value
      invariant hmap == HypernodeMap(hyperedges, traces, id)
    {
      var added, hmap', trace := NameOne(u, hyperedges[id], id + offset, keepName, hmap);
      if added.Err? {
        return Err(added.msg), traces;
      }
      NamesStep(hyperedges, offset, keepName, traces, trace);
      NamingStep(hyperedges, keepName, traces, trace);
      AppendAssoc(old(u.events), Naming(hyperedges, traces, keepName, id).value, NodeEvents(hyperedges[id], trace, keepName, |hyperedges[id]|).value);
      traces := traces + [trace];
      hmap := hmap';
    }
    r := Ok(hmap);
  }

  /** Naming one more hyperedge extends the names. */
  lemma {:induction false} NamesStep(hyperedges: seq<seq<Member>>, offset: nat, keepName: bool, traces: seq<string>, trace: string)
    requires |traces| < |hyperedges| && Names(hyperedges, offset, keepName, |traces|).Ok?
    requires Names(hyperedges, offset, keepName, |traces|).value == traces
    requires TraceName(hyperedges[|traces|], |traces| + offset, keepName) == Ok(trace)
    ensures Names(hyperedges, offset, keepName, |traces| + 1).Ok?
    ensures Names(hyperedges, offset, keepName, |traces| + 1).value == traces + [trace]
  {
  }

  /** Naming one more hyperedge extends the events and the map. */
  lemma {:induction false} NamingStep(hyperedges: seq<seq<Member>>, keepName: bool, traces: seq<string>, trace: string)
    requires |traces| < |hyperedges|
    requires Naming(hyperedges, traces, keepName, |traces|).Ok?
    requires NodeEvents(hyperedges[|traces|], trace, keepName, |hyperedges[|traces|]|).Ok?
    ensures Naming(hyperedges, traces + [trace], keepName, |traces| + 1)
      == Ok(Naming(hyperedges, traces, keepName, |traces|).value + NodeEvents(hyperedges[|traces|], trace, keepName, |hyperedges[|traces|]|).value)
    ensures HypernodeMap(hyperedges, traces + [trace], |traces| + 1)
      == Assign(HypernodeMap(hyperedges, traces, |traces|), hyperedges[|traces|], trace)
  {
    NamingSame(hyperedges, traces + [trace], traces, keepName, |traces|);
  }

  /** The naming events of a prefix depend only on the names of that prefix. */
  lemma {:induction false} NamingSame(hyperedges: seq<seq<Member>>, ts1: seq<string>, ts2: seq<string>, keepName: bool, k: nat)
    requires k <= |hyperedges| && k <= |ts1| && k <= |ts2|
    requires ts1[..k] == ts2[..k]
    ensures Naming(hyperedges, ts1, keepName, k) == Naming(hyperedges, ts2, keepName, k)
    ensures HypernodeMap(hyperedges, ts1, k) == HypernodeMap(hyperedges, ts2, k)
  {
    if k > 0 {
      assert ts1[k - 1] == ts1[..k][k - 1] == ts2[k - 1];
      assert ts1[..k - 1] == ts1[..k][..k - 1];
      assert ts2[..k - 1] == ts2[..k][..k - 1];
      NamingSame(hyperedges, ts1, ts2, keepName, k - 1);
    }
  }

  /**
   * Runs the manipulator over the hyperedges the component yields: every hyperedge is
   * named and gets its hypernode first, then every hyperedge is joined into its hypernode.
   */
  method Collapse(u: Update, hyperedges: seq<seq<Member>>, offset: nat, keepName: bool)
    returns (r: Result<()>, ghost traces: seq<string>)
    modifies u
    ensures r.Ok? ==> NamesOf(hyperedges, offset, keepName, traces)
    ensures r.Ok? ==> Naming(hyperedges, traces, keepName, |hyperedges|).Ok?
    ensures r.Ok? ==> Joining(hyperedges, HypernodeMap(hyperedges, traces, |hyperedges|), |hyperedges|).Ok?
    ensures r.Ok? ==> u.events == old(u.events) + Naming(hyperedges, traces, keepName, |hyperedges|).value
                                 + Joining(hyperedges, HypernodeMap(hyperedges, traces, |hyperedges|), |hyperedges|).value
  {
    var named;
    named, traces := NameAll(u, hyperedges, offset, keepName);
    if named.Err? {
      return Err(named.msg), traces;
    }
    var hmap := named.value;
    ghost var mid := u.events;
    for k := 0 to |hyperedges|
      invariant Joining(hyperedges, hmap, k).Ok?
      invariant u.events == mid + Joining(hyperedges, hmap, k).value
    {
      var j := CollapseHyperedge(u, hyperedges[k], hmap);
      if j.Err? {
        return Err(j.msg), traces;
      }
      AppendAssoc(mid, Joining(hyperedges, hmap, k).value, HyperedgeEvents(hyperedges[k], hmap).value);
    }
    return Ok(()), traces;
  }

  /** A member of hyperedge `id` and of no later one is mapped to the name of hypernode `id`. */
  lemma {:induction false} HypernodeMapAt(hyperedges: seq<seq<Member>>, traces: seq<string>, k: nat, id: nat, j: nat)
    requires id < k <= |hyperedges| == |traces| && j < |hyperedges[id]|
    requires forall l, i :: id < l < k && 0 <= i < |hyperedges[l]| ==> hyperedges[l][i].id != hyperedges[id][j].id
    ensures hyperedges[id][j].id in HypernodeMap(hyperedges, traces, k)
    ensures HypernodeMap(hyperedges, traces, k)[hyperedges[id][j].id] == traces[id]
  {
    var x := hyperedges[id][j].id;
    AssignLookup(HypernodeMap(hyperedges, traces, k - 1), hyperedges[k - 1], traces[k - 1], x);
    if id < k - 1 {
      HypernodeMapAt(hyperedges, traces, k - 1, id, j);
    }
  }

  /** Without kept names, the names of a batch are generated from the numbers, so no two are equal. */
  lemma GeneratedNamesDistinct(hyperedges: seq<seq<Member>>, offset: nat, traces: seq<string>)
    requires NamesOf(hyperedges, offset, false, traces)
    ensures forall i, j :: 0 <= i < j < |traces| ==> traces[i] != traces[j]
  {
    forall i, j | 0 <= i < j < |traces| ensures traces[i] != traces[j] {
      NamesAt(hyperedges, offset, false, |hyperedges|, i);
      NamesAt(hyperedges, offset, false, |hyperedges|, j);
      StemNamesDistinct(i + offset, j + offset, Label(Entries(hyperedges[i])), Label(Entries(hyperedges[j])));
    }
  }
}
