/**
 * The merge manipulator's alignment of text nodes: the nodes of a kept ordering are walked
 * in order, and for each one every other ordering of the document offers its next node.
 * Nodes whose values match are merged into the kept node (their labels move over and they
 * are deleted); optional values may be skipped on either side; a mismatch of two required
 * values is merged anyway and marks the document as erroneous.
 *
 * The node annotations of the graph are given here as the items of each ordering: an id,
 * the node name, the value under the ordering's own name (if any) and all labels.
 */
module Merge {
  import opened Wrappers
  import opened Strings
  import opened Events

  // ---------------------------------------------------------------- error policy

  datatype ErrorPolicy = Fail | Drop | Forward

  function PolicyName(p: ErrorPolicy): string
  {
    match p
    case Fail => "fail"
    case Drop => "drop"
    case Forward => "forward"
  }

  /** `ErrorPolicy::try_from(&String)`: the trimmed, lower-cased value names the policy. */
  function ParsePolicy(value: string): Result<ErrorPolicy>
  {
    var v := ToLower(Trim(value));
    if v == "fail" then Ok(Fail)
    else if v == "drop" then Ok(Drop)
    else if v == "forward" then Ok(Forward)
    else Err("Undefined error policy: " + value)
  }

  /** `ErrorPolicy::try_from(Option<&String>)`: a missing value gives the default policy. */
  function ReadPolicy(value: Option<string>): Result<ErrorPolicy>
  {
    if value.None? then Ok(Fail) else ParsePolicy(value.value)
  }

  /** Parsing succeeds exactly for the three names, up to surrounding whitespace and case. */
  lemma ParsePolicyIff(value: string)
    ensures ParsePolicy(value).Ok? <==> ToLower(Trim(value)) in {"fail", "drop", "forward"}
    ensures ParsePolicy(value).Ok? ==> PolicyName(ParsePolicy(value).value) == ToLower(Trim(value))
  {
  }

  /** The default is Fail; every policy's own name parses back to it. */
  lemma ReadPolicyNames(p: ErrorPolicy)
    ensures ReadPolicy(None) == Ok(Fail)
    ensures ReadPolicy(Some(PolicyName(p))) == Ok(p)
  {
    var n := PolicyName(p);
    assert !IsSpace(n[0]) && !IsSpace(n[|n| - 1]);
    TrimNothing(n);
    LowerNothing(n);
  }

  lemma TrimNothing(s: string)
    requires |s| > 0 && !IsSpace(s[0]) && !IsSpace(s[|s| - 1])
    ensures Trim(s) == s
  {
  }

  lemma LowerNothing(s: string)
    requires forall i :: 0 <= i < |s| ==> !('A' <= s[i] <= 'Z')
    ensures ToLower(s) == s
  {
  }

  // ---------------------------------------------------------------- value cleaning

  /** The value without the characters of `remove`, the others kept in order. */
  function Cleaned(value: string, remove: set<char>): string
  {
    if value == [] then []
    else Cleaned(value[..|value| - 1], remove) + (if value[|value| - 1] in remove then [] else [value[|value| - 1]])
  }

  /** `clean_value`: the loop that copies every character not in the set. */
  method CleanValue(value: string, remove: set<char>) returns (r: string)
    ensures r == Cleaned(value, remove)
  {
    r := "";
    for i := 0 to |value|
      invariant r == Cleaned(value[..i], remove)
    {
      assert value[..i + 1][..i] == value[..i];
      if value[i] !in remove {
        r := r + [value[i]];
      }
    }
    assert value[..|value|] == value;
  }

  /** A character survives cleaning exactly when it occurs and is not removed. */
  lemma {:induction false} CleanedMembers(value: string, remove: set<char>, c: char)
    ensures c in Cleaned(value, remove) <==> c in value && c !in remove
  {
    if value != [] {
      var init := value[..|value| - 1];
      CleanedMembers(init, remove, c);
      assert value == init + [value[|value| - 1]];
    }
  }

  /** Cleaning works piece by piece, so it keeps the order of the surviving characters. */
  lemma {:induction false} CleanedAppend(a: string, b: string, remove: set<char>)
    ensures Cleaned(a + b, remove) == Cleaned(a, remove) + Cleaned(b, remove)
    decreases |b|
  {
    if b == [] {
      assert a + b == a;
    } else {
      var init := b[..|b| - 1];
      CleanedAppend(a, init, remove);
      assert (a + b)[..|a + b| - 1] == a + init;
    }
  }

  /** A value without removable characters is its own cleaning; cleaning twice is cleaning once. */
  lemma {:induction false} CleanedUntouched(value: string, remove: set<char>)
    requires forall i :: 0 <= i < |value| ==> value[i] !in remove
    ensures Cleaned(value, remove) == value
  {
    if value != [] {
      var init := value[..|value| - 1];
      assert forall i :: 0 <= i < |init| ==> init[i] == value[i];
      CleanedUntouched(init, remove);
      assert value[|value| - 1] !in remove;
      assert value == init + [value[|value| - 1]];
    }
  }

  lemma {:induction false} CleanedIdempotent(value: string, remove: set<char>)
    ensures Cleaned(Cleaned(value, remove), remove) == Cleaned(value, remove)
  {
    var r := Cleaned(value, remove);
    forall i | 0 <= i < |r|
      ensures r[i] !in remove
    {
      assert r[i] in r;
      CleanedMembers(value, remove, r[i]);
    }
    CleanedUntouched(r, remove);
  }

  // ---------------------------------------------------------------- the match rule

  /** Two values match if equal, or, when there are optional characters, equal once they are removed. */
  predicate ValuesMatch(a: string, b: string, optionalChars: set<char>)
  {
    a == b || (optionalChars != {} && Cleaned(a, optionalChars) == Cleaned(b, optionalChars))
  }

  /** Without optional characters only equal values match; with them, exactly the values equal after cleaning. */
  lemma ValuesMatchIff(a: string, b: string, optionalChars: set<char>)
    ensures optionalChars == {} ==> (ValuesMatch(a, b, optionalChars) <==> a == b)
    ensures optionalChars != {} ==> (ValuesMatch(a, b, optionalChars) <==> Cleaned(a, optionalChars) == Cleaned(b, optionalChars))
  {
  }

  datatype Config = Config(optionalChars: set<char>, optionals: set<string>, reporting: bool, targetNs: string, targetName: string)

  /** The error for a kept node without the target annotation. */
  function NoValueMsg(cfg: Config, nodeName: string): string
  {
    "Could not determine annotation value for key " + cfg.targetNs + "::" + cfg.targetName + " @ " + nodeName
  }

  /** What happens with the next node of another ordering. */
  datatype Decision =
    | Merged        // the values match: merge and go on with both orderings
    | KeepOther     // only the kept value is optional: hold the other node for the next kept node
    | SkipOther     // only the other value is optional: drop it and look at the next one
    | Mismatch      // neither is optional: merge anyway and flag the document
    | SkipBoth      // both optional and different: go on with both

  function Decide(refVal: string, otherVal: string, cfg: Config): Decision
  {
    var refOpt := refVal in cfg.optionals;
    var otherOpt := otherVal in cfg.optionals;
    if ValuesMatch(refVal, otherVal, cfg.optionalChars) then Merged
    else if refOpt && !otherOpt then KeepOther
    else if !refOpt && otherOpt then SkipOther
    else if !refOpt && !otherOpt then Mismatch
    else SkipBoth
  }

  /** The decisions partition the cases: matching values are merged and every kind of mismatch has its own answer. */
  lemma DecideCases(refVal: string, otherVal: string, cfg: Config)
    ensures (Decide(refVal, otherVal, cfg) == Merged) <==> ValuesMatch(refVal, otherVal, cfg.optionalChars)
    ensures (Decide(refVal, otherVal, cfg) == KeepOther) <==>
      !ValuesMatch(refVal, otherVal, cfg.optionalChars) && refVal in cfg.optionals && otherVal !in cfg.optionals
    ensures (Decide(refVal, otherVal, cfg) == SkipOther) <==>
      !ValuesMatch(refVal, otherVal, cfg.optionalChars) && refVal !in cfg.optionals && otherVal in cfg.optionals
    ensures (Decide(refVal, otherVal, cfg) == Mismatch) <==>
      !ValuesMatch(refVal, otherVal, cfg.optionalChars) && refVal !in cfg.optionals && otherVal !in cfg.optionals
  {
  }

  // ---------------------------------------------------------------- items and cursors

  datatype Label = Label(ns: string, name: string, value: string)

  /** A node of an ordering: its id, its name, its value under the ordering's name, and all its labels. */
  datatype Item = Item(id: nat, nodeName: string, value: Option<string>, labels: seq<Label>)

  /** Every node carries its value under the ordering's name. */
  predicate Valued(items: seq<Item>)
  {
    forall k :: 0 <= k < |items| ==> items[k].value.Some?
  }

  /** The position in one other ordering, and a node held back for the next kept node. */
  datatype Cursor = Cursor(pos: nat, unused: Option<Item>)

  predicate CursorOk(items: seq<Item>, c: Cursor)
  {
    c.pos <= |items| && (c.unused.Some? ==> c.unused.value.value.Some?)
  }

  function Pending(items: seq<Item>, c: Cursor): nat
    requires c.pos <= |items|
  {
    |items| - c.pos + (if c.unused.Some? then 1 else 0)
  }

  /**
   * The result of aligning one kept node with one other ordering; `missing` says that the
   * offered node had no value, on which the source's `unwrap` panics.
   */
  datatype Outcome = Outcome(cursor: Cursor, events: seq<Event>, mapped: Option<nat>, flag: bool, missing: bool)

  /** The panic message of `unwrap` on nothing. */
  const UnwrapNone := "called `Option::unwrap()` on a `None` value"

  /** The labels of a merged node that move to the kept node: all but annis labels and those named after an ordering. */
  function Transfer(refName: string, labels: seq<Label>, orderNames: set<string>): seq<Event>
  {
    if labels == [] then []
    else
      var l := labels[|labels| - 1];
      Transfer(refName, labels[..|labels| - 1], orderNames)
      + (if l.ns != AnnisNs && l.name !in orderNames then [AddNodeLabel(refName, l.ns, l.name, l.value)] else [])
  }

  /**
   * The inner `while !finished` loop: the other ordering offers its held-back node or its next
   * one until a decision other than skipping it is reached, or the ordering runs out.
   */
  function Inner(cfg: Config, orderNames: set<string>, ref: Item, refVal: string, items: seq<Item>, c: Cursor): (o: Outcome)
    requires CursorOk(items, c)
    ensures CursorOk(items, o.cursor)
    decreases Pending(items, c)
  {
    var next := if c.unused.Some? then c.unused else if c.pos < |items| then Some(items[c.pos]) else None;
    var after := Cursor(if c.unused.Some? || c.pos == |items| then c.pos else c.pos + 1, None);
    if next.None? then Outcome(c, [], None, refVal !in cfg.optionals && cfg.reporting, false)
    else
      var other := next.value;
      if other.value.None? then Outcome(after, [], None, false, true)
      else
        match Decide(refVal, other.value.value, cfg)
        case Merged => Outcome(after, Transfer(ref.nodeName, other.labels, orderNames) + [DeleteNode(other.nodeName)], Some(other.id), false, false)
        case KeepOther => Outcome(Cursor(after.pos, Some(other)), [], None, false, false)
        case SkipOther => Inner(cfg, orderNames, ref, refVal, items, after)
        case Mismatch => Outcome(after, [], Some(other.id), true, false)
        case SkipBoth => Outcome(after, [], None, false, false)
  }

  /** The node an outcome merges is the held-back node or one of the nodes the cursor passed over. */
  lemma {:induction false} InnerMapsOffered(cfg: Config, orderNames: set<string>, ref: Item, refVal: string, items: seq<Item>, c: Cursor)
    requires CursorOk(items, c)
    ensures var o := Inner(cfg, orderNames, ref, refVal, items, c);
      o.mapped.Some? ==>
        (c.unused.Some? && o.mapped.value == c.unused.value.id) ||
        (exists k :: c.pos <= k < o.cursor.pos && items[k].id == o.mapped.value)
    ensures c.pos <= Inner(cfg, orderNames, ref, refVal, items, c).cursor.pos
    decreases Pending(items, c)
  {
    var after := Cursor(if c.unused.Some? || c.pos == |items| then c.pos else c.pos + 1, None);
    var next := if c.unused.Some? then c.unused else if c.pos < |items| then Some(items[c.pos]) else None;
    if next.Some? && next.value.value.Some? && Decide(refVal, next.value.value.value, cfg) == SkipOther {
      InnerMapsOffered(cfg, orderNames, ref, refVal, items, after);
    }
  }

  /** Events come only from a merge: the moved labels and then the deletion of the merged node. */
  lemma {:induction false} InnerEvents(cfg: Config, orderNames: set<string>, ref: Item, refVal: string, items: seq<Item>, c: Cursor)
    requires CursorOk(items, c)
    ensures var o := Inner(cfg, orderNames, ref, refVal, items, c);
      o.events != [] ==> o.mapped.Some? && o.events[|o.events| - 1].DeleteNode? && !o.flag && !o.missing
    decreases Pending(items, c)
  {
    var after := Cursor(if c.unused.Some? || c.pos == |items| then c.pos else c.pos + 1, None);
    var next := if c.unused.Some? then c.unused else if c.pos < |items| then Some(items[c.pos]) else None;
    if next.Some? && next.value.value.Some? && Decide(refVal, next.value.value.value, cfg) == SkipOther {
      InnerEvents(cfg, orderNames, ref, refVal, items, after);
    }
  }

  /** An optional kept value never raises the flag; a required one does on a mismatch, or on running out while reporting. */
  lemma {:induction false} InnerFlag(cfg: Config, orderNames: set<string>, ref: Item, refVal: string, items: seq<Item>, c: Cursor)
    requires CursorOk(items, c)
    ensures refVal in cfg.optionals ==> !Inner(cfg, orderNames, ref, refVal, items, c).flag
    ensures refVal !in cfg.optionals && cfg.reporting && c.unused.None? && c.pos == |items| ==>
      Inner(cfg, orderNames, ref, refVal, items, c).flag
    decreases Pending(items, c)
  {
    var after := Cursor(if c.unused.Some? || c.pos == |items| then c.pos else c.pos + 1, None);
    var next := if c.unused.Some? then c.unused else if c.pos < |items| then Some(items[c.pos]) else None;
    if next.Some? && next.value.value.Some? && Decide(refVal, next.value.value.value, cfg) == SkipOther {
      InnerFlag(cfg, orderNames, ref, refVal, items, after);
    }
  }

  /**
   * A node without the ordering's value ends the alignment with nothing emitted or mapped; it
   * lies among the nodes not yet passed, and an ordering whose nodes all have values never ends so.
   */
  lemma {:induction false} InnerMissing(cfg: Config, orderNames: set<string>, ref: Item, refVal: string, items: seq<Item>, c: Cursor)
    requires CursorOk(items, c)
    ensures var o := Inner(cfg, orderNames, ref, refVal, items, c);
      o.missing ==> o.events == [] && o.mapped.None? && exists k :: c.pos <= k < |items| && items[k].value.None?
    ensures Valued(items) ==> !Inner(cfg, orderNames, ref, refVal, items, c).missing
    ensures c.unused.None? && c.pos < |items| && items[c.pos].value.None? ==> Inner(cfg, orderNames, ref, refVal, items, c).missing
    decreases Pending(items, c)
  {
    var after := Cursor(if c.unused.Some? || c.pos == |items| then c.pos else c.pos + 1, None);
    var next := if c.unused.Some? then c.unused else if c.pos < |items| then Some(items[c.pos]) else None;
    if next.Some? && next.value.value.Some? && Decide(refVal, next.value.value.value, cfg) == SkipOther {
      InnerMissing(cfg, orderNames, ref, refVal, items, after);
    }
  }

  /** An optional kept value that meets a required, different value holds that node back for the next kept node. */
  lemma InnerKeepsOther(cfg: Config, orderNames: set<string>, ref: Item, refVal: string, items: seq<Item>, c: Cursor)
    requires CursorOk(items, c) && c.unused.None? && c.pos < |items| && items[c.pos].value.Some?
    requires Decide(refVal, items[c.pos].value.value, cfg) == KeepOther
    ensures Inner(cfg, orderNames, ref, refVal, items, c).cursor == Cursor(c.pos + 1, Some(items[c.pos]))
    ensures Inner(cfg, orderNames, ref, refVal, items, c).mapped.None?
  {
  }

  /** Equal values are always merged, whatever is optional. */
  lemma InnerMergesEqual(cfg: Config, orderNames: set<string>, ref: Item, items: seq<Item>, c: Cursor)
    requires CursorOk(items, c) && c.unused.None? && c.pos < |items| && items[c.pos].value.Some?
    ensures var o := Inner(cfg, orderNames, ref, items[c.pos].value.value, items, c);
      o.mapped == Some(items[c.pos].id) && o.cursor == Cursor(c.pos + 1, None) &&
      o.events == Transfer(ref.nodeName, items[c.pos].labels, orderNames) + [DeleteNode(items[c.pos].nodeName)]
  {
  }

  // ---------------------------------------------------------------- the emitting loops

  /** Appends the labels that move from a merged node to the kept node. */
  method TransferLabels(u: Update, refName: string, labels: seq<Label>, orderNames: set<string>)
    modifies u
    ensures u.events == old(u.events) + Transfer(refName, labels, orderNames)
  {
    for i := 0 to |labels|
      invariant u.events == old(u.events) + Transfer(refName, labels[..i], orderNames)
    {
      assert labels[..i + 1][..i] == labels[..i];
      var l := labels[i];
      if l.ns != AnnisNs && l.name !in orderNames {
        u.Add(AddNodeLabel(refName, l.ns, l.name, l.value));
      }
    }
    assert labels[..|labels|] == labels;
  }

  /** The match test of the inner loop, cleaning both values only when there are optional characters. */
  method Matches(a: string, b: string, optionalChars: set<char>) returns (m: bool)
    ensures m == ValuesMatch(a, b, optionalChars)
  {
    m := a == b;
    if !m && optionalChars != {} {
      var ca := CleanValue(a, optionalChars);
      var cb := CleanValue(b, optionalChars);
      m := ca == cb;
    }
  }

  /** One round of the inner loop, as the function reads it, when the offered node is skipped. */
  lemma InnerSkip(cfg: Config, orderNames: set<string>, ref: Item, refVal: string, items: seq<Item>, c: Cursor, after: Cursor)
    requires CursorOk(items, c)
    requires c.unused.Some? || c.pos < |items|
    requires after == Cursor(if c.unused.Some? then c.pos else c.pos + 1, None)
    requires var other := if c.unused.Some? then c.unused.value else items[c.pos];
      other.value.Some? && Decide(refVal, other.value.value, cfg) == SkipOther
    ensures Inner(cfg, orderNames, ref, refVal, items, c) == Inner(cfg, orderNames, ref, refVal, items, after)
  {
  }

  /** The inner `while !finished` loop for one kept node and one other ordering. */
  method AlignOne(u: Update, cfg: Config, orderNames: set<string>, ref: Item, refVal: string, items: seq<Item>, c0: Cursor)
    returns (c: Cursor, mapped: Option<nat>, flag: bool, missing: bool)
    requires CursorOk(items, c0)
    modifies u
    ensures missing == Inner(cfg, orderNames, ref, refVal, items, c0).missing
    ensures c == Inner(cfg, orderNames, ref, refVal, items, c0).cursor
    ensures mapped == Inner(cfg, orderNames, ref, refVal, items, c0).mapped
    ensures flag == Inner(cfg, orderNames, ref, refVal, items, c0).flag
    ensures u.events == old(u.events) + Inner(cfg, orderNames, ref, refVal, items, c0).events
  {
    ghost var goal := Inner(cfg, orderNames, ref, refVal, items, c0);
    var refOpt := refVal in cfg.optionals;
    c := c0;
    mapped := None;
    flag := false;
    missing := false;
    var finished := false;
    while !finished
      invariant CursorOk(items, c)
      invariant !finished ==> Inner(cfg, orderNames, ref, refVal, items, c) == goal && u.events == old(u.events)
      invariant !finished ==> mapped.None? && !flag && !missing
      invariant finished ==> c == goal.cursor && mapped == goal.mapped && flag == goal.flag && missing == goal.missing
      invariant finished ==> u.events == old(u.events) + goal.events
      decreases if finished then 0 else Pending(items, c) + 1
    {
      ghost var before := c;
      var other: Option<Item> := None;
      if c.unused.Some? {
        other := c.unused;
        c := Cursor(c.pos, None);
      } else if c.pos < |items| {
        other := Some(items[c.pos]);
        c := Cursor(c.pos + 1, None);
      }
      if other.None? {
        flag := !refOpt && cfg.reporting;
        finished := true;
      } else if other.value.value.None? {
        missing := true;
        finished := true;
      } else {
        var o := other.value;
        var otherVal := o.value.value;
        var m := Matches(refVal, otherVal, cfg.optionalChars);
        var otherOpt := otherVal in cfg.optionals;
        if m {
          TransferLabels(u, ref.nodeName, o.labels, orderNames);
          u.Add(DeleteNode(o.nodeName));
          mapped := Some(o.id);
          finished := true;
        } else if refOpt && !otherOpt {
          c := Cursor(c.pos, Some(o));
          finished := true;
        } else if !refOpt && otherOpt {
          InnerSkip(cfg, orderNames, ref, refVal, items, before, c);
        } else if !refOpt && !otherOpt {
          mapped := Some(o.id);
          flag := true;
          finished := true;
        } else {
          finished := true;
        }
      }
    }
  }

  // ---------------------------------------------------------------- one kept node against all other orderings

  predicate CursorsOk(others: seq<seq<Item>>, cursors: seq<Cursor>)
  {
    |cursors| == |others| && forall k :: 0 <= k < |others| ==> CursorOk(others[k], cursors[k])
  }

  /**
   * The alignment state of a document: a cursor per other ordering, the events, the node map,
   * the error flag, and whether an `unwrap` on a missing value has ended the alignment.
   */
  datatype State = State(cursors: seq<Cursor>, events: seq<Event>, nodeMap: map<nat, nat>, flagged: bool, failed: bool)

  /** The middle loop over the other orderings' names, for one kept node: the first j orderings. */
  function Names(cfg: Config, orderNames: set<string>, ref: Item, refVal: string, others: seq<seq<Item>>, st: State, j: nat): (r: State)
    requires j <= |others| && CursorsOk(others, st.cursors)
    ensures CursorsOk(others, r.cursors)
  {
    if j == 0 then st
    else
      var s := Names(cfg, orderNames, ref, refVal, others, st, j - 1);
      if s.failed then s
      else
        var o := Inner(cfg, orderNames, ref, refVal, others[j - 1], s.cursors[j - 1]);
        if o.missing then s.(failed := true)
        else
          State(s.cursors[j - 1 := o.cursor], s.events + o.events,
                if o.mapped.Some? then s.nodeMap[o.mapped.value := ref.id] else s.nodeMap, s.flagged || o.flag, false)
  }

  /** Once an `unwrap` has failed, the middle loop stays failed. */
  lemma {:induction false} NamesFailSticks(cfg: Config, orderNames: set<string>, ref: Item, refVal: string, others: seq<seq<Item>>, st: State, j: nat, n: nat)
    requires j <= n <= |others| && CursorsOk(others, st.cursors)
    requires Names(cfg, orderNames, ref, refVal, others, st, j).failed
    ensures Names(cfg, orderNames, ref, refVal, others, st, n).failed
    decreases n
  {
    if n > j {
      NamesFailSticks(cfg, orderNames, ref, refVal, others, st, j, n - 1);
    }
  }

  /** When every node of the other orderings has its value, the middle loop never fails. */
  lemma {:induction false} NamesValued(cfg: Config, orderNames: set<string>, ref: Item, refVal: string, others: seq<seq<Item>>, st: State, j: nat)
    requires j <= |others| && CursorsOk(others, st.cursors) && !st.failed
    requires forall k :: 0 <= k < |others| ==> Valued(others[k])
    ensures !Names(cfg, orderNames, ref, refVal, others, st, j).failed
  {
    if j > 0 {
      NamesValued(cfg, orderNames, ref, refVal, others, st, j - 1);
      var s := Names(cfg, orderNames, ref, refVal, others, st, j - 1);
      InnerMissing(cfg, orderNames, ref, refVal, others[j - 1], s.cursors[j - 1]);
    }
  }

  /** The kept node's id is the only value the middle loop adds to the node map. */
  lemma {:induction false} NamesMapToRef(cfg: Config, orderNames: set<string>, ref: Item, refVal: string, others: seq<seq<Item>>, st: State, j: nat)
    requires j <= |others| && CursorsOk(others, st.cursors)
    ensures var r := Names(cfg, orderNames, ref, refVal, others, st, j);
      forall k :: k in r.nodeMap ==> (k in st.nodeMap && r.nodeMap[k] == st.nodeMap[k]) || r.nodeMap[k] == ref.id
  {
    if j > 0 {
      NamesMapToRef(cfg, orderNames, ref, refVal, others, st, j - 1);
    }
  }

  /** The flag, once raised, stays raised. */
  lemma {:induction false} NamesKeepFlag(cfg: Config, orderNames: set<string>, ref: Item, refVal: string, others: seq<seq<Item>>, st: State, j: nat)
    requires j <= |others| && CursorsOk(others, st.cursors) && st.flagged
    ensures Names(cfg, orderNames, ref, refVal, others, st, j).flagged
  {
    if j > 0 {
      NamesKeepFlag(cfg, orderNames, ref, refVal, others, st, j - 1);
    }
  }

  lemma NamesNext(cfg: Config, orderNames: set<string>, ref: Item, refVal: string, others: seq<seq<Item>>, st: State, j: nat)
    requires j < |others| && CursorsOk(others, st.cursors)
    ensures var s := Names(cfg, orderNames, ref, refVal, others, st, j);
      var o := Inner(cfg, orderNames, ref, refVal, others[j], s.cursors[j]);
      var r := Names(cfg, orderNames, ref, refVal, others, st, j + 1);
      !s.failed ==> r.failed == o.missing
    ensures var s := Names(cfg, orderNames, ref, refVal, others, st, j);
      var o := Inner(cfg, orderNames, ref, refVal, others[j], s.cursors[j]);
      var r := Names(cfg, orderNames, ref, refVal, others, st, j + 1);
      !s.failed && !o.missing ==>
      r.cursors == s.cursors[j := o.cursor] && r.events == s.events + o.events && r.flagged == (s.flagged || o.flag) &&
      r.nodeMap == if o.mapped.Some? then s.nodeMap[o.mapped.value := ref.id] else s.nodeMap
  {
  }

  /** The middle loop for one kept node; events go to `u`, the rest of the state is returned. */
  method AlignRef(u: Update, cfg: Config, orderNames: set<string>, ref: Item, refVal: string, others: seq<seq<Item>>,
                  cursors0: seq<Cursor>, nodeMap0: map<nat, nat>, flagged0: bool)
    returns (cursors: seq<Cursor>, nodeMap: map<nat, nat>, flagged: bool, failed: bool)
    requires CursorsOk(others, cursors0)
    modifies u
    ensures failed == Names(cfg, orderNames, ref, refVal, others, State(cursors0, [], nodeMap0, flagged0, false), |others|).failed
    ensures var r := Names(cfg, orderNames, ref, refVal, others, State(cursors0, [], nodeMap0, flagged0, false), |others|);
      !failed ==> cursors == r.cursors && nodeMap == r.nodeMap && flagged == r.flagged && u.events == old(u.events) + r.events
  {
    ghost var st := State(cursors0, [], nodeMap0, flagged0, false);
    cursors, nodeMap, flagged, failed := cursors0, nodeMap0, flagged0, false;
    for j := 0 to |others|
      invariant var r := Names(cfg, orderNames, ref, refVal, others, st, j);
        !r.failed && cursors == r.cursors && nodeMap == r.nodeMap && flagged == r.flagged && u.events == old(u.events) + r.events
    {
      ghost var s := Names(cfg, orderNames, ref, refVal, others, st, j);
      NamesNext(cfg, orderNames, ref, refVal, others, st, j);
      ghost var o := Inner(cfg, orderNames, ref, refVal, others[j], s.cursors[j]);
      var c, mapped, flag, missing := AlignOne(u, cfg, orderNames, ref, refVal, others[j], cursors[j]);
      if missing {
        NamesFailSticks(cfg, orderNames, ref, refVal, others, st, j + 1, |others|);
        return cursors, nodeMap, flagged, true;
      }
      AppendAssoc(old(u.events), s.events, o.events);
      cursors := cursors[j := c];
      if mapped.Some? {
        nodeMap := nodeMap[mapped.value := ref.id];
      }
      flagged := flagged || flag;
    }
  }

  // ---------------------------------------------------------------- one document

  /** The outer loop over the kept nodes: the first i of them; a kept node without a value is an error. */
  function Refs(cfg: Config, orderNames: set<string>, keep: seq<Item>, others: seq<seq<Item>>, st: State, i: nat): (r: Result<State>)
    requires i <= |keep| && CursorsOk(others, st.cursors)
    ensures r.Ok? ==> CursorsOk(others, r.value.cursors)
    ensures r.Ok? && i > 0 ==> !r.value.failed
  {
    if i == 0 then Ok(st)
    else
      var s := Refs(cfg, orderNames, keep, others, st, i - 1);
      if s.Err? then s
      else if keep[i - 1].value.None? then Err(NoValueMsg(cfg, keep[i - 1].nodeName))
      else
        var n := Names(cfg, orderNames, keep[i - 1], keep[i - 1].value.value, others, s.value, |others|);
        if n.failed then Err(UnwrapNone) else Ok(n)
  }

  /** Once the outer loop fails, it stays failed. */
  lemma {:induction false} RefsErrSticks(cfg: Config, orderNames: set<string>, keep: seq<Item>, others: seq<seq<Item>>, st: State, i: nat, n: nat)
    requires i <= n <= |keep| && CursorsOk(others, st.cursors)
    requires Refs(cfg, orderNames, keep, others, st, i).Err?
    ensures Refs(cfg, orderNames, keep, others, st, n).Err?
    decreases n
  {
    if n > i {
      RefsErrSticks(cfg, orderNames, keep, others, st, i, n - 1);
    }
  }

  predicate NoValueUpTo(keep: seq<Item>, i: nat)
    requires i <= |keep|
  {
    exists k :: 0 <= k < i && keep[k].value.None?
  }

  /**
   * A kept node without a value fails the alignment; when every node of the other orderings
   * has its value, that is the only way it fails.
   */
  lemma {:induction false} RefsErr(cfg: Config, orderNames: set<string>, keep: seq<Item>, others: seq<seq<Item>>, st: State, i: nat)
    requires i <= |keep| && CursorsOk(others, st.cursors)
    ensures NoValueUpTo(keep, i) ==> Refs(cfg, orderNames, keep, others, st, i).Err?
    ensures (forall k :: 0 <= k < |others| ==> Valued(others[k])) && !st.failed ==>
      (Refs(cfg, orderNames, keep, others, st, i).Err? <==> NoValueUpTo(keep, i))
  {
    if i > 0 {
      RefsErr(cfg, orderNames, keep, others, st, i - 1);
      var s := Refs(cfg, orderNames, keep, others, st, i - 1);
      if s.Ok? && keep[i - 1].value.Some? && (forall k :: 0 <= k < |others| ==> Valued(others[k])) && !st.failed {
        assert i - 1 > 0 ==> !s.value.failed;
        NamesValued(cfg, orderNames, keep[i - 1], keep[i - 1].value.value, others, s.value, |others|);
      }
      if NoValueUpTo(keep, i - 1) {
        var k :| 0 <= k < i - 1 && keep[k].value.None?;
        assert 0 <= k < i && keep[k].value.None?;
      }
      if NoValueUpTo(keep, i) && !NoValueUpTo(keep, i - 1) {
        var k :| 0 <= k < i && keep[k].value.None?;
        assert k == i - 1;
      }
    }
  }

  /** Every node mapped while aligning a document is mapped to one of its kept nodes (or was mapped before). */
  lemma {:induction false} RefsMapToKept(cfg: Config, orderNames: set<string>, keep: seq<Item>, others: seq<seq<Item>>, st: State, i: nat)
    requires i <= |keep| && CursorsOk(others, st.cursors)
    ensures var r := Refs(cfg, orderNames, keep, others, st, i);
      r.Ok? ==> forall k :: k in r.value.nodeMap ==>
        (k in st.nodeMap && r.value.nodeMap[k] == st.nodeMap[k]) || exists m :: 0 <= m < i && r.value.nodeMap[k] == keep[m].id
  {
    if i > 0 {
      RefsMapToKept(cfg, orderNames, keep, others, st, i - 1);
      var s := Refs(cfg, orderNames, keep, others, st, i - 1);
      var r0 := Refs(cfg, orderNames, keep, others, st, i);
      if s.Ok? && keep[i - 1].value.Some? && r0.Ok? {
        NamesMapToRef(cfg, orderNames, keep[i - 1], keep[i - 1].value.value, others, s.value, |others|);
        var r := Refs(cfg, orderNames, keep, others, st, i).value;
        forall k | k in r.nodeMap
          ensures (k in st.nodeMap && r.nodeMap[k] == st.nodeMap[k]) || exists m :: 0 <= m < i && r.nodeMap[k] == keep[m].id
        {
          if r.nodeMap[k] == keep[i - 1].id {
          } else {
            assert k in s.value.nodeMap && r.nodeMap[k] == s.value.nodeMap[k];
          }
        }
      }
    }
  }

  lemma RefsNext(cfg: Config, orderNames: set<string>, keep: seq<Item>, others: seq<seq<Item>>, st: State, i: nat)
    requires i < |keep| && CursorsOk(others, st.cursors)
    requires Refs(cfg, orderNames, keep, others, st, i).Ok? && keep[i].value.Some?
    ensures var n := Names(cfg, orderNames, keep[i], keep[i].value.value, others, Refs(cfg, orderNames, keep, others, st, i).value, |others|);
      Refs(cfg, orderNames, keep, others, st, i + 1).Err? <==> n.failed
    ensures var n := Names(cfg, orderNames, keep[i], keep[i].value.value, others, Refs(cfg, orderNames, keep, others, st, i).value, |others|);
      !n.failed ==> Refs(cfg, orderNames, keep, others, st, i + 1) == Ok(n)
  {
  }

  /**
   * The first node of another ordering, offered to the first kept node, has no value: the
   * source's `unwrap` panics, and the document fails.
   */
  lemma RefsOtherUnvalued(cfg: Config, orderNames: set<string>, keep: seq<Item>, others: seq<seq<Item>>, st: State)
    requires 0 < |keep| && keep[0].value.Some? && 0 < |others| && CursorsOk(others, st.cursors) && !st.failed
    requires st.cursors[0] == Cursor(0, None) && 0 < |others[0]| && others[0][0].value.None?
    ensures Refs(cfg, orderNames, keep, others, st, |keep|).Err?
  {
    var ref := keep[0];
    InnerMissing(cfg, orderNames, ref, ref.value.value, others[0], st.cursors[0]);
    assert Names(cfg, orderNames, ref, ref.value.value, others, st, 1).failed;
    NamesFailSticks(cfg, orderNames, ref, ref.value.value, others, st, 1, |others|);
    RefsErrSticks(cfg, orderNames, keep, others, st, 1, |keep|);
  }

  function StartCursors(n: nat): (r: seq<Cursor>)
    ensures |r| == n && forall k :: 0 <= k < n ==> r[k] == Cursor(0, None)
  {
    seq(n, k => Cursor(0, None))
  }

  /** A document's orderings: the kept one, if present, and the others in name order. */
  datatype Doc = Doc(name: string, keep: Option<seq<Item>>, otherNames: seq<string>, others: seq<seq<Item>>)

  /** Each other ordering is listed under its name. */
  predicate DocOk(d: Doc)
  {
    |d.otherNames| == |d.others|
  }

  function OrderNames(d: Doc): set<string>
  {
    set k | 0 <= k < |d.otherNames| :: d.otherNames[k]
  }

  /** The whole alignment of one document that has the kept ordering, from a node map onwards. */
  function AlignDoc(cfg: Config, d: Doc, nodeMap: map<nat, nat>): Result<State>
    requires DocOk(d) && d.keep.Some?
  {
    Refs(cfg, OrderNames(d), d.keep.value, d.others, State(StartCursors(|d.others|), [], nodeMap, false, false), |d.keep.value|)
  }

  /** One kept node of the outer loop: the state after i kept nodes becomes the state after i + 1. */
  method AlignKept(u: Update, cfg: Config, names: set<string>, keep: seq<Item>, others: seq<seq<Item>>, ghost st: State,
                   ghost base: seq<Event>, i: nat, cursors0: seq<Cursor>, nodeMap0: map<nat, nat>, flagged0: bool)
    returns (cursors: seq<Cursor>, nodeMap: map<nat, nat>, flagged: bool, failed: bool)
    requires i < |keep| && keep[i].value.Some? && CursorsOk(others, st.cursors) && !st.failed
    requires Refs(cfg, names, keep, others, st, i).Ok?
    requires var s := Refs(cfg, names, keep, others, st, i).value;
      cursors0 == s.cursors && nodeMap0 == s.nodeMap && flagged0 == s.flagged && u.events == base + s.events
    modifies u
    ensures failed <==> Refs(cfg, names, keep, others, st, i + 1).Err?
    ensures var s := Refs(cfg, names, keep, others, st, i + 1);
      !failed ==> cursors == s.value.cursors && nodeMap == s.value.nodeMap && flagged == s.value.flagged && u.events == base + s.value.events
  {
    ghost var s := Refs(cfg, names, keep, others, st, i).value;
    assert !s.failed;
    var item := keep[i];
    RefsNext(cfg, names, keep, others, st, i);
    ghost var started := Names(cfg, names, item, item.value.value, others, State(s.cursors, [], s.nodeMap, s.flagged, false), |others|);
    NamesShift(cfg, names, item, item.value.value, others, s, |others|);
    cursors, nodeMap, flagged, failed := AlignRef(u, cfg, names, item, item.value.value, others, cursors0, nodeMap0, flagged0);
    if !failed {
      AppendAssoc(base, s.events, started.events);
    }
  }

  /** The outer loop over the kept nodes of one document. */
  method MapDoc(u: Update, cfg: Config, d: Doc, nodeMap0: map<nat, nat>) returns (r: Result<(map<nat, nat>, bool)>)
    requires DocOk(d) && d.keep.Some?
    modifies u
    ensures r.Ok? <==> AlignDoc(cfg, d, nodeMap0).Ok?
    ensures r.Ok? ==> r.value.0 == AlignDoc(cfg, d, nodeMap0).value.nodeMap
    ensures r.Ok? ==> r.value.1 == AlignDoc(cfg, d, nodeMap0).value.flagged
    ensures r.Ok? ==> u.events == old(u.events) + AlignDoc(cfg, d, nodeMap0).value.events
  {
    var keep := d.keep.value;
    var names := OrderNames(d);
    ghost var st := State(StartCursors(|d.others|), [], nodeMap0, false, false);
    var cursors := StartCursors(|d.others|);
    var nodeMap := nodeMap0;
    var flagged := false;
    for i := 0 to |keep|
      invariant Refs(cfg, names, keep, d.others, st, i).Ok?
      invariant var s := Refs(cfg, names, keep, d.others, st, i).value;
        cursors == s.cursors && nodeMap == s.nodeMap && flagged == s.flagged && u.events == old(u.events) + s.events
    {
      if keep[i].value.None? {
        RefsErr(cfg, names, keep, d.others, st, |keep|);
        assert NoValueUpTo(keep, |keep|) by {
          assert 0 <= i < |keep| && keep[i].value.None?;
        }
        return Err(NoValueMsg(cfg, keep[i].nodeName));
      }
      var failed;
      cursors, nodeMap, flagged, failed := AlignKept(u, cfg, names, keep, d.others, st, old(u.events), i, cursors, nodeMap, flagged);
      if failed {
        RefsErrSticks(cfg, names, keep, d.others, st, i + 1, |keep|);
        return Err(UnwrapNone);
      }
    }
    return Ok((nodeMap, flagged));
  }

  /** The middle loop started with no events gives the same state as one started with events, less those events. */
  lemma {:induction false} NamesShift(cfg: Config, orderNames: set<string>, ref: Item, refVal: string, others: seq<seq<Item>>, st: State, j: nat)
    requires j <= |others| && CursorsOk(others, st.cursors)
    ensures var a := Names(cfg, orderNames, ref, refVal, others, State(st.cursors, [], st.nodeMap, st.flagged, st.failed), j);
      var b := Names(cfg, orderNames, ref, refVal, others, st, j);
      a.failed == b.failed && a.cursors == b.cursors && a.nodeMap == b.nodeMap && a.flagged == b.flagged && st.events + a.events == b.events
  {
    if j > 0 {
      NamesShift(cfg, orderNames, ref, refVal, others, st, j - 1);
      var a := Names(cfg, orderNames, ref, refVal, others, State(st.cursors, [], st.nodeMap, st.flagged, st.failed), j - 1);
      var b := Names(cfg, orderNames, ref, refVal, others, st, j - 1);
      var o := Inner(cfg, orderNames, ref, refVal, others[j - 1], a.cursors[j - 1]);
      AppendAssoc(st.events, a.events, o.events);
    }
  }

  // ---------------------------------------------------------------- all documents

  /** The alignment of the first k documents: the events, the node map and the documents with errors. */
  datatype Total = Total(events: seq<Event>, nodeMap: map<nat, nat>, errors: set<string>)

  predicate DocsOk(docs: seq<Doc>)
  {
    forall k :: 0 <= k < |docs| ==> DocOk(docs[k])
  }

  function Docs(cfg: Config, docs: seq<Doc>, k: nat): Result<Total>
    requires k <= |docs| && DocsOk(docs)
  {
    if k == 0 then Ok(Total([], map[], {}))
    else
      var t := Docs(cfg, docs, k - 1);
      var d := docs[k - 1];
      if t.Err? then t
      else if d.keep.None? then Ok(Total(t.value.events, t.value.nodeMap, t.value.errors + {d.name}))
      else
        var a := AlignDoc(cfg, d, t.value.nodeMap);
        if a.Err? then Err(a.msg)
        else Ok(Total(t.value.events + a.value.events, a.value.nodeMap,
                      if a.value.flagged then t.value.errors + {d.name} else t.value.errors))
  }

  /** A document without the kept ordering is always listed as erroneous. */
  lemma {:induction false} MissingKeepFlagged(cfg: Config, docs: seq<Doc>, k: nat, m: nat)
    requires m < k <= |docs| && DocsOk(docs) && docs[m].keep.None?
    requires Docs(cfg, docs, k).Ok?
    ensures docs[m].name in Docs(cfg, docs, k).value.errors
    decreases k
  {
    if m < k - 1 {
      MissingKeepFlagged(cfg, docs, k - 1, m);
    }
  }

  /** Errors are only ever added: a document listed after k documents stays listed. */
  lemma {:induction false} ErrorsGrow(cfg: Config, docs: seq<Doc>, j: nat, k: nat)
    requires j <= k <= |docs| && DocsOk(docs) && Docs(cfg, docs, k).Ok?
    ensures Docs(cfg, docs, j).Ok? && Docs(cfg, docs, j).value.errors <= Docs(cfg, docs, k).value.errors
    decreases k
  {
    if j < k {
      ErrorsGrow(cfg, docs, j, k - 1);
    }
  }

  /** `TextNodeMapper`: its only state is the set of documents with errors. */
  class TextNodeMapper {
    const cfg: Config
    var docsWithErrors: set<string>

    constructor (cfg: Config)
      ensures this.cfg == cfg && docsWithErrors == {}
    {
      this.cfg := cfg;
      docsWithErrors := {};
    }

    /** `map_text_nodes`: the node map of all merged nodes; the erroneous documents are recorded. */
    method MapTextNodes(u: Update, docs: seq<Doc>) returns (r: Result<map<nat, nat>>)
      requires DocsOk(docs)
      modifies this, u
      ensures r.Ok? <==> Docs(cfg, docs, |docs|).Ok?
      ensures r.Ok? ==> r.value == Docs(cfg, docs, |docs|).value.nodeMap
      ensures r.Ok? ==> docsWithErrors == old(docsWithErrors) + Docs(cfg, docs, |docs|).value.errors
      ensures r.Ok? ==> u.events == old(u.events) + Docs(cfg, docs, |docs|).value.events
    {
      var nodeMap: map<nat, nat> := map[];
      for k := 0 to |docs|
        invariant Docs(cfg, docs, k).Ok?
        invariant nodeMap == Docs(cfg, docs, k).value.nodeMap
        invariant docsWithErrors == old(docsWithErrors) + Docs(cfg, docs, k).value.errors
        invariant u.events == old(u.events) + Docs(cfg, docs, k).value.events
      {
        ghost var t := Docs(cfg, docs, k).value;
        var d := docs[k];
        if d.keep.None? {
          docsWithErrors := docsWithErrors + {d.name};
        } else {
          var res := MapDoc(u, cfg, d, nodeMap);
          if res.Err? {
            DocsErrBeyond(cfg, docs, k + 1, |docs|);
            return Err(res.msg);
          }
          AppendAssoc(old(u.events), t.events, AlignDoc(cfg, d, nodeMap).value.events);
          nodeMap := res.value.0;
          if res.value.1 {
            docsWithErrors := docsWithErrors + {d.name};
          }
        }
      }
      return Ok(nodeMap);
    }
  }

  /** Once a document fails, the whole run fails. */
  lemma {:induction false} DocsErrBeyond(cfg: Config, docs: seq<Doc>, k: nat, n: nat)
    requires k <= n <= |docs| && DocsOk(docs) && Docs(cfg, docs, k).Err?
    ensures Docs(cfg, docs, n).Err?
    decreases n
  {
    if n > k {
      DocsErrBeyond(cfg, docs, k, n - 1);
    }
  }
}
