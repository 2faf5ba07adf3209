/** Bandwidth per protocol call, recovered from a party's trace, and its agreement with the byte counters. */
module BandwidthTree {
  import opened SimTypes

  /** A protocol call: the bytes it sent itself, and the calls it made, in order. */
  datatype Tree = Node(id: nat, selfBytes: nat, children: seq<Tree>)

  /** The bytes an event puts on the wire; a party's packets to itself do not count. */
  function Bytes(event: TraceEvent): nat {
    if event.SendData? && event.link.sender != event.link.recipient then event.size else 0
  }

  predicate Begins(event: TraceEvent) { event.Marked? && event.mark.ProtocolBegin? }

  predicate Ends(event: TraceEvent) { event.Marked? && event.mark.ProtocolEnd? }

  /** What becomes of a node that has consumed `events`, and the events left after its end. */
  function ParseFrom(node: Tree, events: seq<TraceEvent>): (r: (Tree, seq<TraceEvent>))
    ensures |r.1| <= |events|
    decreases |events|
  {
    if events == [] then (node, [])
    else
      var rest := events[1..];
      if Begins(events[0]) then
        var (child, after) := ParseFrom(Node(events[0].mark.id, 0, []), rest);
        ParseFrom(node.(children := node.children + [child]), after)
      else if Ends(events[0]) then (node, rest)
      else ParseFrom(node.(selfBytes := node.selfBytes + Bytes(events[0])), rest)
  }

  /** The parser: a loop over the events that calls itself for every protocol that begins. */
  method Parse(id: nat, events: seq<TraceEvent>) returns (metric: Tree, rest: seq<TraceEvent>)
    ensures (metric, rest) == ParseFrom(Node(id, 0, []), events)
    decreases |events|
  {
    metric, rest := Node(id, 0, []), events;
    while rest != []
      invariant |rest| <= |events| && ParseFrom(metric, rest) == ParseFrom(Node(id, 0, []), events)
      decreases |rest|
    {
      var first := rest[0];
      rest := rest[1..];
      if first.SendData? {
        if first.link.sender != first.link.recipient {
          metric := metric.(selfBytes := metric.selfBytes + first.size);
        }
      } else if Begins(first) {
        var child;
        child, rest := Parse(first.mark.id, rest);
        metric := metric.(children := metric.children + [child]);
      } else if Ends(first) {
        return;
      }
    }
  }

  /** One line of the folded output: the ids from the root down, and the node's own bytes. */
  datatype Line = Line(path: seq<nat>, bytes: nat)

  function Lines(tree: Tree, path: seq<nat>): seq<Line>
    decreases tree
  {
    var here := path + [tree.id];
    (if tree.selfBytes > 0 then [Line(here, tree.selfBytes)] else []) + AllLines(tree.children, here)
  }

  function AllLines(trees: seq<Tree>, path: seq<nat>): seq<Line>
    decreases trees
  {
    if trees == [] then [] else Lines(trees[0], path) + AllLines(trees[1..], path)
  }

  lemma FirstLines(trees: seq<Tree>, path: seq<nat>)
    ensures AllLines(trees, path) == if trees == [] then [] else Lines(trees[0], path) + AllLines(trees[1..], path)
  {
  }

  lemma LinesOf(tree: Tree, path: seq<nat>)
    ensures var here := path + [tree.id];
      Lines(tree, path) ==
        (if tree.selfBytes > 0 then [Line(here, tree.selfBytes)] else []) + AllLines(tree.children, here)
  {
  }

  lemma Regrouped(a: seq<Line>, b: seq<Line>, c: seq<Line>)
    ensures a + b + c == a + (b + c)
  {
  }

  /** The pre-order walk, with the output and the path it pushes and pops. */
  class Folder {
    var out: seq<Line>
    var path: seq<nat>

    constructor ()
      ensures out == [] && path == []
    {
      out, path := [], [];
    }

    method Fold(tree: Tree)
      modifies this
      ensures path == old(path) && out == old(out) + Lines(tree, old(path))
      decreases tree
    {
      hide Lines, AllLines;
      ghost var start := out;
      path := path + [tree.id];
      if tree.selfBytes > 0 {
        out := out + [Line(path, tree.selfBytes)];
      }
      ghost var own := out;
      var i := 0;
      while i < |tree.children|
        invariant i <= |tree.children| && path == old(path) + [tree.id]
        invariant out + AllLines(tree.children[i..], path) == own + AllLines(tree.children, path)
      {
        assert tree.children[i..][1..] == tree.children[i + 1..];
        FirstLines(tree.children[i..], path);
        Fold(tree.children[i]);
        i := i + 1;
      }
      ghost var ownLine := if tree.selfBytes > 0 then [Line(path, tree.selfBytes)] else [];
      assert own == start + ownLine && tree.children[i..] == [];
      FirstLines([], path);
      LinesOf(tree, old(path));
      Regrouped(start, ownLine, AllLines(tree.children, path));
      path := path[..|path| - 1];
    }
  }

  /** The bytes of the lines with a selected path. */
  function LineSum(lines: seq<Line>, selected: seq<nat> -> bool): nat {
    if lines == [] then 0
    else (if selected(lines[0].path) then lines[0].bytes else 0) + LineSum(lines[1..], selected)
  }

  lemma {:induction false} LineSumAppend(a: seq<Line>, b: seq<Line>, selected: seq<nat> -> bool)
    ensures LineSum(a + b, selected) == LineSum(a, selected) + LineSum(b, selected)
  {
    if a == [] {
      assert a + b == b;
    } else {
      LineSumAppend(a[1..], b, selected);
      assert (a + b)[1..] == a[1..] + b;
    }
  }

  /** The open protocols after the event: those before, one more, or one fewer. */
  function StackAfter(event: TraceEvent, stack: seq<nat>): seq<nat> {
    if Begins(event) then stack + [event.mark.id]
    else if Ends(event) && stack != [] then stack[..|stack| - 1]
    else stack
  }

  /** The bytes sent while the open protocols, the innermost last, are a selected path. */
  function Charged(events: seq<TraceEvent>, stack: seq<nat>, selected: seq<nat> -> bool): nat {
    if events == [] then 0
    else
      (if selected(stack) then Bytes(events[0]) else 0) + Charged(events[1..], StackAfter(events[0], stack), selected)
  }

  lemma OwnLine(node: Tree, path: seq<nat>, selected: seq<nat> -> bool)
    ensures LineSum(Lines(node, path), selected) ==
      (if selected(path + [node.id]) then node.selfBytes else 0)
      + LineSum(AllLines(node.children, path + [node.id]), selected)
  {
    var here := path + [node.id];
    if node.selfBytes > 0 {
      LineSumAppend([Line(here, node.selfBytes)], AllLines(node.children, here), selected);
      assert [Line(here, node.selfBytes)][1..] == [];
    } else {
      assert Lines(node, path) == AllLines(node.children, here);
    }
  }

  lemma {:induction false} AllLinesAppend(trees: seq<Tree>, last: Tree, path: seq<nat>)
    ensures AllLines(trees + [last], path) == AllLines(trees, path) + Lines(last, path)
  {
    hide Lines, AllLines;
    FirstLines(trees, path);
    FirstLines(trees + [last], path);
    if trees == [] {
      assert (trees + [last])[1..] == [];
      FirstLines([], path);
    } else {
      AllLinesAppend(trees[1..], last, path);
      assert (trees + [last])[1..] == trees[1..] + [last];
    }
  }

  lemma AddedChild(node: Tree, child: Tree, path: seq<nat>, selected: seq<nat> -> bool)
    ensures LineSum(Lines(node.(children := node.children + [child]), path), selected) ==
            LineSum(Lines(node, path), selected) + LineSum(Lines(child, path + [node.id]), selected)
  {
    hide Lines, AllLines, LineSum;
    var here := path + [node.id];
    OwnLine(node, path, selected);
    OwnLine(node.(children := node.children + [child]), path, selected);
    AllLinesAppend(node.children, child, here);
    LineSumAppend(AllLines(node.children, here), Lines(child, here), selected);
  }

  // The first event of a node's events, by its kind.

  lemma BeginStep(node: Tree, events: seq<TraceEvent>)
    requires events != [] && Begins(events[0])
    ensures var (child, after) := ParseFrom(Node(events[0].mark.id, 0, []), events[1..]);
      ParseFrom(node, events) == ParseFrom(node.(children := node.children + [child]), after) && |after| < |events|
  {
  }

  lemma EndStep(node: Tree, events: seq<TraceEvent>)
    requires events != [] && Ends(events[0])
    ensures ParseFrom(node, events) == (node, events[1..])
  {
  }

  lemma OtherStep(node: Tree, events: seq<TraceEvent>)
    requires events != [] && !Begins(events[0]) && !Ends(events[0])
    ensures ParseFrom(node, events) == ParseFrom(node.(selfBytes := node.selfBytes + Bytes(events[0])), events[1..])
  {
  }

  lemma ChargeStep(events: seq<TraceEvent>, stack: seq<nat>, selected: seq<nat> -> bool)
    requires events != []
    ensures Charged(events, stack, selected) ==
      (if selected(stack) then Bytes(events[0]) else 0) + Charged(events[1..], StackAfter(events[0], stack), selected)
  {
  }

  /** What a node's lines gain is what its events charge; what is left of the events is charged outside it. */
  lemma {:induction false} Accounts(node: Tree, path: seq<nat>, events: seq<TraceEvent>, selected: seq<nat> -> bool)
    ensures var (tree, rest) := ParseFrom(node, events);
      LineSum(Lines(tree, path), selected) + Charged(rest, path, selected) ==
      LineSum(Lines(node, path), selected) + Charged(events, path + [node.id], selected)
    decreases |events|
  {
    hide Lines, LineSum, AllLines, ParseFrom, Charged;
    if events == [] {
      NothingParsed(node, path, selected);
    } else {
      var rest, here := events[1..], path + [node.id];
      ChargeStep(events, here, selected);
      if Begins(events[0]) {
        BeginStep(node, events);
        var called := Node(events[0].mark.id, 0, []);
        var (child, after) := ParseFrom(called, rest);
        Accounts(called, here, rest, selected);
        EmptyNode(events[0].mark.id, here, selected);
        Accounts(node.(children := node.children + [child]), path, after, selected);
        AddedChild(node, child, path, selected);
      } else if Ends(events[0]) {
        EndStep(node, events);
        assert here[..|here| - 1] == path;
      } else {
        OtherStep(node, events);
        var grown := node.(selfBytes := node.selfBytes + Bytes(events[0]));
        Accounts(grown, path, rest, selected);
        OwnLine(node, path, selected);
        OwnLine(grown, path, selected);
      }
    }
  }

  lemma NothingParsed(node: Tree, path: seq<nat>, selected: seq<nat> -> bool)
    ensures ParseFrom(node, []) == (node, []) && forall stack :: Charged([], stack, selected) == 0
  {
  }

  lemma EmptyNode(id: nat, path: seq<nat>, selected: seq<nat> -> bool)
    ensures LineSum(Lines(Node(id, 0, []), path), selected) == 0
  {
    assert Lines(Node(id, 0, []), path) == [];
  }

  /** How many more protocols the events end than begin. */
  function Excess(events: seq<TraceEvent>): int {
    if events == [] then 0
    else (if Begins(events[0]) then -1 else if Ends(events[0]) then 1 else 0) + Excess(events[1..])
  }

  lemma {:induction false} ExcessAppend(a: seq<TraceEvent>, b: seq<TraceEvent>)
    ensures Excess(a + b) == Excess(a) + Excess(b)
  {
    if a == [] {
      assert a + b == b;
    } else {
      ExcessAppend(a[1..], b);
      assert (a + b)[1..] == a[1..] + b;
    }
  }

  /** No proper prefix of the first `n` events ends more protocols than it begins. */
  ghost predicate StaysOpen(events: seq<TraceEvent>, n: nat)
    requires n <= |events|
  {
    forall k {:trigger events[..k]} :: 0 <= k < n ==> Excess(events[..k]) <= 0
  }

  lemma PrefixStep(events: seq<TraceEvent>, k: nat)
    requires 0 < k <= |events|
    ensures Excess(events[..k]) ==
      (if Begins(events[0]) then -1 else if Ends(events[0]) then 1 else 0) + Excess(events[1..][..k - 1])
  {
    assert events[..k][1..] == events[1..][..k - 1];
  }

  /** A node stops at the first event that ends more protocols than have begun, or where the trace ends. */
  ghost predicate Stops(events: seq<TraceEvent>, left: nat)
    requires left <= |events|
  {
    StaysOpen(events, |events| - left) && (left > 0 ==> Excess(events[..|events| - left]) == 1)
  }

  lemma {:induction false} StopsAtEnd(node: Tree, events: seq<TraceEvent>)
    ensures Stops(events, |ParseFrom(node, events).1|)
    decreases |events|
  {
    hide ParseFrom, Stops;
    if events == [] {
      NothingStops(node);
    } else {
      var rest := events[1..];
      if Begins(events[0]) {
        BeginStep(node, events);
        var called := Node(events[0].mark.id, 0, []);
        var (child, after) := ParseFrom(called, rest);
        ParseSuffix(called, rest);
        StopsAtEnd(called, rest);
        StopsAtEnd(node.(children := node.children + [child]), after);
        ParseSuffix(node.(children := node.children + [child]), after);
        StopsAfterChild(events, |after|, |ParseFrom(node, events).1|);
      } else if Ends(events[0]) {
        EndStep(node, events);
        StopsHere(events);
      } else {
        OtherStep(node, events);
        var grown := node.(selfBytes := node.selfBytes + Bytes(events[0]));
        StopsAtEnd(grown, rest);
        ParseSuffix(grown, rest);
        StopsLater(events, |ParseFrom(grown, rest).1|);
      }
    }
  }

  /** What a node leaves is the end of its events. */
  lemma {:induction false} ParseSuffix(node: Tree, events: seq<TraceEvent>)
    ensures var left := |ParseFrom(node, events).1|;
      left <= |events| && ParseFrom(node, events).1 == events[|events| - left..]
    decreases |events|
  {
    hide ParseFrom;
    if events == [] {
      NothingParsed(node, [], _ => true);
    } else {
      var rest := events[1..];
      if Begins(events[0]) {
        BeginStep(node, events);
        var called := Node(events[0].mark.id, 0, []);
        ParseSuffix(called, rest);
        var (child, after) := ParseFrom(called, rest);
        ParseSuffix(node.(children := node.children + [child]), after);
        NestedDrop(events, |rest| - |after| + 1, |after| - |ParseFrom(node, events).1|);
      } else if Ends(events[0]) {
        EndStep(node, events);
      } else {
        OtherStep(node, events);
        ParseSuffix(node.(selfBytes := node.selfBytes + Bytes(events[0])), rest);
        NestedDrop(events, 1, |rest| - |ParseFrom(node, events).1|);
      }
    }
  }

  lemma NestedDrop(s: seq<TraceEvent>, a: nat, b: nat)
    requires a + b <= |s|
    ensures s[a..][b..] == s[a + b..] && (a > 0 ==> s[1..][a - 1..] == s[a..])
  {
  }

  lemma NothingStops(node: Tree)
    ensures ParseFrom(node, []) == (node, []) && Stops([], 0)
  {
    hide ParseFrom;
    NothingParsed(node, [], _ => true);
  }

  lemma StopsHere(events: seq<TraceEvent>)
    requires events != [] && Ends(events[0])
    ensures Stops(events, |events| - 1)
  {
    assert events[..1][1..] == [];
  }

  lemma StopsLater(events: seq<TraceEvent>, left: nat)
    requires events != [] && left < |events| && Stops(events[1..], left) && !Begins(events[0]) && !Ends(events[0])
    ensures Stops(events, left)
  {
    var rest := events[1..];
    forall k | 0 < k <= |events| - left ensures Excess(events[..k]) == Excess(rest[..k - 1]) {
      PrefixStep(events, k);
    }
  }

  lemma PrefixWithin(events: seq<TraceEvent>, inner: nat, k: nat)
    requires events != [] && Begins(events[0]) && inner < |events| && 0 < k <= |events|
    ensures Excess(events[..k]) == -1 +
      if k - 1 <= inner then Excess(events[1..][..k - 1])
      else Excess(events[1..][..inner]) + Excess(events[1..][inner..][..k - 1 - inner])
  {
    PrefixStep(events, k);
    var rest := events[1..];
    if k - 1 > inner {
      assert rest[..k - 1] == rest[..inner] + rest[inner..][..k - 1 - inner];
      ExcessAppend(rest[..inner], rest[inner..][..k - 1 - inner]);
    }
  }

  lemma StopsAfterChild(events: seq<TraceEvent>, between: nat, left: nat)
    requires events != [] && Begins(events[0]) && between < |events| && left <= between
    requires Stops(events[1..], between) && Stops(events[1..][|events| - 1 - between..], left)
    ensures Stops(events, left)
  {
    hide Excess, Begins, Ends;
    var rest, inner := events[1..], |events| - 1 - between;
    var after := rest[inner..];
    forall k | 0 <= k < |events| - left ensures Excess(events[..k]) <= 0 {
      if k == 0 {
        NoExcess(events);
      } else {
        PrefixWithin(events, inner, k);
        if k - 1 < inner {
          assert Excess(rest[..k - 1]) <= 0;
        } else {
          NoExcess(after);
          assert Excess(after[..k - 1 - inner]) <= 0;
        }
      }
    }
    NoExcess(after);
    if left > 0 { PrefixWithin(events, inner, |events| - left); }
  }

  lemma NoExcess(events: seq<TraceEvent>)
    ensures Excess(events[..0]) == 0
  {
  }

  /** The parser consumes the whole trace if and only if no proper prefix of it has more ends than begins. */
  lemma ConsumesAll(id: nat, events: seq<TraceEvent>)
    ensures ParseFrom(Node(id, 0, []), events).1 == [] <==> StaysOpen(events, |events|)
  {
    hide ParseFrom;
    StopsAtEnd(Node(id, 0, []), events);
    ParseSuffix(Node(id, 0, []), events);
    var left := |ParseFrom(Node(id, 0, []), events).1|;
    if left > 0 {
      assert !(Excess(events[..|events| - left]) <= 0);
    }
  }

  /** Every byte sent is charged to the innermost open protocol: by path, folded lines and events agree. */
  lemma ChargedToInnermost(id: nat, events: seq<TraceEvent>, selected: seq<nat> -> bool)
    requires StaysOpen(events, |events|)
    ensures LineSum(Lines(ParseFrom(Node(id, 0, []), events).0, []), selected) == Charged(events, [id], selected)
  {
    hide ParseFrom, Lines, LineSum, StaysOpen;
    ConsumesAll(id, events);
    Accounts(Node(id, 0, []), [], events, selected);
    EmptyNode(id, [], selected);
    NothingParsed(Node(id, 0, []), [], selected);
    assert [] + [id] == [id];
  }

  /** All bytes sent over the wire. */
  function Sent(events: seq<TraceEvent>): nat {
    if events == [] then 0 else Bytes(events[0]) + Sent(events[1..])
  }

  lemma {:induction false} ChargedInAll(events: seq<TraceEvent>, stack: seq<nat>)
    ensures Charged(events, stack, _ => true) == Sent(events)
  {
    if events != [] { ChargedInAll(events[1..], StackAfter(events[0], stack)); }
  }

  /** A node's own bytes and those of all calls below it. */
  function Total(tree: Tree): nat
    decreases tree
  {
    tree.selfBytes + TotalOf(tree.children)
  }

  function TotalOf(trees: seq<Tree>): nat
    decreases trees
  {
    if trees == [] then 0 else Total(trees[0]) + TotalOf(trees[1..])
  }

  lemma {:induction false} FoldedTotal(tree: Tree, path: seq<nat>)
    ensures LineSum(Lines(tree, path), _ => true) == Total(tree)
    decreases tree
  {
    OwnLine(tree, path, _ => true);
    FoldedTotalOf(tree.children, path + [tree.id]);
  }

  lemma {:induction false} FoldedTotalOf(trees: seq<Tree>, path: seq<nat>)
    ensures LineSum(AllLines(trees, path), _ => true) == TotalOf(trees)
    decreases trees
  {
    if trees != [] {
      FoldedTotal(trees[0], path);
      FoldedTotalOf(trees[1..], path);
      LineSumAppend(Lines(trees[0], path), AllLines(trees[1..], path), _ => true);
    }
  }

  /** The hook that counts bytes as the events happen. */
  class MetricHook {
    var totalData: nat
    var totalDataPerParty: map<PartyId, nat>

    constructor ()
      ensures totalData == 0 && totalDataPerParty == map[]
    {
      totalData, totalDataPerParty := 0, map[];
    }

    function By(party: PartyId): nat
      reads this
    {
      if party in totalDataPerParty then totalDataPerParty[party] else 0
    }

    method Run(event: TraceEvent)
      modifies this
      ensures totalData == old(totalData) + Bytes(event)
      ensures forall party ::
        By(party) == old(By(party)) +
        if event.SendData? && event.link.sender == party then Bytes(event) else 0
    {
      if event.SendData? {
        if event.link.sender == event.link.recipient { return; }
        totalData := totalData + event.size;
        var before := By(event.link.sender);
        totalDataPerParty := totalDataPerParty[event.link.sender := before + event.size];
      }
    }

    /** The hook fires on every event of a trace. */
    method RunAll(events: seq<TraceEvent>)
      modifies this
      ensures totalData == old(totalData) + Sent(events)
      ensures forall party :: SentBy(events, party) ==> By(party) == old(By(party)) + Sent(events)
    {
      var i := 0;
      while i < |events|
        invariant i <= |events| && totalData + Sent(events[i..]) == old(totalData) + Sent(events)
        invariant forall party :: SentBy(events, party) ==>
          By(party) + Sent(events[i..]) == old(By(party)) + Sent(events)
      {
        assert events[i..][1..] == events[i + 1..];
        assert forall party :: SentBy(events, party) && events[i].SendData? ==> events[i].link.sender == party;
        Run(events[i]);
        i := i + 1;
      }
      assert events[i..] == [];
    }
  }

  /** The trace is that of `party`: it records the party's own sends. */
  ghost predicate SentBy(events: seq<TraceEvent>, party: PartyId) {
    forall i {:trigger events[i]} :: 0 <= i < |events| && events[i].SendData? ==> events[i].link.sender == party
  }

  /** Conservation: the tree's total, the folded output and the bytes the party sent are the same. */
  lemma TotalsCoincide(id: nat, events: seq<TraceEvent>)
    requires StaysOpen(events, |events|)
    ensures var tree := ParseFrom(Node(id, 0, []), events).0;
      Total(tree) == LineSum(Lines(tree, []), _ => true) == Sent(events)
  {
    hide ParseFrom, Lines, StaysOpen;
    ChargedToInnermost(id, events, _ => true);
    ChargedInAll(events, [id]);
    FoldedTotal(ParseFrom(Node(id, 0, []), events).0, []);
  }

  // A party's packets to itself.

  predicate ToSelf(event: TraceEvent) { event.SendData? && event.link.sender == event.link.recipient }

  /** The trace with the party's sends to itself left out. */
  function WithoutSelf(events: seq<TraceEvent>): seq<TraceEvent> {
    if events == [] then []
    else if ToSelf(events[0]) then WithoutSelf(events[1..])
    else [events[0]] + WithoutSelf(events[1..])
  }

  lemma FirstKept(events: seq<TraceEvent>)
    requires events != []
    ensures if ToSelf(events[0]) then WithoutSelf(events) == WithoutSelf(events[1..])
      else WithoutSelf(events) == [events[0]] + WithoutSelf(events[1..])
  {
  }

  /** They change nothing in the tree: it is that of the trace without them. */
  lemma {:induction false} SelfSendsLeaveTree(node: Tree, events: seq<TraceEvent>)
    ensures var (tree, rest) := ParseFrom(node, events);
      ParseFrom(node, WithoutSelf(events)) == (tree, WithoutSelf(rest))
    decreases |events|
  {
    hide ParseFrom, WithoutSelf;
    if events == [] {
      NothingParsed(node, [], _ => true);
      NothingKept();
    } else {
      var rest, kept := events[1..], WithoutSelf(events);
      FirstKept(events);
      if Begins(events[0]) {
        BeginStep(node, events);
        BeginStep(node, kept);
        var called := Node(events[0].mark.id, 0, []);
        var (child, after) := ParseFrom(called, rest);
        SelfSendsLeaveTree(called, rest);
        SelfSendsLeaveTree(node.(children := node.children + [child]), after);
      } else if Ends(events[0]) {
        EndStep(node, events);
        EndStep(node, kept);
      } else {
        var grown := node.(selfBytes := node.selfBytes + Bytes(events[0]));
        OtherStep(node, events);
        SelfSendsLeaveTree(grown, rest);
        if !ToSelf(events[0]) { OtherStep(node, kept); }
      }
    }
  }

  lemma NothingKept()
    ensures WithoutSelf([]) == []
  {
  }

  /** Nor in the counters: the bytes counted are those of the trace without them. */
  lemma {:induction false} SelfSendsLeaveCounters(events: seq<TraceEvent>)
    ensures Sent(WithoutSelf(events)) == Sent(events)
  {
    if events != [] {
      hide WithoutSelf;
      FirstKept(events);
      SelfSendsLeaveCounters(events[1..]);
    } else {
      assert WithoutSelf([]) == [];
    }
  }

  /** A trace of sends to oneself only leaves an empty tree and counts nothing. */
  lemma {:induction false} OnlySelfSends(id: nat, events: seq<TraceEvent>)
    requires forall i :: 0 <= i < |events| ==> ToSelf(events[i])
    ensures ParseFrom(Node(id, 0, []), events) == (Node(id, 0, []), []) && Sent(events) == 0
  {
    if events != [] {
      OnlySelfSends(id, events[1..]);
      OtherStep(Node(id, 0, []), events);
    }
  }

  // Printing a tree as a trace and parsing it.

  /** What a node's call leaves in the trace between its begin and its end. */
  function Body(tree: Tree, at: Time, link: Link): seq<TraceEvent>
    decreases tree
  {
    [SendData(at, link, tree.selfBytes)] + Calls(tree.children, at, link)
  }

  function Calls(trees: seq<Tree>, at: Time, link: Link): seq<TraceEvent>
    decreases trees
  {
    if trees == [] then []
    else
      [Marked(at, ProtocolBegin(trees[0].id))] + Body(trees[0], at, link) + [Marked(at, ProtocolEnd(trees[0].id))]
      + Calls(trees[1..], at, link)
  }

  lemma {:induction false} ParsesCalls(node: Tree, trees: seq<Tree>, at: Time, link: Link, rest: seq<TraceEvent>)
    requires link.sender != link.recipient
    ensures ParseFrom(node, Calls(trees, at, link) + rest) == ParseFrom(node.(children := node.children + trees), rest)
    decreases trees, 1
  {
    hide ParseFrom;
    if trees == [] {
      assert Calls(trees, at, link) + rest == rest && node.children + trees == node.children;
    } else {
      var first, others := trees[0], Calls(trees[1..], at, link) + rest;
      var events := Calls(trees, at, link) + rest;
      var inner := Body(first, at, link) + ([Marked(at, ProtocolEnd(first.id))] + others);
      assert events == [Marked(at, ProtocolBegin(first.id))] + inner;
      assert events[1..] == inner;
      BeginStep(node, events);
      ParsesBody(first, at, link, others);
      var grown := node.(children := node.children + [first]);
      ParsesCalls(grown, trees[1..], at, link, rest);
      assert grown.children + trees[1..] == node.children + trees;
    }
  }

  lemma {:induction false} ParsesBody(tree: Tree, at: Time, link: Link, rest: seq<TraceEvent>)
    requires link.sender != link.recipient
    ensures ParseFrom(Node(tree.id, 0, []), Body(tree, at, link) + ([Marked(at, ProtocolEnd(tree.id))] + rest))
      == (tree, rest)
    decreases tree, 0
  {
    hide ParseFrom;
    var tail := [Marked(at, ProtocolEnd(tree.id))] + rest;
    var events := Body(tree, at, link) + tail;
    assert events == [SendData(at, link, tree.selfBytes)] + (Calls(tree.children, at, link) + tail);
    assert events[1..] == Calls(tree.children, at, link) + tail;
    OtherStep(Node(tree.id, 0, []), events);
    ParsesCalls(Node(tree.id, tree.selfBytes, []), tree.children, at, link, tail);
    assert [] + tree.children == tree.children;
    EndStep(tree, tail);
    assert tail[1..] == rest;
  }

  /** Round trip: the trace that a tree of calls leaves parses to that tree. */
  lemma PrintedTreeParses(tree: Tree, at: Time, link: Link)
    requires link.sender != link.recipient
    ensures ParseFrom(Node(tree.id, 0, []), Body(tree, at, link)) == (tree, [])
  {
    hide ParseFrom;
    var events := Body(tree, at, link);
    assert events[1..] == Calls(tree.children, at, link) + [];
    OtherStep(Node(tree.id, 0, []), events);
    ParsesCalls(Node(tree.id, tree.selfBytes, []), tree.children, at, link, []);
    assert [] + tree.children == tree.children;
    NothingParsed(tree, [], _ => true);
  }
}
