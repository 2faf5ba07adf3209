/**
 * One deal followed by one opening over the simulated network: a dealer hands every party its share,
 * then every party reveals its share to all others and collects theirs from anyone.
 */
module DealThenOpen {
  import opened Wrappers
  import opened SimTypes
  import opened SwitchboardSpec
  import opened Kernel
  import opened Links
  import opened Histories
  import opened Wakeups
  import opened Termination
  import opened DelayIndependence
  import opened Sequences

  /** The dealer's input: `receivers[i]` gets `shares[i]`. A share occupies `width` bytes on the wire. */
  datatype Deal = Deal(dealer: PartyId, receivers: seq<PartyId>, shares: seq<int>, width: int -> nat)

  /** What the deal asks of its callers: every party, the dealer included, is dealt one share. */
  ghost predicate ValidDeal(parties: seq<PartyId>, d: Deal) {
    && Distinct(d.receivers) && |d.shares| == |d.receivers|
    && (forall p :: p in parties <==> p in d.receivers)
    && d.dealer in parties
  }

  function Encode(d: Deal, share: int): Packet { Packet([share], d.width(share)) }

  /** The share a packet holds, read with `pop`. */
  function Pop(packet: Packet): Option<int> {
    if packet.items == [] then None else Some(packet.items[0])
  }

  /** The parties the local party deals to. */
  function Dealt(d: Deal, p: PartyId): seq<PartyId> { if p == d.dealer then d.receivers else [] }

  /** Every packet received so far could be read. */
  predicate Readable(h: seq<Res>) {
    forall i :: 0 <= i < |h| && h[i].Got? ==> Pop(h[i].packet).Some?
  }

  /** The next network call of party `p`: `PassiveDealShr` and then `PassiveOpenShr`. */
  function Call(parties: seq<PartyId>, d: Deal, p: PartyId, h: seq<Res>): Op
    requires |d.shares| == |d.receivers|
  {
    var dealt := Dealt(d, p);
    var others := Without(parties, p);
    if !Readable(h) then Finish
    else if |h| < |dealt| then Send(dealt[|h|], Encode(d, d.shares[|h|]))
    else if |h| == |dealt| then RecvFrom(d.dealer)
    else
      var j := |h| - |dealt| - 1;
      var own := if h[|dealt|].Got? then Pop(h[|dealt|].packet).value else 0;
      if j < |others| then Send(others[j], Encode(d, own))
      else if 1 + (j - |others|) < |parties| then RecvAny
      else Finish
  }

  /** The simulation runs this protocol, under whatever delays. */
  ghost predicate Deals(cfg: Config, d: Deal) {
    && ValidConfig(cfg) && ValidDeal(cfg.parties, d)
    && forall p, h :: cfg.prog(p, h) == Call(cfg.parties, d, p, h)
  }

  function ShareOf(d: Deal, p: PartyId): int {
    var i := IndexOf(d.receivers, p);
    if i < |d.shares| then d.shares[i] else 0
  }

  /** The first result of `p` that belongs to its collection of the others' shares. */
  function CollectFrom(parties: seq<PartyId>, d: Deal, p: PartyId): nat {
    |Dealt(d, p)| + 1 + |Without(parties, p)|
  }

  /** A packet that `p` received as its i-th result is what an honest run delivers there. */
  ghost predicate HonestAt(d: Deal, p: PartyId, i: nat, res: Res) {
    res.Got? ==>
      if i == |Dealt(d, p)| then res == Got(d.dealer, Encode(d, ShareOf(d, p)))
      else res.sender in d.receivers && res.sender != p && res.packet == Encode(d, ShareOf(d, res.sender))
  }

  ghost predicate Honest(d: Deal, p: PartyId, h: seq<Res>) {
    forall i :: 0 <= i < |h| ==> HonestAt(d, p, i, h[i])
  }

  /** The call at position `m`, in a history that is honest so far. */
  lemma HonestCall(cfg: Config, d: Deal, p: PartyId, h: seq<Res>)
    requires Deals(cfg, d) && p in cfg.parties && Answered(cfg, p, h) && Honest(d, p, h)
    ensures var dealt, others := Dealt(d, p), Without(cfg.parties, p);
      cfg.prog(p, h) ==
        if |h| < |dealt| then Send(dealt[|h|], Encode(d, d.shares[|h|]))
        else if |h| == |dealt| then RecvFrom(d.dealer)
        else if |h| < CollectFrom(cfg.parties, d, p) then Send(others[|h| - |dealt| - 1], Encode(d, ShareOf(d, p)))
        else if |h| - CollectFrom(cfg.parties, d, p) < |others| then RecvAny
        else Finish
  {
    WithoutCount(cfg.parties, p);
    assert Readable(h);
    var dealt := Dealt(d, p);
    if |h| > |dealt| {
      var g := h[..|dealt|];
      HonestPrefix(d, p, h, |dealt|);
      assert Answers(cfg, p, h, |dealt|);
      assert Readable(g);
      assert h[|dealt|].Got? && HonestAt(d, p, |dealt|, h[|dealt|]);
    }
  }

  lemma HonestPrefix(d: Deal, p: PartyId, h: seq<Res>, m: nat)
    requires |d.shares| == |d.receivers| && p in d.receivers && m <= |h| && Honest(d, p, h)
    ensures Honest(d, p, h[..m])
  {
    forall i | 0 <= i < m ensures HonestAt(d, p, i, h[..m][i]) {
      assert HonestAt(d, p, i, h[i]);
    }
  }

  lemma AnsweredPrefix(cfg: Config, p: PartyId, h: seq<Res>, m: nat)
    requires m <= |h| && Answered(cfg, p, h)
    ensures Answered(cfg, p, h[..m])
  {
    forall i | 0 <= i < m ensures Answers(cfg, p, h[..m], i) {
      assert h[..m][..i] == h[..i] && Answers(cfg, p, h, i);
    }
  }

  function DealPart(d: Deal, q: PartyId, len: nat, p: PartyId): seq<Packet> {
    if q == d.dealer && len > IndexOf(d.receivers, p) then [Encode(d, ShareOf(d, p))] else []
  }

  function OpenPart(parties: seq<PartyId>, d: Deal, q: PartyId, len: nat, p: PartyId): seq<Packet> {
    if p != q && len > |Dealt(d, q)| + 1 + IndexOf(Without(parties, q), p) then [Encode(d, ShareOf(d, q))] else []
  }

  /** The packet that `op` sends to `p`, if it sends one. */
  function Sends(op: Op, p: PartyId): seq<Packet> {
    if op.Send? && op.to == p then [op.packet] else []
  }

  lemma OpenGrows(cfg: Config, d: Deal, q: PartyId, len: nat, p: PartyId)
    requires Deals(cfg, d) && p in cfg.parties && q in cfg.parties
    ensures var others, i := Without(cfg.parties, q), len - |Dealt(d, q)| - 1;
      OpenPart(cfg.parties, d, q, len + 1, p) ==
        OpenPart(cfg.parties, d, q, len, p) +
          if 0 <= i < |others| && others[i] == p then [Encode(d, ShareOf(d, q))] else []
  {
    hide Call, IndexOf, Without;
    WithoutCount(cfg.parties, q);
    var others, i := Without(cfg.parties, q), len - |Dealt(d, q)| - 1;
    if 0 <= i < |others| { IndexOfAt(others, i); }
  }

  lemma DealFacts(cfg: Config, d: Deal, p: PartyId)
    requires Deals(cfg, d) && p in cfg.parties
    ensures |d.shares| == |d.receivers| && p in d.receivers && d.dealer in d.receivers && ValidConfig(cfg)
  {
  }

  lemma DealGrows(cfg: Config, d: Deal, q: PartyId, len: nat, p: PartyId)
    requires Deals(cfg, d) && p in cfg.parties && q in cfg.parties
    ensures var dealt := Dealt(d, q);
      DealPart(d, q, len + 1, p) ==
        DealPart(d, q, len, p) + if len < |dealt| && dealt[len] == p then [Encode(d, d.shares[len])] else []
    ensures |DealPart(d, q, len, p)| <= 1 && (len <= |Dealt(d, q)| ==> OpenPart(cfg.parties, d, q, len, p) == [])
  {
    hide Call, IndexOf, Without;
    if len < |Dealt(d, q)| { IndexOfAt(d.receivers, len); }
  }

  lemma NextSent(cfg: Config, d: Deal, q: PartyId, g: seq<Res>, p: PartyId)
    requires Deals(cfg, d) && p in cfg.parties && q in cfg.parties && Answered(cfg, q, g) && Honest(d, q, g)
    ensures DealPart(d, q, |g| + 1, p) + OpenPart(cfg.parties, d, q, |g| + 1, p) ==
            DealPart(d, q, |g|, p) + OpenPart(cfg.parties, d, q, |g|, p) + Sends(cfg.prog(q, g), p)
  {
    hide Call, Deals, DealPart, OpenPart, Honest, Answered, Without;
    DealFacts(cfg, d, q);
    DealFacts(cfg, d, p);
    HonestCall(cfg, d, q, g);
    DealGrows(cfg, d, q, |g|, p);
    OpenGrows(cfg, d, q, |g|, p);
    if |g| < |Dealt(d, q)| {
      assert OpenPart(cfg.parties, d, q, |g| + 1, p) == [];
    } else {
      assert DealPart(d, q, |g| + 1, p) == DealPart(d, q, |g|, p);
    }
  }

  /** What `q` has sent to `p`: at most the share it dealt to it, and then its own. */
  lemma {:induction false} SentSoFar(cfg: Config, d: Deal, q: PartyId, h: seq<Res>, p: PartyId)
    requires Deals(cfg, d) && p in cfg.parties && q in cfg.parties && Answered(cfg, q, h)
    requires h != [] ==> Honest(d, q, h[..|h| - 1])
    ensures SentTo(cfg, q, h, p) == DealPart(d, q, |h|, p) + OpenPart(cfg.parties, d, q, |h|, p)
  {
    if h != [] {
      var g := h[..|h| - 1];
      AnsweredPrefix(cfg, q, h, |g|);
      if g != [] { HonestPrefix(d, q, g, |g| - 1); }
      SentSoFar(cfg, d, q, g, p);
      hide Call, DealPart, OpenPart, Honest, Answered;
      NextSent(cfg, d, q, g, p);
    } else {
      hide Call;
    }
  }

  /** A result taken from `q` is the packet at its place among those that `q` has sent. */
  lemma TakenFrom(h: seq<Res>, i: nat, q: PartyId)
    requires i < |h| && h[i].Got? && h[i].sender == q
    ensures |GotFrom(h[..i], q)| < |GotFrom(h, q)|
    ensures GotFrom(h, q)[|GotFrom(h[..i], q)|] == h[i].packet
  {
    var g := h[..i + 1];
    assert g[..i] == h[..i];
    assert GotFrom(g, q) == GotFrom(h[..i], q) + [h[i].packet];
    GotFromPrefix(g, h, q);
  }

  lemma {:induction false} NothingGot(h: seq<Res>, q: PartyId)
    requires forall i :: 0 <= i < |h| ==> h[i].Done?
    ensures GotFrom(h, q) == []
  {
    if h != [] { NothingGot(h[..|h| - 1], q); }
  }

  /** The dealer's calls before its own receive, and nobody else's, return nothing from the network. */
  lemma BeforeShare(cfg: Config, d: Deal, p: PartyId, h: seq<Res>, q: PartyId)
    requires Deals(cfg, d) && p in cfg.parties && Answered(cfg, p, h) && Honest(d, p, h)
    ensures GotFrom(h[..if |h| < |Dealt(d, p)| then |h| else |Dealt(d, p)|], q) == []
  {
    var m := if |h| < |Dealt(d, p)| then |h| else |Dealt(d, p)|;
    forall i | 0 <= i < m ensures h[i].Done? {
      assert Answers(cfg, p, h, i);
      AnsweredPrefix(cfg, p, h, i);
      HonestPrefix(d, p, h, i);
      HonestCall(cfg, d, p, h[..i]);
    }
    NothingGot(h[..m], q);
  }

  lemma ShareCounts(cfg: Config, d: Deal, p: PartyId, h: seq<Res>)
    requires Deals(cfg, d) && p in cfg.parties && Answered(cfg, p, h) && Honest(d, p, h) && |h| > |Dealt(d, p)|
    ensures h[|Dealt(d, p)|] == Got(d.dealer, Encode(d, ShareOf(d, p)))
    ensures GotFrom(h, d.dealer) != []
  {
    var m := |Dealt(d, p)|;
    HonestPrefix(d, p, h, m);
    AnsweredPrefix(cfg, p, h, m);
    HonestCall(cfg, d, p, h[..m]);
    assert Answers(cfg, p, h, m) && HonestAt(d, p, m, h[m]);
    TakenFrom(h, m, d.dealer);
  }

  /** Only the receive from the dealer and those from anyone return packets. */
  lemma LastCall(cfg: Config, d: Deal, p: PartyId, g: seq<Res>, res: Res)
    requires Deals(cfg, d) && p in cfg.parties
    requires Answered(cfg, p, g + [res]) && Honest(d, p, g) && res.Got?
    ensures Answered(cfg, p, g)
    ensures |g| == |Dealt(d, p)| ==> res.sender == d.dealer
    ensures |g| == |Dealt(d, p)| || |g| >= CollectFrom(cfg.parties, d, p)
  {
    var h := g + [res];
    assert h[..|g|] == g;
    AnsweredPrefix(cfg, p, h, |g|);
    assert Answers(cfg, p, h, |g|);
    HonestCall(cfg, d, p, g);
  }

  /** The packet that extends an honest history is honest as well. */
  lemma HonestNext(cfg: Config, d: Deal, p: PartyId, g: seq<Res>, res: Res, q: PartyId, len: nat)
    requires Deals(cfg, d) && p in cfg.parties && q in cfg.parties
    requires Answered(cfg, p, g + [res]) && Honest(d, p, g) && res.Got? && res.sender == q
    requires GotFrom(g + [res], q) <= DealPart(d, q, len, p) + OpenPart(cfg.parties, d, q, len, p)
    ensures HonestAt(d, p, |g|, res)
  {
    hide Call, Answered, GotFrom, Honest;
    var h := g + [res];
    assert h[..|g|] == g;
    LastCall(cfg, d, p, g, res);
    TakenFrom(h, |g|, q);
    if |g| == |Dealt(d, p)| {
      BeforeShare(cfg, d, p, g, q);
      assert g[..|g|] == g;
    } else {
      if q == d.dealer { ShareCounts(cfg, d, p, g); }
    }
  }

  lemma HonestGrows(d: Deal, p: PartyId, g: seq<Res>, res: Res)
    requires |d.shares| == |d.receivers| && p in d.receivers && Honest(d, p, g) && HonestAt(d, p, |g|, res)
    ensures Honest(d, p, g + [res])
  {
    forall i | 0 <= i < |g| + 1 ensures HonestAt(d, p, i, (g + [res])[i]) {
      if i < |g| { assert HonestAt(d, p, i, g[i]); }
    }
  }

  /** What `p` has received from `q` is among what `q` dealt and revealed to it. */
  lemma ReceivedSoFar(cfg: Config, d: Deal, n: nat, q: PartyId, p: PartyId)
    requires Deals(cfg, d) && p in cfg.parties && q in cfg.parties
    requires HistOf(Run(cfg, n), q) != [] ==> Honest(d, q, HistOf(Run(cfg, n), q)[..|HistOf(Run(cfg, n), q)| - 1])
    ensures var len := |HistOf(Run(cfg, n), q)|;
      GotFrom(HistOf(Run(cfg, n), p), q) <= DealPart(d, q, len, p) + OpenPart(cfg.parties, d, q, len, p)
  {
    hide Run, Wf, GotFrom, SentTo, DealPart, OpenPart, HistOf, Honest, Answered, Call;
    AnsweredAt(cfg, n, q);
    SentSoFar(cfg, d, q, HistOf(Run(cfg, n), q), p);
    GotIsSentPrefix(cfg, n, q, p);
  }

  /** Nothing comes from outside the simulation. */
  lemma OutsiderGot(cfg: Config, n: nat, p: PartyId, q: PartyId)
    requires ValidConfig(cfg) && p in cfg.parties && q !in cfg.parties
    ensures GotFrom(HistOf(Run(cfg, n), p), q) == []
  {
    hide Run, Wf;
    OutsidersAreSilent(cfg, n, Link(q, p));
    LogsAt(cfg, n, Link(q, p));
    LinksAt(cfg, n);
    assert LinkOk(Run(cfg, n).sb, cfg.delay, Link(q, p));
    assert |PacketsGot(Run(cfg, n).sb, Link(q, p))| == 0;
  }

  /** A packet comes from a party of the simulation. */
  lemma SenderIsParty(cfg: Config, n: nat, p: PartyId, i: nat)
    requires ValidConfig(cfg) && p in cfg.parties && i < |HistOf(Run(cfg, n), p)| && HistOf(Run(cfg, n), p)[i].Got?
    ensures HistOf(Run(cfg, n), p)[i].sender in cfg.parties
  {
    hide Run, Wf;
    TakenFrom(HistOf(Run(cfg, n), p), i, HistOf(Run(cfg, n), p)[i].sender);
    if HistOf(Run(cfg, n), p)[i].sender !in cfg.parties {
      OutsiderGot(cfg, n, p, HistOf(Run(cfg, n), p)[i].sender);
    }
  }

  /** In every run every party receives only honest packets, in their places. */
  lemma {:induction false} HonestRun(cfg: Config, d: Deal, n: nat, p: PartyId)
    requires Deals(cfg, d) && p in cfg.parties
    ensures Honest(d, p, HistOf(Run(cfg, n), p))
    decreases n, 1
  {
    hide Run, Wf, HonestAt;
    if n == 0 {
      NothingYet(cfg, p);
      assert Honest(d, p, []);
    } else {
      HonestRun(cfg, d, n - 1, p);
      HistoryGrows(cfg, n, p);
      var g, h := HistOf(Run(cfg, n - 1), p), HistOf(Run(cfg, n), p);
      if g != h {
        assert h == g + [h[|g|]];
        HonestResult(cfg, d, n, p);
        HonestGrows(d, p, g, h[|g|]);
      }
    }
  }

  /** The step that gave `p` a result left the bounds on what it received from `q` in place. */
  lemma ReceivedNow(cfg: Config, d: Deal, n: nat, q: PartyId, p: PartyId)
    requires Deals(cfg, d) && p in cfg.parties && q in cfg.parties && n > 0
    requires Honest(d, q, HistOf(Run(cfg, n - 1), q))
    requires var g, h := HistOf(Run(cfg, n - 1), p), HistOf(Run(cfg, n), p); |h| == |g| + 1 && g <= h
    ensures var len := |HistOf(Run(cfg, n), q)|;
      GotFrom(HistOf(Run(cfg, n), p), q) <= DealPart(d, q, len, p) + OpenPart(cfg.parties, d, q, len, p)
  {
    hide Run, Wf, Honest, Call, DealPart, OpenPart, GotFrom;
    var e := HistOf(Run(cfg, n), q);
    if q == p {
      assert e[..|e| - 1] == HistOf(Run(cfg, n - 1), p);
    } else {
      OneAtATime(cfg, n, p, q);
      if e != [] { HonestPrefix(d, q, e, |e| - 1); }
    }
    ReceivedSoFar(cfg, d, n, q, p);
  }

  lemma HonestResult(cfg: Config, d: Deal, n: nat, p: PartyId)
    requires Deals(cfg, d) && p in cfg.parties && n > 0 && Honest(d, p, HistOf(Run(cfg, n - 1), p))
    requires var g, h := HistOf(Run(cfg, n - 1), p), HistOf(Run(cfg, n), p); |h| == |g| + 1 && g <= h
    ensures HonestAt(d, p, |HistOf(Run(cfg, n - 1), p)|, HistOf(Run(cfg, n), p)[|HistOf(Run(cfg, n - 1), p)|])
    decreases n, 0
  {
    hide Run, Wf, Honest, Call, DealPart, OpenPart, GotFrom, Answered;
    var g, h := HistOf(Run(cfg, n - 1), p), HistOf(Run(cfg, n), p);
    var res := h[|g|];
    if res.Got? {
      var q := res.sender;
      SenderIsParty(cfg, n, p, |g|);
      HonestRun(cfg, d, n - 1, q);
      ReceivedNow(cfg, d, n, q, p);
      AnsweredAt(cfg, n, p);
      assert h == g + [res];
      HonestNext(cfg, d, p, g, res, q, |HistOf(Run(cfg, n), q)|);
    }
  }

  /** Only one party's results grow in a step. */
  lemma OneAtATime(cfg: Config, n: nat, p: PartyId, q: PartyId)
    requires ValidConfig(cfg) && p in cfg.parties && q in cfg.parties && n > 0
    requires HistOf(Run(cfg, n - 1), p) != HistOf(Run(cfg, n), p) && p != q
    ensures HistOf(Run(cfg, n - 1), q) == HistOf(Run(cfg, n), q)
  {
    hide Run, StepTask, Halted;
    RunStep(cfg, n);
    var k := Run(cfg, n - 1);
    if k.cur.Some? {
      CallGrows(cfg, k, k.cur.value, p);
      CallGrows(cfg, k, k.cur.value, q);
    }
  }

  /** Past its own sends a party has only receptions. */
  lemma CollectionCall(cfg: Config, d: Deal, n: nat, p: PartyId, i: nat)
    requires Deals(cfg, d) && p in cfg.parties
    requires CollectFrom(cfg.parties, d, p) <= i < |HistOf(Run(cfg, n), p)|
    ensures var h := HistOf(Run(cfg, n), p);
      && h[i].Got? && h[i].sender in cfg.parties && h[i].sender != p
      && h[i].packet == Encode(d, ShareOf(d, h[i].sender))
      && i - CollectFrom(cfg.parties, d, p) < |cfg.parties| - 1
  {
    hide Run, Wf, Call;
    var h := HistOf(Run(cfg, n), p);
    HonestRun(cfg, d, n, p);
    AnsweredAt(cfg, n, p);
    HonestPrefix(d, p, h, i);
    AnsweredPrefix(cfg, p, h, i);
    HonestCall(cfg, d, p, h[..i]);
    assert Answers(cfg, p, h, i) && HonestAt(d, p, i, h[i]);
    WithoutCount(cfg.parties, p);
  }

  lemma GotTwice(h: seq<Res>, i: nat, j: nat, q: PartyId)
    requires i < j < |h| && h[i].Got? && h[j].Got? && h[i].sender == q && h[j].sender == q
    ensures |GotFrom(h[..i], q)| + 2 <= |GotFrom(h, q)|
  {
    assert h[..j][..i] == h[..i];
    TakenFrom(h[..j], i, q);
    TakenFrom(h, j, q);
  }

  lemma AtMostOneEach(cfg: Config, d: Deal, n: nat, p: PartyId, q: PartyId)
    requires Deals(cfg, d) && p in cfg.parties && q in cfg.parties
    ensures |GotFrom(HistOf(Run(cfg, n), p), q)| <= if q == d.dealer then 2 else 1
  {
    hide Run, Wf, Call, Honest;
    HonestRun(cfg, d, n, q);
    var e := HistOf(Run(cfg, n), q);
    if e != [] { HonestPrefix(d, q, e, |e| - 1); }
    ReceivedSoFar(cfg, d, n, q, p);
  }

  /** No party is collected from twice. */
  lemma CollectedOnce(cfg: Config, d: Deal, n: nat, p: PartyId, i: nat, j: nat)
    requires Deals(cfg, d) && p in cfg.parties
    requires CollectFrom(cfg.parties, d, p) <= i < j < |HistOf(Run(cfg, n), p)|
    ensures var h := HistOf(Run(cfg, n), p); h[i].Got? && h[j].Got? && h[i].sender != h[j].sender
  {
    hide Run, Wf, Call, GotFrom, Honest, Answered;
    CollectionCall(cfg, d, n, p, i);
    CollectionCall(cfg, d, n, p, j);
    var h := HistOf(Run(cfg, n), p);
    var q := h[i].sender;
    if h[j].sender == q {
      AtMostOneEach(cfg, d, n, p, q);
      if q == d.dealer {
        HonestRun(cfg, d, n, p);
        AnsweredAt(cfg, n, p);
        HonestPrefix(d, p, h, i);
        AnsweredPrefix(cfg, p, h, i);
        ShareCounts(cfg, d, p, h[..i]);
      }
      GotTwice(h, i, j, q);
    }
  }

  lemma {:induction false} NoneSince(h: seq<Res>, c: nat, q: PartyId)
    requires c <= |h| && forall i :: c <= i < |h| ==> !(h[i].Got? && h[i].sender == q)
    ensures GotFrom(h, q) == GotFrom(h[..c], q)
    decreases |h|
  {
    if c < |h| {
      NoneSince(h[..|h| - 1], c, q);
      assert h[..|h| - 1][..c] == h[..c];
    } else {
      assert h[..c] == h;
    }
  }

  /** Between its own receive and its collection a party only sends. */
  lemma RevealIsDone(cfg: Config, d: Deal, p: PartyId, h: seq<Res>, i: nat)
    requires Deals(cfg, d) && p in cfg.parties && Answered(cfg, p, h) && Honest(d, p, h)
    requires |Dealt(d, p)| < i < CollectFrom(cfg.parties, d, p) <= |h|
    ensures h[i].Done?
  {
    hide Call, Honest, Answered, Without;
    HonestPrefix(d, p, h, i);
    AnsweredPrefix(cfg, p, h, i);
    HonestCall(cfg, d, p, h[..i]);
    AnswersAt(cfg, p, h, i);
  }

  /** Before its collection a party has received its share, from the dealer, and nothing else. */
  lemma BeforeCollection(cfg: Config, d: Deal, p: PartyId, h: seq<Res>, q: PartyId)
    requires Deals(cfg, d) && p in cfg.parties && Answered(cfg, p, h) && Honest(d, p, h)
    requires |h| >= CollectFrom(cfg.parties, d, p)
    ensures |GotFrom(h[..CollectFrom(cfg.parties, d, p)], q)| == if q == d.dealer then 1 else 0
  {
    hide Call, Honest, Answered, Without;

    var c, m := CollectFrom(cfg.parties, d, p), |Dealt(d, p)|;
    forall i | m < i < c ensures h[i].Done? { RevealIsDone(cfg, d, p, h, i); }
    NoneSince(h[..c], m + 1, q);
    assert h[..c][..m + 1] == h[..m + 1] && h[..m + 1][..m] == h[..m];
    BeforeShare(cfg, d, p, h, q);
    ShareCounts(cfg, d, p, h);
    assert GotFrom(h[..m + 1], q) == GotFrom(h[..m], q) + if d.dealer == q then [h[m].packet] else [];
  }

  lemma AnswersAt(cfg: Config, p: PartyId, h: seq<Res>, i: nat)
    requires Answered(cfg, p, h) && i < |h|
    ensures Fits(cfg, cfg.prog(p, h[..i]), h[i])
  {
    assert Answers(cfg, p, h, i);
  }

  /** The next call of `p` in a run, by the number of its results. */
  lemma NextCall(cfg: Config, d: Deal, n: nat, p: PartyId)
    requires Deals(cfg, d) && p in cfg.parties
    ensures var len, op := |HistOf(Run(cfg, n), p)|, OpOf(cfg, Run(cfg, n), p);
      && (op.RecvFrom? <==> len == |Dealt(d, p)|) && (op.RecvFrom? ==> op.source == d.dealer)
      && (op.RecvAny? <==> 0 <= len - CollectFrom(cfg.parties, d, p) < |cfg.parties| - 1)
      && (op.Finish? <==> len - CollectFrom(cfg.parties, d, p) >= |cfg.parties| - 1)
      && !IsTimed(op)
    ensures |Without(cfg.parties, p)| == |cfg.parties| - 1
  {
    hide Run, Wf, Call, Honest, Answered;
    HonestRun(cfg, d, n, p);
    AnsweredAt(cfg, n, p);
    HonestCall(cfg, d, p, HistOf(Run(cfg, n), p));
    WithoutCount(cfg.parties, p);
  }

  /** At the end of a run no party is left waiting for its share. */
  lemma SharesArrive(cfg: Config, d: Deal, m: nat, p: PartyId)
    requires Deals(cfg, d) && p in cfg.parties && Halted(cfg, Run(cfg, m))
    ensures |HistOf(Run(cfg, m), p)| >= CollectFrom(cfg.parties, d, p)
  {
    hide Run, Wf, Call, Honest, Answered, Halted;
    var h := HistOf(Run(cfg, m), p);
    NextCall(cfg, d, m, p);
    EndedOps(cfg, m, p);
    if |h| == |Dealt(d, p)| {
      NextCall(cfg, d, m, d.dealer);
      EndedOps(cfg, m, d.dealer);
      EndedWaiting(cfg, m, p, d.dealer);
      HonestRun(cfg, d, m, p);
      AnsweredAt(cfg, m, p);
      assert h[..|h|] == h;
      BeforeShare(cfg, d, p, h, d.dealer);
      SentAt(cfg, d, m, d.dealer, p);
    }
  }

  lemma SentAt(cfg: Config, d: Deal, n: nat, q: PartyId, p: PartyId)
    requires Deals(cfg, d) && p in cfg.parties && q in cfg.parties
    ensures var len := |HistOf(Run(cfg, n), q)|;
      && |SentTo(cfg, q, HistOf(Run(cfg, n), q), p)| <= Expected(d, q, p)
      && (len >= CollectFrom(cfg.parties, d, q) ==> |SentTo(cfg, q, HistOf(Run(cfg, n), q), p)| == Expected(d, q, p))
      && (q == d.dealer && len >= |Dealt(d, q)| ==> SentTo(cfg, q, HistOf(Run(cfg, n), q), p) != [])
  {
    hide Run, Wf, Call, Honest, Answered;
    var h := HistOf(Run(cfg, n), q);
    HonestRun(cfg, d, n, q);
    AnsweredAt(cfg, n, q);
    if h != [] { HonestPrefix(d, q, h, |h| - 1); }
    SentSoFar(cfg, d, q, h, p);
  }

  /** How many packets `q` sends to `p` in all. */
  function Expected(d: Deal, q: PartyId, p: PartyId): nat {
    (if q == d.dealer then 1 else 0) + (if q == p then 0 else 1)
  }

  /** The parties whose shares `p` has collected, in order of arrival. */
  function Collected(parties: seq<PartyId>, d: Deal, p: PartyId, h: seq<Res>): (r: seq<PartyId>) {
    var c := CollectFrom(parties, d, p);
    if |h| < c then [] else seq(|h| - c, i requires 0 <= i < |h| - c => if h[c + i].Got? then h[c + i].sender else p)
  }

  lemma CollectedDistinct(cfg: Config, d: Deal, n: nat, p: PartyId)
    requires Deals(cfg, d) && p in cfg.parties
    ensures var r := Collected(cfg.parties, d, p, HistOf(Run(cfg, n), p));
      Distinct(r) && |r| <= |cfg.parties| - 1 && forall q :: q in r ==> q in cfg.parties && q != p
  {
    hide Run, Wf, Call, CollectFrom;
    var h, c := HistOf(Run(cfg, n), p), CollectFrom(cfg.parties, d, p);
    var r := Collected(cfg.parties, d, p, h);
    forall i | 0 <= i < |r| ensures r[i] in cfg.parties && r[i] != p {
      CollectionCall(cfg, d, n, p, c + i);
    }
    if |r| > 0 { CollectionCall(cfg, d, n, p, |h| - 1); }
    forall i, j | 0 <= i < j < |r| ensures r[i] != r[j] {
      CollectedOnce(cfg, d, n, p, c + i, c + j);
    }
  }

  /** A party that has been waited for in vain would have been collected from. */
  lemma CollectedIfReceived(cfg: Config, d: Deal, n: nat, p: PartyId, q: PartyId)
    requires Deals(cfg, d) && p in cfg.parties && |HistOf(Run(cfg, n), p)| >= CollectFrom(cfg.parties, d, p)
    ensures q in Collected(cfg.parties, d, p, HistOf(Run(cfg, n), p)) <==>
            |GotFrom(HistOf(Run(cfg, n), p), q)| > if q == d.dealer then 1 else 0
  {
    hide Run, Wf, Call, Honest, Answered, GotFrom, CollectFrom;
    var h, c := HistOf(Run(cfg, n), p), CollectFrom(cfg.parties, d, p);
    HonestRun(cfg, d, n, p);
    AnsweredAt(cfg, n, p);
    BeforeCollection(cfg, d, p, h, q);
    var r := Collected(cfg.parties, d, p, h);
    if q in r {
      var i :| 0 <= i < |r| && r[i] == q;
      CollectionCall(cfg, d, n, p, c + i);
      TakenFrom(h, c + i, q);
      assert h[..c + i][..c] == h[..c] && h[..c] <= h[..c + i];
      GotFromPrefix(h[..c], h[..c + i], q);
    } else {
      forall i | c <= i < |h| ensures !(h[i].Got? && h[i].sender == q) {
        CollectionCall(cfg, d, n, p, i);
        assert r[i - c] == h[i].sender;
      }
      NoneSince(h, c, q);
    }
  }

  /** No party is left waiting for the others' shares. */
  lemma EveryoneFinishes(cfg: Config, d: Deal, m: nat, p: PartyId)
    requires Deals(cfg, d) && p in cfg.parties && Halted(cfg, Run(cfg, m))
    ensures OpOf(cfg, Run(cfg, m), p).Finish?
  {
    hide Run, Wf, Call, Halted, GotFrom, SentTo;
    NextCall(cfg, d, m, p);
    SharesArrive(cfg, d, m, p);
    var h, others := HistOf(Run(cfg, m), p), Without(cfg.parties, p);
    var r := Collected(cfg.parties, d, p, h);
    if !OpOf(cfg, Run(cfg, m), p).Finish? {
      forall q | q in others ensures q in r {
        SharesArrive(cfg, d, m, q);
        EndedWaiting(cfg, m, p, q);
        SentAt(cfg, d, m, q, p);
        CollectedIfReceived(cfg, d, m, p, q);
      }
      WithoutCount(cfg.parties, p);
      ElementsCount(others);
      ElementsCount(r);
      SubsetCount(Elements(others), Elements(r));
    }
  }

  /** Whose shares `p` reconstructs from: its own and, in order of arrival, those of the others. */
  function Owners(parties: seq<PartyId>, d: Deal, p: PartyId, h: seq<Res>): seq<PartyId> {
    [p] + Collected(parties, d, p, h)
  }

  function ReadShare(res: Res): int {
    if res.Got? && Pop(res.packet).Some? then Pop(res.packet).value else 0
  }

  /** The shares `p` reconstructs from, in the same order. */
  function Shares(parties: seq<PartyId>, d: Deal, p: PartyId, h: seq<Res>): (r: seq<int>)
    requires |h| > |Dealt(d, p)|
  {
    var c := CollectFrom(parties, d, p);
    [ReadShare(h[|Dealt(d, p)|])]
    + if |h| < c then [] else seq(|h| - c, i requires 0 <= i < |h| - c => ReadShare(h[c + i]))
  }

  lemma NothingLeft(cfg: Config, d: Deal, m: nat, p: PartyId, q: PartyId)
    requires Deals(cfg, d) && p in cfg.parties && q in cfg.parties && Halted(cfg, Run(cfg, m))
    requires q != p ==> q in Collected(cfg.parties, d, p, HistOf(Run(cfg, m), p))
    ensures |GotOn(Run(cfg, m).sb, Link(q, p))| == |SentOn(Run(cfg, m).sb, Link(q, p))|
    ensures Queue(Run(cfg, m).sb, Link(q, p)) == []
  {
    hide Run, Wf, Call, Halted, Collected, GotFrom, SentTo, Honest, Answered;
    SharesArrive(cfg, d, m, p);
    CollectedIfReceived(cfg, d, m, p, q);
    HonestRun(cfg, d, m, p);
    AnsweredAt(cfg, m, p);
    ShareCounts(cfg, d, p, HistOf(Run(cfg, m), p));
    SentAt(cfg, d, m, q, p);
    GotIsSentPrefix(cfg, m, q, p);
    LinksAt(cfg, m);
    assert LinkOk(Run(cfg, m).sb, cfg.delay, Link(q, p));
  }

  /** By the end of the run every party has collected from every other exactly once. */
  lemma CollectsAll(cfg: Config, d: Deal, m: nat, p: PartyId)
    requires Deals(cfg, d) && p in cfg.parties && Halted(cfg, Run(cfg, m))
    ensures var owners := Owners(cfg.parties, d, p, HistOf(Run(cfg, m), p));
      Distinct(owners) && |owners| == |cfg.parties| && forall q :: q in owners <==> q in cfg.parties
  {
    hide Run, Wf, Call, Halted;
    SharesArrive(cfg, d, m, p);
    EveryoneFinishes(cfg, d, m, p);
    NextCall(cfg, d, m, p);
    CollectedDistinct(cfg, d, m, p);
    var h := HistOf(Run(cfg, m), p);

    var owners := Owners(cfg.parties, d, p, h);
    assert |owners| == |cfg.parties|;
    DistinctCovers(owners, cfg.parties);
  }

  /**
   * One deal and one opening, under any delays: every run that has ended has finished every party;
   * each party holds exactly one share per party, paired with its true owner; and no packet between
   * the parties is left queued or in flight.
   */
  lemma DealThenOpenCompletes(cfg: Config, d: Deal, m: nat, p: PartyId)
    requires Deals(cfg, d) && p in cfg.parties && Halted(cfg, Run(cfg, m))
    ensures p in Run(cfg, m).finished && |HistOf(Run(cfg, m), p)| > |Dealt(d, p)|
    ensures var owners := Owners(cfg.parties, d, p, HistOf(Run(cfg, m), p));
      && Distinct(owners) && |owners| == |cfg.parties| && (forall q :: q in owners <==> q in cfg.parties)
      && Shares(cfg.parties, d, p, HistOf(Run(cfg, m), p)) ==
         seq(|owners|, i requires 0 <= i < |owners| => if owners[i] in cfg.parties then ShareOf(d, owners[i]) else 0)
    ensures forall q :: q in cfg.parties ==>
      |GotOn(Run(cfg, m).sb, Link(q, p))| == |SentOn(Run(cfg, m).sb, Link(q, p))|
        && Queue(Run(cfg, m).sb, Link(q, p)) == []
  {
    hide Run, Wf, Call, Halted, GotFrom, SentTo, Honest, Answered;
    SharesArrive(cfg, d, m, p);
    EveryoneFinishes(cfg, d, m, p);
    EndedOps(cfg, m, p);
    CollectsAll(cfg, d, m, p);
    SharesMatch(cfg, d, m, p);
    forall q | q in cfg.parties
      ensures |GotOn(Run(cfg, m).sb, Link(q, p))| == |SentOn(Run(cfg, m).sb, Link(q, p))|
        && Queue(Run(cfg, m).sb, Link(q, p)) == []
    {
      assert q in Owners(cfg.parties, d, p, HistOf(Run(cfg, m), p));
      NothingLeft(cfg, d, m, p, q);
    }
  }

  /** Every collected share is its owner's. */
  lemma SharesMatch(cfg: Config, d: Deal, n: nat, p: PartyId)
    requires Deals(cfg, d) && p in cfg.parties && |HistOf(Run(cfg, n), p)| >= CollectFrom(cfg.parties, d, p)
    ensures var owners := Owners(cfg.parties, d, p, HistOf(Run(cfg, n), p));
      Shares(cfg.parties, d, p, HistOf(Run(cfg, n), p)) ==
        seq(|owners|, i requires 0 <= i < |owners| => if owners[i] in cfg.parties then ShareOf(d, owners[i]) else 0)
  {
    hide GotFrom, SentTo, Run, Wf, Call, Honest, Answered, Without, ShareOf, HistOf;
    var h, c := HistOf(Run(cfg, n), p), CollectFrom(cfg.parties, d, p);
    HonestRun(cfg, d, n, p);
    AnsweredAt(cfg, n, p);
    ShareCounts(cfg, d, p, h);
    var owners := Owners(cfg.parties, d, p, h);
    var shares := Shares(cfg.parties, d, p, h);
    forall i | 0 <= i < |shares| ensures owners[i] in cfg.parties && shares[i] == ShareOf(d, owners[i]) {
      if i > 0 {
        CollectionCall(cfg, d, n, p, c + i - 1);
        assert owners[i] == h[c + i - 1].sender && shares[i] == ReadShare(h[c + i - 1]);
      } else {
        assert shares[0] == ReadShare(h[|Dealt(d, p)|]);
      }
    }
  }

  /** The protocol makes a bounded number of calls, so every run of it ends. */
  lemma DealThenOpenEnds(cfg: Config, d: Deal)
    requires Deals(cfg, d)
    ensures exists m: nat :: Halted(cfg, Run(cfg, m)) && AllFinished(cfg, Run(cfg, m))
  {
    hide Run, Wf;
    var bound := |d.receivers| + 1 + 2 * |cfg.parties|;
    assert Bounded(cfg, bound);
    var m := HaltsFrom(cfg, bound, 0);
    forall p | p in cfg.parties ensures p in Run(cfg, m).finished {
      DealThenOpenCompletes(cfg, d, m, p);
    }
  }
}
