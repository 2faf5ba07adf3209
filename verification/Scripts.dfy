/**
 * Protocols laid down in phases: in every phase each party has a fixed list of sends and named
 * receives, whose packets may depend on all it has received before. Every run of such a protocol,
 * under any delays, comes to the transcript that the phases prescribe.
 */
module Scripts {
  import opened Wrappers
  import opened SimTypes
  import opened Kernel
  import opened Links
  import opened Histories
  import opened DelayIndependence

  datatype Move = Tell(to: PartyId) | Ask(from: PartyId)

  /** One phase: every party's moves and the one packet that a party tells another. */
  datatype Phase = Phase(moves: PartyId -> seq<Move>, packet: (PartyId, PartyId) -> Packet, rank: (PartyId, nat) -> nat)

  function ResultOf(f: Phase, p: PartyId, move: Move): Res {
    match move
    case Tell(_) => Done
    case Ask(q) => Got(q, f.packet(q, p))
  }

  /** What the calls of `p` return in the phase. */
  function Results(f: Phase, p: PartyId): (r: seq<Res>)
    ensures |r| == |f.moves(p)| && forall i :: 0 <= i < |r| ==> r[i] == ResultOf(f, p, f.moves(p)[i])
  {
    seq(|f.moves(p)|, i requires 0 <= i < |f.moves(p)| => ResultOf(f, p, f.moves(p)[i]))
  }

  /** What the calls of `p` return in the first `n` phases. */
  function Transcript(phases: seq<Phase>, n: nat, p: PartyId): seq<Res>
    requires n <= |phases|
  {
    if n == 0 then [] else Transcript(phases, n - 1, p) + Results(phases[n - 1], p)
  }

  /** And in the first `i` moves of the phase after that. */
  function Until(phases: seq<Phase>, n: nat, i: nat, p: PartyId): seq<Res>
    requires n < |phases| && i <= |phases[n].moves(p)|
  {
    Transcript(phases, n, p) + Results(phases[n], p)[..i]
  }

  /** Move j of `q` tells what move i of `p` asks for. */
  ghost predicate Meets(parties: seq<PartyId>, f: Phase, p: PartyId, i: nat, q: PartyId, j: nat) {
    && p in parties && q in parties && i < |f.moves(p)| && j < |f.moves(q)|
    && f.moves(p)[i] == Ask(q) && f.moves(q)[j] == Tell(p)
  }

  /** Every packet that is told is asked for, once, and no two parties wait for each other. */
  ghost predicate Sensible(parties: seq<PartyId>, f: Phase) {
    && (forall p :: p in parties ==> Distinct(f.moves(p)))
    && (forall p, q :: p in parties && Tell(q) in f.moves(p) ==> q in parties && Ask(p) in f.moves(q))
    && (forall p, q :: p in parties && Ask(q) in f.moves(p) ==> q in parties && Tell(p) in f.moves(q))
    && (forall p, i, j :: p in parties && 0 <= i <= j < |f.moves(p)| ==> f.rank(p, i) <= f.rank(p, j))
    && (forall p, q, i, j :: Meets(parties, f, p, i, q, j) ==> f.rank(q, j) < f.rank(p, i))
  }

  function CallOf(f: Phase, p: PartyId, move: Move): Op {
    match move
    case Tell(to) => Op.Send(to, f.packet(p, to))
    case Ask(q) => RecvFrom(q)
  }

  /** The protocol, as long as it gets what the phases prescribe, does what they prescribe. */
  ghost predicate Follows(cfg: Config, phases: seq<Phase>) {
    && ValidConfig(cfg) && OnlyDirect(cfg)
    && (forall n :: 0 <= n < |phases| ==> Sensible(cfg.parties, phases[n]))
    && (forall p, n, i :: p in cfg.parties && 0 <= n < |phases| && 0 <= i < |phases[n].moves(p)| ==>
          cfg.prog(p, Until(phases, n, i, p)) == CallOf(phases[n], p, phases[n].moves(p)[i]))
    && (forall p :: p in cfg.parties ==> cfg.prog(p, Transcript(phases, |phases|, p)) == Finish)
  }

  lemma UntilNext(phases: seq<Phase>, n: nat, i: nat, p: PartyId)
    requires n < |phases| && i < |phases[n].moves(p)|
    ensures Until(phases, n, i + 1, p) == Until(phases, n, i, p) + [ResultOf(phases[n], p, phases[n].moves(p)[i])]
  {
    var r := Results(phases[n], p);
    assert r[..i + 1] == r[..i] + [r[i]];
  }

  lemma UntilEnds(phases: seq<Phase>, n: nat, p: PartyId)
    requires n < |phases|
    ensures Until(phases, n, 0, p) == Transcript(phases, n, p)
    ensures Until(phases, n, |phases[n].moves(p)|, p) == Transcript(phases, n + 1, p)
  {
    var r := Results(phases[n], p);
    assert r[..0] == [] && r[..|r|] == r;
  }

  lemma TranscriptPrefix(phases: seq<Phase>, n: nat, m: nat, p: PartyId)
    requires n <= m <= |phases|
    ensures Transcript(phases, n, p) <= Transcript(phases, m, p)
    decreases m
  {
    if n < m { TranscriptPrefix(phases, n, m - 1, p); }
  }

  lemma UntilPrefix(phases: seq<Phase>, n: nat, i: nat, p: PartyId)
    requires n < |phases| && i <= |phases[n].moves(p)|
    ensures Until(phases, n, i, p) <= Transcript(phases, |phases|, p)
  {
    TranscriptPrefix(phases, n + 1, |phases|, p);
    var r := Results(phases[n], p);
    assert Transcript(phases, n + 1, p) == Until(phases, n, i, p) + r[i..];
  }

  /** In a phase `p` has asked `q` if the move is among those made. */
  lemma {:induction false} AskedSoFar(cfg: Config, phases: seq<Phase>, n: nat, i: nat, p: PartyId, q: PartyId)
    requires n < |phases| && i <= |phases[n].moves(p)| && Distinct(phases[n].moves(p))
    ensures GotFrom(Until(phases, n, i, p), q) ==
            GotFrom(Transcript(phases, n, p), q) +
              if Ask(q) in phases[n].moves(p)[..i] then [phases[n].packet(q, p)] else []
    decreases i
  {
    hide SentTo, GotFrom, Until, Transcript;
    var moves := phases[n].moves(p);
    if i == 0 {
      UntilEnds(phases, n, p);
    } else {
      AskedSoFar(cfg, phases, n, i - 1, p, q);
      UntilNext(phases, n, i - 1, p);
      Grow(cfg, p, Until(phases, n, i - 1, p), ResultOf(phases[n], p, moves[i - 1]), q);
      assert moves[..i] == moves[..i - 1] + [moves[i - 1]];
    }
  }

  lemma {:induction false} ToldSoFar(cfg: Config, phases: seq<Phase>, n: nat, i: nat, q: PartyId, p: PartyId)
    requires Follows(cfg, phases) && q in cfg.parties && n < |phases| && i <= |phases[n].moves(q)|
    ensures SentTo(cfg, q, Until(phases, n, i, q), p) ==
            SentTo(cfg, q, Transcript(phases, n, q), p) +
              if Tell(p) in phases[n].moves(q)[..i] then [phases[n].packet(q, p)] else []
    decreases i
  {
    hide SentTo, GotFrom, Until, Transcript, OnlyDirect;
    var moves := phases[n].moves(q);
    assert Sensible(cfg.parties, phases[n]);
    if i == 0 {
      UntilEnds(phases, n, q);
    } else {
      ToldSoFar(cfg, phases, n, i - 1, q, p);
      UntilNext(phases, n, i - 1, q);
      Grow(cfg, q, Until(phases, n, i - 1, q), ResultOf(phases[n], q, moves[i - 1]), p);
      assert moves[..i] == moves[..i - 1] + [moves[i - 1]];
    }
  }

  /** Between the phases no packet is under way. */
  lemma {:induction false} Balanced(cfg: Config, phases: seq<Phase>, n: nat, q: PartyId, p: PartyId)
    requires Follows(cfg, phases) && q in cfg.parties && p in cfg.parties && n <= |phases|
    ensures SentTo(cfg, q, Transcript(phases, n, q), p) == GotFrom(Transcript(phases, n, p), q)
  {
    hide SentTo, GotFrom, Until, Transcript, OnlyDirect;
    if n > 0 {
      var f := phases[n - 1];
      assert Sensible(cfg.parties, f);
      Balanced(cfg, phases, n - 1, q, p);
      AskedSoFar(cfg, phases, n - 1, |f.moves(p)|, p, q);
      ToldSoFar(cfg, phases, n - 1, |f.moves(q)|, q, p);
      UntilEnds(phases, n - 1, p);
      UntilEnds(phases, n - 1, q);
      assert f.moves(p)[..|f.moves(p)|] == f.moves(p) && f.moves(q)[..|f.moves(q)|] == f.moves(q);
    } else {
      NothingSaid(cfg, phases, q, p);
    }
  }

  lemma NothingSaid(cfg: Config, phases: seq<Phase>, q: PartyId, p: PartyId)
    ensures Transcript(phases, 0, p) == [] && GotFrom([], q) == [] && SentTo(cfg, q, [], p) == []
    ensures Transcript(phases, 0, q) == []
  {
  }

  /** Where a prefix of the transcript ends: in some phase, before some move, or at the end. */
  lemma {:induction false} Locate(phases: seq<Phase>, m: nat, p: PartyId, h: seq<Res>) returns (n: nat, i: nat)
    requires m <= |phases| && h <= Transcript(phases, m, p)
    ensures n <= m && (n == m ==> h == Transcript(phases, m, p))
    ensures n < m ==> i < |phases[n].moves(p)| && h == Until(phases, n, i, p)
    decreases m
  {
    n, i := m, 0;
    if |h| < |Transcript(phases, m, p)| {
      var before := Transcript(phases, m - 1, p);
      if |h| < |before| {
        n, i := Locate(phases, m - 1, p, h);
      } else {
        n, i := m - 1, |h| - |before|;
        assert h == before + Results(phases[m - 1], p)[..i];
      }
    }
  }

  /** The answer to an ask: among what `q` has sent to `p`, the packet after those received. */
  lemma AskIsAnswered(cfg: Config, phases: seq<Phase>, n: nat, i: nat, p: PartyId, q: PartyId, g: seq<Res>)
    requires Follows(cfg, phases) && p in cfg.parties && n < |phases| && i < |phases[n].moves(p)|
      && phases[n].moves(p)[i] == Ask(q)
    requires g <= Transcript(phases, |phases|, q)
    ensures q in cfg.parties
    ensures var c := |GotFrom(Until(phases, n, i, p), q)|;
      |SentTo(cfg, q, g, p)| > c ==> SentTo(cfg, q, g, p)[c] == phases[n].packet(q, p)
  {
    hide SentTo, GotFrom, Until, Transcript, OnlyDirect;
    var f := phases[n];
    assert Sensible(cfg.parties, f);
    assert Ask(q) in f.moves(p);
    assert Ask(q) !in f.moves(p)[..i];
    AskedSoFar(cfg, phases, n, i, p, q);
    Balanced(cfg, phases, n, q, p);
    ToldSoFar(cfg, phases, n, |f.moves(q)|, q, p);
    assert f.moves(q)[..|f.moves(q)|] == f.moves(q);
    UntilPrefix(phases, n, |f.moves(q)|, q);
    SentToPrefix(cfg, q, Until(phases, n, |f.moves(q)|, q), Transcript(phases, |phases|, q), p);
    SentToPrefix(cfg, q, g, Transcript(phases, |phases|, q), p);
  }

  lemma CallAt(cfg: Config, phases: seq<Phase>, p: PartyId, h: seq<Res>) returns (n: nat, i: nat)
    requires Follows(cfg, phases) && p in cfg.parties && h <= Transcript(phases, |phases|, p)
    ensures n <= |phases| && (n == |phases| ==> h == Transcript(phases, |phases|, p) && cfg.prog(p, h) == Finish)
    ensures n < |phases| ==> i < |phases[n].moves(p)| && h == Until(phases, n, i, p)
    ensures n < |phases| ==> cfg.prog(p, h) == CallOf(phases[n], p, phases[n].moves(p)[i])
  {
    n, i := Locate(phases, |phases|, p, h);
  }

  /** In every run, what the calls of a party have returned so far is what the phases prescribe. */
  lemma {:induction false} OnScript(cfg: Config, phases: seq<Phase>, m: nat, p: PartyId)
    requires Follows(cfg, phases) && p in cfg.parties
    ensures HistOf(Run(cfg, m), p) <= Transcript(phases, |phases|, p)
    decreases m, 1
  {
    hide Run, Wf, Transcript, Follows;
    assert ValidConfig(cfg) by { FollowsIsValid(cfg, phases); }
    if m == 0 {
      NothingYet(cfg, p);
    } else {
      OnScript(cfg, phases, m - 1, p);
      if HistOf(Run(cfg, m), p) != HistOf(Run(cfg, m - 1), p) {
        StepOnScript(cfg, phases, m, p);
      }
    }
  }

  lemma FollowsIsValid(cfg: Config, phases: seq<Phase>)
    requires Follows(cfg, phases)
    ensures ValidConfig(cfg) && OnlyDirect(cfg)
  {
  }

  lemma StepOnScript(cfg: Config, phases: seq<Phase>, m: nat, p: PartyId)
    requires Follows(cfg, phases) && p in cfg.parties && m > 0
    requires HistOf(Run(cfg, m - 1), p) <= Transcript(phases, |phases|, p)
      && HistOf(Run(cfg, m), p) != HistOf(Run(cfg, m - 1), p)
    ensures HistOf(Run(cfg, m), p) <= Transcript(phases, |phases|, p)
    decreases m, 0
  {
    hide Run, Wf, Transcript, Follows, Until, GotFrom, SentTo, HistOf;
    FollowsIsValid(cfg, phases);
    CompletedCall(cfg, m, p);
    var k := Run(cfg, m - 1);
    var h := HistOf(k, p);
    var n, i := CallAt(cfg, phases, p, h);
    var move := phases[n].moves(p)[i];
    if move.Ask? {
      var q := move.from;
      AskIsAnswered(cfg, phases, n, i, p, q, []);
      OnScript(cfg, phases, m - 1, q);
      AskIsAnswered(cfg, phases, n, i, p, q, HistOf(k, q));
      GotIsSentPrefix(cfg, m - 1, q, p);
    }
    UntilNext(phases, n, i, p);
    UntilPrefix(phases, n, i + 1, p);
  }

  /** Whoever has not sent the packet of the phase yet stands before the move that sends it. */
  lemma NotToldYet(cfg: Config, phases: seq<Phase>, n: nat, i: nat, p: PartyId, q: PartyId, g: seq<Res>)
        returns (n': nat, i': nat)
    requires Follows(cfg, phases) && p in cfg.parties && n < |phases| && i < |phases[n].moves(p)|
      && phases[n].moves(p)[i] == Ask(q)
    requires q in cfg.parties && g <= Transcript(phases, |phases|, q)
    requires |SentTo(cfg, q, g, p)| <= |GotFrom(Until(phases, n, i, p), q)|
    ensures n' <= n && i' < |phases[n'].moves(q)| && g == Until(phases, n', i', q)
    ensures n' == n ==> phases[n].rank(q, i') < phases[n].rank(p, i)
  {
    hide SentTo, GotFrom, Until, Transcript, OnlyDirect;
    var f := phases[n];
    assert Sensible(cfg.parties, f);
    assert Ask(q) in f.moves(p);
    AskedSoFar(cfg, phases, n, i, p, q);
    assert Ask(q) !in f.moves(p)[..i];
    Balanced(cfg, phases, n, q, p);
    var j :| 0 <= j < |f.moves(q)| && f.moves(q)[j] == Tell(p);
    ToldSoFar(cfg, phases, n, j + 1, q, p);
    assert f.moves(q)[..j + 1][j] == Tell(p) && Meets(cfg.parties, f, p, i, q, j);
    UntilPrefix(phases, n, j + 1, q);
    if |g| >= |Until(phases, n, j + 1, q)| {
      assert Until(phases, n, j + 1, q) <= g;
      SentToPrefix(cfg, q, Until(phases, n, j + 1, q), g, p);
      assert false;
    }
    n', i' := Locate(phases, |phases|, q, g);
    LaterIsLonger(phases, n', i', n, j, q, g);
  }

  /** A prefix of the transcript that is no longer than another ends no later. */
  lemma LaterIsLonger(phases: seq<Phase>, n': nat, i': nat, n: nat, j: nat, q: PartyId, g: seq<Res>)
    requires n < |phases| && j < |phases[n].moves(q)| && n' <= |phases|
    requires |g| < |Until(phases, n, j + 1, q)|
    requires n' < |phases| ==> i' < |phases[n'].moves(q)| && g == Until(phases, n', i', q)
    requires n' == |phases| ==> g == Transcript(phases, |phases|, q)
    ensures n' <= n && (n' == n ==> i' <= j)
  {
    UntilPrefix(phases, n, j + 1, q);
    if n' > n { TranscriptPrefix(phases, n + 1, n', q); }
  }

  /** When a run has ended, no party is left in the middle of its script. */
  lemma {:induction false} NoneWaits(cfg: Config, phases: seq<Phase>, m: nat, p: PartyId, n: nat, i: nat)
    requires Follows(cfg, phases) && p in cfg.parties && n < |phases| && i < |phases[n].moves(p)|
    requires ValidConfig(cfg) && Halted(cfg, Run(cfg, m)) && HistOf(Run(cfg, m), p) == Until(phases, n, i, p)
    ensures false
    decreases n, phases[n].rank(p, i)
  {
    hide Run, Wf, Transcript, Until, GotFrom, SentTo, Halted;
    assert cfg.prog(p, Until(phases, n, i, p)) == CallOf(phases[n], p, phases[n].moves(p)[i]);
    EndedOps(cfg, m, p);
    var q := phases[n].moves(p)[i].from;
    AskIsAnswered(cfg, phases, n, i, p, q, []);
    EndedWaiting(cfg, m, p, q);
    OnScript(cfg, phases, m, q);
    var n', i' := NotToldYet(cfg, phases, n, i, p, q, HistOf(Run(cfg, m), q));
    NoneWaits(cfg, phases, m, q, n', i');
  }

  /**
   * In every run that has ended, under any delays and in any order of the party list, every party has
   * finished and its calls have returned exactly what the phases prescribe.
   */
  lemma ScriptIsRun(cfg: Config, phases: seq<Phase>, m: nat, p: PartyId)
    requires Follows(cfg, phases) && p in cfg.parties
    requires ValidConfig(cfg) && Halted(cfg, Run(cfg, m))
    ensures HistOf(Run(cfg, m), p) == Transcript(phases, |phases|, p) && p in Run(cfg, m).finished
  {
    hide Run, Wf, Transcript, Until, Halted, Follows;
    OnScript(cfg, phases, m, p);
    var n, i := CallAt(cfg, phases, p, HistOf(Run(cfg, m), p));
    if n < |phases| {
      NoneWaits(cfg, phases, m, p, n, i);
    }
    EndedOps(cfg, m, p);
  }
}
