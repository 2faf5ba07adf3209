/**
 * Arithmetic circuits on shared values, layer by layer: additions and multiplications by constants are
 * local, and all products of a layer are taken at once, with a triple each and one opening. All parties
 * are seen side by side. The degree may be any below the number of parties.
 */
module Circuits {
  import opened Wrappers
  import opened SimTypes
  import opened Zp
  import opened Polynomials
  import opened Shamir
  import opened KingOpening
  import opened Triples
  import opened BeaverMul
  import opened DN07

  /** What a gate multiplies: an expression, linear in the wires so far. */
  datatype Operand =
    | Wire(index: nat)
    | Sum(left: Operand, right: Operand)
    | Less(left: Operand, right: Operand)
    | Multiple(factor: int, arg: Operand)
    | Shifted(added: int, arg: Operand)

  datatype Gate = Gate(left: Operand, right: Operand)

  /** The products of one layer are wires for the layers after it. */
  datatype Circuit = Circuit(inputs: nat, layers: seq<seq<Gate>>)

  predicate Uses(op: Operand, wires: nat) {
    match op
    case Wire(i) => i < wires
    case Sum(l, r) => Uses(l, wires) && Uses(r, wires)
    case Less(l, r) => Uses(l, wires) && Uses(r, wires)
    case Multiple(_, x) => Uses(x, wires)
    case Shifted(_, x) => Uses(x, wires)
  }

  /** The number of wires before layer `n`. */
  function Wires(c: Circuit, n: nat): nat
    requires n <= |c.layers|
  {
    if n == 0 then c.inputs else Wires(c, n - 1) + |c.layers[n - 1]|
  }

  predicate Fits(layer: seq<Gate>, wires: nat) {
    forall i :: 0 <= i < |layer| ==> Uses(layer[i].left, wires) && Uses(layer[i].right, wires)
  }

  predicate WellFormed(c: Circuit) {
    forall n :: 0 <= n < |c.layers| ==> c.layers[n] != [] && Fits(c.layers[n], Wires(c, n))
  }

  // The meaning of a circuit.

  function ValueOf(op: Operand, values: seq<int>): int
    requires Uses(op, |values|)
  {
    match op
    case Wire(i) => values[i]
    case Sum(l, r) => ValueOf(l, values) + ValueOf(r, values)
    case Less(l, r) => ValueOf(l, values) - ValueOf(r, values)
    case Multiple(k, x) => k * ValueOf(x, values)
    case Shifted(k, x) => ValueOf(x, values) + k
  }

  function GateValues(layer: seq<Gate>, values: seq<int>): (r: seq<int>)
    requires Fits(layer, |values|)
    ensures |r| == |layer|
  {
    seq(|layer|, i requires 0 <= i < |layer| => ValueOf(layer[i].left, values) * ValueOf(layer[i].right, values))
  }

  /** The values on the wires before layer `n`. */
  function Values(c: Circuit, inputs: seq<int>, n: nat): (r: seq<int>)
    requires WellFormed(c) && |inputs| == c.inputs && n <= |c.layers|
    ensures |r| == Wires(c, n)
  {
    if n == 0 then inputs
    else
      var before := Values(c, inputs, n - 1);
      before + GateValues(c.layers[n - 1], before)
  }

  // A party's part.

  function OperandShare(p: int, op: Operand, shares: seq<Share>): Share
    requires p > 0 && Uses(op, |shares|)
  {
    match op
    case Wire(i) => shares[i]
    case Sum(l, r) => AddShare(p, OperandShare(p, l, shares), OperandShare(p, r, shares))
    case Less(l, r) => SubShare(p, OperandShare(p, l, shares), OperandShare(p, r, shares))
    case Multiple(k, x) => MulConst(p, OperandShare(p, x, shares), k)
    case Shifted(k, x) => AddConst(p, OperandShare(p, x, shares), k)
  }

  /** What a party contributes to the opening of a layer: both operands of every gate, masked. */
  function LayerMasks(p: int, layer: seq<Gate>, shares: seq<Share>, triples: seq<ShamirTriple>): (r: seq<Share>)
    requires p > 0 && Fits(layer, |shares|) && |triples| == |layer|
    ensures |r| == 2 * |layer|
  {
    seq(2 * |layer|, i requires 0 <= i < 2 * |layer| =>
      if i % 2 == 0 then SubShare(p, OperandShare(p, layer[i / 2].left, shares), triples[i / 2].a)
      else SubShare(p, OperandShare(p, layer[i / 2].right, shares), triples[i / 2].b))
  }

  /** The products of a layer, from the opened values. */
  function LayerProducts(p: int, triples: seq<ShamirTriple>, values: seq<int>): (r: seq<Share>)
    requires p > 0 && |values| == 2 * |triples|
    ensures |r| == |triples|
  {
    seq(|triples|, i requires 0 <= i < |triples| => Product(p, triples[i], values[2 * i], values[2 * i + 1]))
  }

  // The polynomials behind the shares.

  function OperandPoly(op: Operand, fs: seq<seq<int>>): seq<int>
    requires Uses(op, |fs|)
  {
    match op
    case Wire(i) => fs[i]
    case Sum(l, r) => Plus(OperandPoly(l, fs), OperandPoly(r, fs))
    case Less(l, r) => Plus(OperandPoly(l, fs), Scale(-1, OperandPoly(r, fs)))
    case Multiple(k, x) => Scale(k, OperandPoly(x, fs))
    case Shifted(k, x) => Plus(OperandPoly(x, fs), [k])
  }

  datatype TriplePolys = TriplePolys(a: seq<int>, b: seq<int>, mult: seq<int>)

  function LayerMaskPolys(layer: seq<Gate>, fs: seq<seq<int>>, triples: seq<TriplePolys>): (r: seq<seq<int>>)
    requires Fits(layer, |fs|) && |triples| == |layer|
    ensures |r| == 2 * |layer|
  {
    seq(2 * |layer|, i requires 0 <= i < 2 * |layer| =>
      if i % 2 == 0 then Plus(OperandPoly(layer[i / 2].left, fs), Scale(-1, triples[i / 2].a))
      else Plus(OperandPoly(layer[i / 2].right, fs), Scale(-1, triples[i / 2].b)))
  }

  function LayerPolys(p: int, triples: seq<TriplePolys>, values: seq<int>): (r: seq<seq<int>>)
    requires p > 0 && |values| == 2 * |triples|
    ensures |r| == |triples|
  {
    seq(|triples|, i requires 0 <= i < |triples| =>
      ProductPoly(p, triples[i].a, triples[i].b, triples[i].mult, values[2 * i], values[2 * i + 1]))
  }

  // The evaluation by all parties.

  /**
   * A circuit to be evaluated by the parties at `points` on inputs and triples shared at degree `t`.
   * Party k holds `inputShares[k]` and, for every layer, `tripleShares[k][layer]`.
   */
  datatype Task = Task(
    p: int, t: nat, points: seq<int>, circuit: Circuit,
    inputs: seq<seq<int>>, inputShares: seq<seq<Share>>,
    triples: seq<seq<TriplePolys>>, tripleShares: seq<seq<seq<ShamirTriple>>>)

  /** A party's share of a correct triple. */
  ghost predicate TripleAt(p: int, t: nat, x: int, f: TriplePolys, s: ShamirTriple)
    requires p > 0
  {
    && ShareOf(p, f.a, x, s.a) && ShareOf(p, f.b, x, s.b) && ShareOf(p, f.mult, x, s.mult)
    && s.a.degree == s.b.degree == s.mult.degree == t
    && Eq(p, Eval(f.mult, 0), Eval(f.a, 0) * Eval(f.b, 0))
  }

  ghost predicate TriplesAt(p: int, t: nat, x: int, fs: seq<TriplePolys>, triples: seq<ShamirTriple>)
    requires p > 0
  {
    |triples| == |fs| && forall i :: 0 <= i < |fs| ==> TripleAt(p, t, x, fs[i], triples[i])
  }

  ghost predicate ValidTriples(s: Task)
    requires s.p > 0
  {
    && |s.triples| == |s.circuit.layers| && |s.tripleShares| == |s.points|
    && (forall n :: 0 <= n < |s.triples| ==> |s.triples[n]| == |s.circuit.layers[n]|)
    && (forall k :: 0 <= k < |s.points| ==> |s.tripleShares[k]| == |s.circuit.layers|)
    && (forall k, n :: 0 <= k < |s.points| && 0 <= n < |s.triples| ==> |s.tripleShares[k][n]| == |s.triples[n]|)
    && (forall k, n, i :: 0 <= k < |s.points| && 0 <= n < |s.triples| && 0 <= i < |s.triples[n]| ==>
          TripleAt(s.p, s.t, s.points[k], s.triples[n][i], s.tripleShares[k][n][i]))
  }

  ghost predicate Valid(s: Task) {
    && Prime(s.p) && AllDistinct(s.p, s.points) && s.t < |s.points| && WellFormed(s.circuit)
    && |s.inputs| == s.circuit.inputs && Shared(s.p, s.t, s.points, s.inputs, s.inputShares) && ValidTriples(s)
  }

  /** The polynomials on the wires before layer `n`. */
  ghost function Polys(s: Task, n: nat): (r: seq<seq<int>>)
    requires Valid(s) && n <= |s.circuit.layers|
    ensures |r| == Wires(s.circuit, n)
    decreases n, 0
  {
    if n == 0 then s.inputs
    else Polys(s, n - 1) + LayerPolys(s.p, s.triples[n - 1], Opened(s, n - 1))
  }

  /** The values opened in layer `n`. */
  ghost function Opened(s: Task, n: nat): (r: seq<int>)
    requires Valid(s) && n < |s.circuit.layers|
    ensures |r| == 2 * |s.circuit.layers[n]|
    decreases n, 1
  {
    Secrets(s.p, LayerMaskPolys(s.circuit.layers[n], Polys(s, n), s.triples[n]), 2 * |s.circuit.layers[n]|)
  }

  /** Party k's shares on the wires before layer `n`. */
  ghost function SharesAtLayer(s: Task, k: nat, n: nat): (r: seq<Share>)
    requires Valid(s) && k < |s.points| && n <= |s.circuit.layers|
    ensures |r| == Wires(s.circuit, n)
    decreases n
  {
    if n == 0 then s.inputShares[k]
    else SharesAtLayer(s, k, n - 1) + LayerProducts(s.p, s.tripleShares[k][n - 1], Opened(s, n - 1))
  }

  ghost function MasksAt(s: Task, k: nat, n: nat): (r: seq<Share>)
    requires Valid(s) && k < |s.points| && n < |s.circuit.layers|
    ensures |r| == 2 * |s.circuit.layers[n]|
  {
    LayerMasks(s.p, s.circuit.layers[n], SharesAtLayer(s, k, n), s.tripleShares[k][n])
  }

  ghost function AllMasksAt(s: Task, n: nat): (r: seq<seq<Share>>)
    requires Valid(s) && n < |s.circuit.layers|
    ensures |r| == |s.points| && forall k :: 0 <= k < |r| ==> |r[k]| == 2 * |s.circuit.layers[n]|
  {
    seq(|s.points|, k requires 0 <= k < |s.points| => MasksAt(s, k, n))
  }

  // Shares stay shares, of the right values.

  /** The shares are those of the polynomials at `x`, all of degree `t`. */
  ghost predicate OnWires(p: int, t: nat, x: int, fs: seq<seq<int>>, shares: seq<Share>)
    requires p > 0
  {
    |shares| == |fs| && forall w :: 0 <= w < |fs| ==> ShareOf(p, fs[w], x, shares[w]) && shares[w].degree == t
  }

  /** Local operations act on the polynomials. */
  lemma {:induction false} OperandShared(p: int, t: nat, x: int, op: Operand, fs: seq<seq<int>>, shares: seq<Share>)
    requires p > 0 && OnWires(p, t, x, fs, shares) && Uses(op, |fs|)
    ensures ShareOf(p, OperandPoly(op, fs), x, OperandShare(p, op, shares)) && OperandShare(p, op, shares).degree == t
  {
    hide ShareOf;
    match op
    case Wire(i) =>
    case Sum(l, r) =>
      OperandShared(p, t, x, l, fs, shares);
      OperandShared(p, t, x, r, fs, shares);
      LinearShares(p, OperandPoly(l, fs), OperandPoly(r, fs), x, OperandShare(p, l, shares),
        OperandShare(p, r, shares));
    case Less(l, r) =>
      OperandShared(p, t, x, l, fs, shares);
      OperandShared(p, t, x, r, fs, shares);
      LinearShares(p, OperandPoly(l, fs), OperandPoly(r, fs), x, OperandShare(p, l, shares),
        OperandShare(p, r, shares));
    case Multiple(k, f) =>
      OperandShared(p, t, x, f, fs, shares);
      ScaledShare(p, OperandPoly(f, fs), k, x, OperandShare(p, f, shares));
    case Shifted(k, f) =>
      OperandShared(p, t, x, f, fs, shares);
      ShiftedShare(p, OperandPoly(f, fs), k, x, OperandShare(p, f, shares));
  }

  /** The polynomials have these values at zero, up to congruence. */
  ghost predicate Carry(p: int, fs: seq<seq<int>>, values: seq<int>)
    requires p > 0
  {
    |values| == |fs| && forall w :: 0 <= w < |fs| ==> Eq(p, Eval(fs[w], 0), values[w])
  }

  lemma {:induction false} OperandValue(p: int, op: Operand, fs: seq<seq<int>>, values: seq<int>)
    requires p > 0 && Carry(p, fs, values) && Uses(op, |fs|)
    ensures Eq(p, Eval(OperandPoly(op, fs), 0), ValueOf(op, values))
  {
    hide Eq, Eval;
    match op
    case Wire(i) =>
    case Sum(l, r) =>
      OperandValue(p, l, fs, values);
      OperandValue(p, r, fs, values);
      EvalPlus(OperandPoly(l, fs), OperandPoly(r, fs), 0);
      SumEq(p, Eval(OperandPoly(l, fs), 0), ValueOf(l, values), Eval(OperandPoly(r, fs), 0), ValueOf(r, values));
    case Less(l, r) =>
      OperandValue(p, l, fs, values);
      OperandValue(p, r, fs, values);
      Difference(OperandPoly(l, fs), OperandPoly(r, fs), 0);
      SumEq(p, Eval(OperandPoly(l, fs), 0), ValueOf(l, values), Eval(OperandPoly(r, fs), 0), ValueOf(r, values));
    case Multiple(k, f) =>
      OperandValue(p, f, fs, values);
      EvalScale(k, OperandPoly(f, fs), 0);
      SameEq(p, k);
      ProductEq(p, k, k, Eval(OperandPoly(f, fs), 0), ValueOf(f, values));
    case Shifted(k, f) =>
      OperandValue(p, f, fs, values);
      EvalPlus(OperandPoly(f, fs), [k], 0);
      EvalConst(k, 0);
      SameEq(p, k);
      SumEq(p, Eval(OperandPoly(f, fs), 0), ValueOf(f, values), k, k);
  }

  lemma MaskShared(p: int, t: nat, x: int, layer: seq<Gate>, fs: seq<seq<int>>, shares: seq<Share>,
      polys: seq<TriplePolys>, triples: seq<ShamirTriple>, i: nat)
    requires p > 0 && OnWires(p, t, x, fs, shares) && Fits(layer, |fs|) && |polys| == |triples| == |layer|
      && i < 2 * |layer|
    requires TripleAt(p, t, x, polys[i / 2], triples[i / 2])
    ensures ShareOf(p, LayerMaskPolys(layer, fs, polys)[i], x, LayerMasks(p, layer, shares, triples)[i])
    ensures LayerMasks(p, layer, shares, triples)[i].degree == t
  {
    hide ShareOf, OperandPoly, OperandShare, Eval, Plus, Scale;
    var g, f, s := layer[i / 2], polys[i / 2], triples[i / 2];
    if i % 2 == 0 {
      OperandShared(p, t, x, g.left, fs, shares);
      LinearShares(p, OperandPoly(g.left, fs), f.a, x, OperandShare(p, g.left, shares), s.a);
    } else {
      OperandShared(p, t, x, g.right, fs, shares);
      LinearShares(p, OperandPoly(g.right, fs), f.b, x, OperandShare(p, g.right, shares), s.b);
    }
  }

  lemma LayerShared(p: int, t: nat, x: int, polys: seq<TriplePolys>, triples: seq<ShamirTriple>, values: seq<int>)
    requires p > 0 && |polys| == |triples| && |values| == 2 * |triples|
    requires TriplesAt(p, t, x, polys, triples)
    ensures OnWires(p, t, x, LayerPolys(p, polys, values), LayerProducts(p, triples, values))
  {
    hide ShareOf, Product, ProductPoly, Eval;
    forall i | 0 <= i < |polys|
      ensures ShareOf(p, LayerPolys(p, polys, values)[i], x, LayerProducts(p, triples, values)[i])
      ensures LayerProducts(p, triples, values)[i].degree == t
    {
      ProductShare(p, polys[i].a, polys[i].b, polys[i].mult, x, triples[i], values[2 * i], values[2 * i + 1]);
    }
  }

  lemma TripleFacts(s: Task, k: nat, n: nat)
    requires Valid(s) && k < |s.points| && n < |s.circuit.layers|
    ensures |s.triples| == |s.tripleShares[k]| == |s.circuit.layers|
      && |s.tripleShares[k][n]| == |s.triples[n]| == |s.circuit.layers[n]|
    ensures TriplesAt(s.p, s.t, s.points[k], s.triples[n], s.tripleShares[k][n])
  {
    hide TripleAt;
  }

  lemma NextLayer(s: Task, k: nat, n: nat)
    requires Valid(s) && k < |s.points| && n < |s.circuit.layers|
    ensures |s.triples[n]| == |s.tripleShares[k][n]| == |s.circuit.layers[n]|
    ensures Polys(s, n + 1) == Polys(s, n) + LayerPolys(s.p, s.triples[n], Opened(s, n))
    ensures SharesAtLayer(s, k, n + 1)
      == SharesAtLayer(s, k, n) + LayerProducts(s.p, s.tripleShares[k][n], Opened(s, n))
  {
    hide LayerPolys, LayerProducts, Opened, TripleAt, Shared, AllDistinct;
  }

  lemma LayerKeepsShared(s: Task, k: nat, n: nat)
    requires Valid(s) && k < |s.points| && n < |s.circuit.layers|
    requires OnWires(s.p, s.t, s.points[k], Polys(s, n), SharesAtLayer(s, k, n))
    ensures OnWires(s.p, s.t, s.points[k], Polys(s, n + 1), SharesAtLayer(s, k, n + 1))
  {
    hide Opened, LayerPolys, LayerProducts, Valid, TriplesAt, Polys, SharesAtLayer, Wires;
    LayerFits(s, n);
    NextLayer(s, k, n);
    TripleFacts(s, k, n);
    var f, g := LayerPolys(s.p, s.triples[n], Opened(s, n)), LayerProducts(s.p, s.tripleShares[k][n], Opened(s, n));
    LayerShared(s.p, s.t, s.points[k], s.triples[n], s.tripleShares[k][n], Opened(s, n));
  }

  /** All parties' shares on all wires are shares of degree t of one polynomial for each wire. */
  lemma {:induction false} WiresShared(s: Task, k: nat, n: nat)
    requires Valid(s) && k < |s.points| && n <= |s.circuit.layers|
    ensures OnWires(s.p, s.t, s.points[k], Polys(s, n), SharesAtLayer(s, k, n))
  {
    hide OnWires, Polys, SharesAtLayer, Wires, WellFormed, ValidTriples, Shared, AllDistinct;
    if n == 0 {
      InputsShared(s, k);
    } else {
      WiresShared(s, k, n - 1);
      LayerKeepsShared(s, k, n - 1);
    }
  }

  lemma InputsShared(s: Task, k: nat)
    requires Valid(s) && k < |s.points|
    ensures OnWires(s.p, s.t, s.points[k], Polys(s, 0), SharesAtLayer(s, k, 0))
  {
    hide ValidTriples, WellFormed, AllDistinct;
  }

  /** Both operands of every gate, masked, are shared at degree t. */
  lemma LayerMasksShared(s: Task, n: nat, k: nat, i: nat)
    requires Valid(s) && n < |s.circuit.layers| && k < |s.points| && i < 2 * |s.circuit.layers[n]|
    ensures |s.triples| == |s.circuit.layers| && |s.triples[n]| == |s.circuit.layers[n]|
      && Fits(s.circuit.layers[n], Wires(s.circuit, n))
    ensures var masks := LayerMaskPolys(s.circuit.layers[n], Polys(s, n), s.triples[n]);
      ShareOf(s.p, masks[i], s.points[k], AllMasksAt(s, n)[k][i]) && |masks[i]| == s.t + 1
  {
    hide Valid, OnWires, LayerMasks, LayerMaskPolys, Polys, SharesAtLayer, TripleAt;
    LayerFits(s, n);
    WiresShared(s, k, n);
    TripleFacts(s, k, n);
    MaskShared(s.p, s.t, s.points[k], s.circuit.layers[n], Polys(s, n), SharesAtLayer(s, k, n), s.triples[n],
      s.tripleShares[k][n], i);
  }

  /** The opening of every layer succeeds, with the masked operands. */
  lemma LayerOpens(s: Task, n: nat)
    requires Valid(s) && n < |s.circuit.layers|
    ensures OpenAll(s.p, s.points, AllMasksAt(s, n), 2 * |s.circuit.layers[n]|) == Ok(Opened(s, n))
  {
    hide Valid, OpenAll, ShareOf, LayerMaskPolys, Polys, AllMasksAt, Secrets, AllDistinct;
    LayerFits(s, n);
    var masks := LayerMaskPolys(s.circuit.layers[n], Polys(s, n), s.triples[n]);
    forall i, k | 0 <= i < |masks| && 0 <= k < |s.points|
      ensures ShareOf(s.p, masks[i], s.points[k], AllMasksAt(s, n)[k][i]) {
      LayerMasksShared(s, n, k, i);
    }
    forall i | 0 <= i < |masks| ensures |masks[i]| <= |s.points| { LayerMasksShared(s, n, 0, i); }
    KingOpens(s.p, masks, s.points, AllMasksAt(s, n), |masks|);
  }

  lemma LayerFits(s: Task, n: nat)
    requires Valid(s) && n < |s.circuit.layers|
    ensures |s.triples| == |s.circuit.layers| && Fits(s.circuit.layers[n], Wires(s.circuit, n))
      && |s.triples[n]| == |s.circuit.layers[n]|
    ensures s.t < |s.points| && s.points != [] && AllDistinct(s.p, s.points) && Prime(s.p) && s.p > 0
    ensures |s.tripleShares| == |s.points|
  {
    hide AllDistinct, Shared;
  }

  lemma MasksOfGate(layer: seq<Gate>, fs: seq<seq<int>>, triples: seq<TriplePolys>, i: nat)
    requires Fits(layer, |fs|) && |triples| == |layer| && i < |layer|
    ensures var masks := LayerMaskPolys(layer, fs, triples);
      && masks[2 * i] == Plus(OperandPoly(layer[i].left, fs), Scale(-1, triples[i].a))
      && masks[2 * i + 1] == Plus(OperandPoly(layer[i].right, fs), Scale(-1, triples[i].b))
  {
    var j, k := 2 * i, 2 * i + 1;
    assert j / 2 == i && j % 2 == 0 && k / 2 == i && k % 2 == 1;
  }

  /** A correct triple and the values opened with it make the product of the operands. */
  lemma GateIsRight(p: int, layer: seq<Gate>, fs: seq<seq<int>>, values: seq<int>, triples: seq<TriplePolys>, i: nat)
    requires p > 0 && Carry(p, fs, values) && |values| == |fs| && Fits(layer, |fs|) && |triples| == |layer|
      && i < |layer|
    requires Eq(p, Eval(triples[i].mult, 0), Eval(triples[i].a, 0) * Eval(triples[i].b, 0))
    ensures var shown := Secrets(p, LayerMaskPolys(layer, fs, triples), 2 * |layer|);
      Eq(p, Eval(LayerPolys(p, triples, shown)[i], 0), GateValues(layer, values)[i])
  {
    hide Eval, OperandPoly, Plus, Scale, ValueOf, ProductPoly, LayerMaskPolys, Carry, Eq;
    var g, f := layer[i], triples[i];
    var shown := Secrets(p, LayerMaskPolys(layer, fs, triples), 2 * |layer|);
    MasksOfGate(layer, fs, triples, i);
    OperandValue(p, g.left, fs, values);
    OperandValue(p, g.right, fs, values);
    MaskedValue(p, OperandPoly(g.left, fs), f.a, ValueOf(g.left, values), shown[2 * i]);
    MaskedValue(p, OperandPoly(g.right, fs), f.b, ValueOf(g.right, values), shown[2 * i + 1]);
    ProductValue(p, f.a, f.b, f.mult, shown[2 * i], shown[2 * i + 1], ValueOf(g.left, values),
      ValueOf(g.right, values));
  }

  lemma MaskedValue(p: int, f: seq<int>, a: seq<int>, value: int, shown: int)
    requires p > 0 && Eq(p, Eval(f, 0), value) && shown == Eval(Plus(f, Scale(-1, a)), 0) % p
    ensures Eq(p, shown, value - Eval(a, 0))
  {
    hide Eval, Plus, Scale;
    Difference(f, a, 0);
    Reduced(p, Eval(f, 0) - Eval(a, 0));
    SumEq(p, Eval(f, 0), value, Eval(a, 0), Eval(a, 0));
  }

  /** The values shared by the inputs. */
  function InputValues(s: Task): (r: seq<int>)
    ensures |r| == |s.inputs|
  {
    seq(|s.inputs|, i requires 0 <= i < |s.inputs| => Eval(s.inputs[i], 0))
  }

  lemma LayerKeepsRight(s: Task, n: nat, values: seq<int>)
    requires Valid(s) && n < |s.circuit.layers| && Carry(s.p, Polys(s, n), values)
    ensures Fits(s.circuit.layers[n], |values|)
    ensures Carry(s.p, Polys(s, n + 1), values + GateValues(s.circuit.layers[n], values))
  {
    hide LayerPolys, GateValues, Eval, Eq, SharesAtLayer, Wires, ShareOf;
    LayerFits(s, n);
    NextLayer(s, 0, n);
    TripleFacts(s, 0, n);
    var layer, more := s.circuit.layers[n], LayerPolys(s.p, s.triples[n], Opened(s, n));
    forall i | 0 <= i < |layer| ensures Eq(s.p, Eval(more[i], 0), GateValues(layer, values)[i]) {
      GateIsRight(s.p, layer, Polys(s, n), values, s.triples[n], i);
    }
  }

  /** Every wire of every layer carries the value that the circuit gives it. */
  lemma {:induction false} WiresAreRight(s: Task, n: nat)
    requires Valid(s) && n <= |s.circuit.layers|
    ensures WellFormed(s.circuit) && |s.inputs| == s.circuit.inputs
    ensures s.p > 0 && Carry(s.p, Polys(s, n), Values(s.circuit, InputValues(s), n))
  {
    hide GateValues, Carry, Polys, InputValues, Wires, Fits;
    if n == 0 {
      InputsCarry(s);
    } else {
      WiresAreRight(s, n - 1);
      LayerKeepsRight(s, n - 1, Values(s.circuit, InputValues(s), n - 1));
    }
  }

  lemma InputsCarry(s: Task)
    requires Valid(s)
    ensures Carry(s.p, Polys(s, 0), InputValues(s))
  {
  }

  /** The operands of a layer, as a party holds them: the input of one multiplication protocol. */
  ghost function Operands(s: Task, k: nat, n: nat, left: bool): (r: seq<Share>)
    requires Valid(s) && k < |s.points| && n < |s.circuit.layers|
    ensures |r| == |s.circuit.layers[n]|
  {
    LayerFits(s, n);
    var layer := s.circuit.layers[n];
    seq(|layer|, i requires 0 <= i < |layer| =>
      OperandShare(s.p, if left then layer[i].left else layer[i].right, SharesAtLayer(s, k, n)))
  }

  /** The multiplication protocol accepts the operands and triples of every layer. */
  lemma LayersAreAccepted(s: Task, k: nat, n: nat, king: PartyId, parties: seq<PartyId>)
    requires Valid(s) && k < |s.points| && n < |s.circuit.layers| && king in parties && |parties| == |s.points|
    ensures |s.tripleShares[k]| == |s.circuit.layers|
    ensures MulInput(king, parties, Operands(s, k, n, true), Operands(s, k, n, false), s.tripleShares[k][n])
  {
    hide ShareOf, Polys, SharesAtLayer, OperandShare, Shared, AllDistinct, Eq, Eval;
    LayerFits(s, n);
    TripleFacts(s, k, n);
    WiresShared(s, k, n);
    var layer := s.circuit.layers[n];
    forall i | 0 <= i < |layer|
      ensures Operands(s, k, n, true)[i].degree == Operands(s, k, n, false)[i].degree == s.t
    {
      OperandShared(s.p, s.t, s.points[k], layer[i].left, Polys(s, n), SharesAtLayer(s, k, n));
      OperandShared(s.p, s.t, s.points[k], layer[i].right, Polys(s, n), SharesAtLayer(s, k, n));
    }
  }

  /** The triples that a session generates are of the kind that a circuit uses up. */
  lemma GeneratedTriplesFit(s: Session, k: nat, l: nat)
    requires DN07.Valid(s) && k < |s.points| && l < s.count
    ensures s.t < |s.points| && s.p > 0
    ensures TripleAt(s.p, s.t, s.points[k],
      TriplePolys(RandomPoly(s, s.a, l), RandomPoly(s, s.b, l), TriplePoly(s, l)), Triple(s, k, l))
  {
    hide RandomPoly, Triple, TriplePoly, ShareOf, Eval, Eq;
    TriplesAreCorrect(s, k, l);
  }
}
