/** Matrices over the field, stored row by row in one list, and the loops that index into it. */
module Matrices {
  import opened Wrappers
  import opened Zp
  import opened Polynomials
  import opened Shamir

  datatype Error = NotCompatible | InvalidDimension(rows: nat, columns: nat) | IndexOutOfBounds(i: nat, j: nat)

  /** The entry in row `i` and column `j` of a list with `columns` entries a row. */
  function At(elements: seq<int>, columns: nat, i: nat, j: nat): int {
    if columns * i + j < |elements| then elements[columns * i + j] else 0
  }

  /** All rows have the same positive length, and there is at least one. */
  ghost predicate Rectangular(rows: seq<seq<int>>) {
    rows != [] && rows[0] != [] && forall i :: 0 <= i < |rows| ==> |rows[i]| == |rows[0]|
  }

  /** The rows that a list of entries stands for. */
  ghost function Grid(elements: seq<int>, rows: nat, columns: nat): (g: seq<seq<int>>)
    ensures |g| == rows && forall i :: 0 <= i < rows ==> |g[i]| == columns
    ensures forall i, j :: 0 <= i < rows && 0 <= j < columns ==> g[i][j] == At(elements, columns, i, j)
    ensures rows > 0 && columns > 0 ==> Rectangular(g)
  {
    seq(rows, i requires 0 <= i < rows => seq(columns, j requires 0 <= j < columns => At(elements, columns, i, j)))
  }

  /** The entry at an index computed from row and column. */
  lemma GridAt(elements: seq<int>, rows: nat, columns: nat, i: nat, j: nat)
    requires |elements| == rows * columns && i < rows && j < columns
    ensures columns * i + j < |elements| && elements[columns * i + j] == Grid(elements, rows, columns)[i][j]
  {
    InRange(rows, columns, i, j);
  }

  lemma SameGrid(elements: seq<int>, rows: nat, columns: nat, g: seq<seq<int>>)
    requires |g| == rows && forall i :: 0 <= i < rows ==> |g[i]| == columns
    requires forall i, j :: 0 <= i < rows && 0 <= j < columns ==> At(elements, columns, i, j) == g[i][j]
    ensures Grid(elements, rows, columns) == g
  {
    forall i | 0 <= i < rows ensures Grid(elements, rows, columns)[i] == g[i] {}
  }

  lemma InRange(rows: nat, columns: nat, i: nat, j: nat)
    requires i < rows && j < columns
    ensures columns * i + j < rows * columns
  {
    assert columns * i + columns == columns * (i + 1);
    Monotone(columns, i + 1, rows);
  }

  lemma Monotone(c: nat, a: nat, b: nat)
    requires a <= b
    ensures c * a <= c * b
  {
  }

  /** Two positions in range have the same index only if they are the same. */
  lemma OneIndex(columns: nat, i: nat, j: nat, a: nat, b: nat)
    requires j < columns && b < columns
    ensures columns * i + j == columns * a + b <==> i == a && j == b
  {
    if i < a {
      Monotone(columns, i + 1, a);
    } else if a < i {
      Monotone(columns, a + 1, i);
    }
  }

  lemma SetAt(elements: seq<int>, rows: nat, columns: nat, i: nat, j: nat, value: int)
    requires |elements| == rows * columns && i < rows && j < columns
    ensures columns * i + j < |elements|
    ensures var after := elements[columns * i + j := value];
      forall a: nat, b: nat :: a < rows && b < columns ==>
        At(after, columns, a, b) == if a == i && b == j then value else At(elements, columns, a, b)
  {
    InRange(rows, columns, i, j);
    var after := elements[columns * i + j := value];
    forall a: nat, b: nat | a < rows && b < columns
      ensures At(after, columns, a, b) == if a == i && b == j then value else At(elements, columns, a, b)
    {
      OneIndex(columns, i, j, a, b);
    }
  }

  /** Appending after i whole rows and j entries of the next. */
  lemma PushAt(elements: seq<int>, columns: nat, i: nat, j: nat, value: int)
    requires |elements| == columns * i + j && j < columns
    ensures At(elements + [value], columns, i, j) == value
    ensures forall a, b :: 0 <= a && 0 <= b < columns && (a < i || (a == i && b < j)) ==>
      At(elements + [value], columns, a, b) == At(elements, columns, a, b)
  {
    forall a, b | 0 <= a && 0 <= b < columns && (a < i || (a == i && b < j))
      ensures At(elements + [value], columns, a, b) == At(elements, columns, a, b)
    {
      if a < i { Monotone(columns, a + 1, i); }
    }
  }

  /** The sum of the products of the first `n` entries. */
  function Dot(a: seq<int>, b: seq<int>, n: nat): int
    requires n <= |a| && n <= |b|
  {
    if n == 0 then 0 else Dot(a, b, n - 1) + a[n - 1] * b[n - 1]
  }

  lemma OneMoreDot(a: seq<int>, b: seq<int>, n: nat)
    requires n < |a| && n < |b|
    ensures Dot(a, b, n + 1) == Dot(a, b, n) + a[n] * b[n]
  {
  }

  lemma NoDot(a: seq<int>, b: seq<int>)
    ensures Dot(a, b, 0) == 0
  {
  }

  /** The sum of share[j] * row[j], as the loop of `mul_shares` builds it. */
  function RowShare(p: int, row: seq<int>, shares: seq<Share>, n: nat): Share
    requires p > 0 && 0 < n <= |row| && n <= |shares|
  {
    if n == 1 then MulConst(p, shares[0], row[0])
    else AddShare(p, RowShare(p, row, shares, n - 1), MulConst(p, shares[n - 1], row[n - 1]))
  }

  class Matrix {
    const p: int
    var elements: seq<int>
    var columns: nat
    var rows: nat

    ghost predicate Valid()
      reads this
    {
      p > 1 && rows > 0 && columns > 0 && |elements| == rows * columns
    }

    /** The rows of the matrix. */
    ghost function View(): (v: seq<seq<int>>)
      reads this
      ensures Valid() ==> Rectangular(v) && |v| == rows && |v[0]| == columns
    {
      Grid(elements, rows, columns)
    }

    constructor Make(p: int, rows: nat, columns: nat, elements: seq<int>)
      ensures this.p == p && this.rows == rows && this.columns == columns && this.elements == elements
    {
      this.p, this.rows, this.columns, this.elements := p, rows, columns, elements;
    }

    static method FromVec(p: int, rows: nat, columns: nat, elements: seq<int>) returns (r: Result<Matrix, Error>)
      requires p > 1
      ensures r.Err? <==> rows * columns != |elements| || rows == 0 || columns == 0
      ensures r.Err? ==> r.error == InvalidDimension(rows, columns)
      ensures r.Ok? ==> fresh(r.value) && r.value.Valid() && r.value.p == p
      ensures r.Ok? ==> r.value.elements == elements && r.value.rows == rows && r.value.columns == columns
    {
      if rows * columns != |elements| || rows == 0 || columns == 0 { return Err(InvalidDimension(rows, columns)); }
      var m := new Matrix.Make(p, rows, columns, elements);
      r := Ok(m);
    }

    static method Ones(p: int, rows: nat, columns: nat) returns (r: Result<Matrix, Error>)
      requires p > 1
      ensures r.Err? <==> rows == 0 || columns == 0
      ensures r.Err? ==> r.error == InvalidDimension(rows, columns)
      ensures r.Ok? ==>
        fresh(r.value) && r.value.Valid() && r.value.p == p && r.value.rows == rows
        && r.value.columns == columns
      ensures r.Ok? ==> forall i, j :: 0 <= i < rows && 0 <= j < columns ==> At(r.value.elements, columns, i, j) == 1
    {
      if rows == 0 || columns == 0 { return Err(InvalidDimension(rows, columns)); }
      var elements := seq(rows * columns, _ => 1);
      var m := new Matrix.Make(p, rows, columns, elements);
      forall i, j | 0 <= i < rows && 0 <= j < columns ensures At(elements, columns, i, j) == 1 {
        InRange(rows, columns, i, j);
      }
      r := Ok(m);
    }

    function Get(i: nat, j: nat): (r: Option<int>)
      requires Valid()
      reads this
      ensures r == if i < rows && j < columns then Some(At(elements, columns, i, j)) else None
    {
      if i >= rows || j >= columns then None
      else
        InRange(rows, columns, i, j);
        Some(elements[columns * i + j])
    }

    method Set(i: nat, j: nat, value: int) returns (r: Result<(), Error>)
      requires Valid()
      modifies this`elements
      ensures Valid()
      ensures r == if i < rows && j < columns then Ok(()) else Err(IndexOutOfBounds(i, j))
      ensures r.Err? ==> elements == old(elements)
      ensures r.Ok? ==> forall a, b :: 0 <= a < rows && 0 <= b < columns ==>
        At(elements, columns, a, b) == if a == i && b == j then value else old(At(elements, columns, a, b))
    {
      if i >= rows || j >= columns { return Err(IndexOutOfBounds(i, j)); }
      SetAt(elements, rows, columns, i, j, value);
      elements := elements[columns * i + j := value];
      r := Ok(());
    }

    /** The matrix whose entry (i, j) is values[i] to the j. */
    static method Vandermonde(p: int, values: seq<int>, c: nat) returns (r: Result<Matrix, Error>)
      requires p > 1
      ensures r.Err? <==> values == [] || c == 0
      ensures r.Err? ==> r.error == InvalidDimension(|values|, c)
      ensures r.Ok? ==>
        fresh(r.value) && r.value.Valid() && r.value.p == p
        && r.value.View() == VandermondeRows(p, values, c)
    {
      r := Ones(p, |values|, c);
      if r.Err? { return; }
      var matrix := r.value;
      var i := 0;
      while i < |values|
        invariant i <= |values| && matrix.Valid() && matrix.rows == |values| && matrix.columns == c && matrix.p == p
        invariant forall a, b :: 0 <= a < i && 0 <= b < c ==> At(matrix.elements, c, a, b) == Power(values[a], b) % p
        invariant forall a, b :: i <= a < |values| && 0 <= b < c ==> At(matrix.elements, c, a, b) == 1
      {
        var j := 1;
        Reduced(p, 1);
        while j < c
          invariant 1 <= j <= c && matrix.Valid() && matrix.rows == |values| && matrix.columns == c && matrix.p == p
          invariant forall a, b :: 0 <= a < i && 0 <= b < c ==> At(matrix.elements, c, a, b) == Power(values[a], b) % p
          invariant forall a, b :: i < a < |values| && 0 <= b < c ==> At(matrix.elements, c, a, b) == 1
          invariant forall b :: 0 <= b < j ==> At(matrix.elements, c, i, b) == Power(values[i], b) % p
        {
          NextPower(p, values[i], j - 1);
          var previous := matrix.Get(i, j - 1);
          var stored := matrix.Set(i, j, Mul(p, previous.value, values[i]));
          j := j + 1;
        }
        i := i + 1;
      }
      SameGrid(matrix.elements, |values|, c, VandermondeRows(p, values, c));
    }

    /** Rows become columns. */
    method Transpose() returns (t: Matrix)
      requires Valid()
      ensures fresh(t) && t.Valid() && t.p == p && t.View() == TransposeOf(View())
    {
      hide At, Rectangular;
      var result: seq<int> := [];
      ghost var g := View();
      var j := 0;
      while j < columns
        invariant j <= columns && |result| == rows * j
        invariant forall a, b :: 0 <= a < j && 0 <= b < rows ==> At(result, rows, a, b) == g[b][a]
      {
        var i := 0;
        while i < rows
          invariant i <= rows && |result| == rows * j + i
          invariant forall a, b :: 0 <= a < j && 0 <= b < rows ==> At(result, rows, a, b) == g[b][a]
          invariant forall b :: 0 <= b < i ==> At(result, rows, j, b) == g[b][j]
        {
          GridAt(elements, rows, columns, i, j);
          PushAt(result, rows, j, i, elements[columns * i + j]);
          result := result + [elements[columns * i + j]];
          i := i + 1;
        }
        NextRow(rows, j);
        j := j + 1;
      }
      t := new Matrix.Make(p, columns, rows, result);
      SameGrid(result, columns, rows, TransposeOf(g));
    }

    /** Applies the matrix to a vector of shares, one output a row. */
    method MulShares(shares: seq<Share>) returns (r: Result<seq<Share>, Error>)
      requires Valid()
      ensures r.Err? <==> columns != |shares|
      ensures r.Err? ==> r.error == NotCompatible
      ensures r.Ok? ==> r.value == RowShares(p, View(), shares)
    {
      if columns != |shares| { return Err(NotCompatible); }
      var result: seq<Share> := [];
      ghost var g := View();
      var i := 0;
      while i < rows
        invariant i <= rows && |result| == i
        invariant forall a :: 0 <= a < i ==> result[a] == RowShare(p, g[a], shares, columns)
      {
        var sum := ShareSum(shares, i);
        result := result + [sum];
        i := i + 1;
      }
      r := Ok(result);
    }

    /** The inner loop of `mul_shares`: seeded with the first term, there being no zero share. */
    method ShareSum(shares: seq<Share>, i: nat) returns (sum: Share)
      requires Valid() && columns == |shares| && i < rows
      ensures sum == RowShare(p, View()[i], shares, columns)
    {
      hide At;
      ghost var g := View();
      GridAt(elements, rows, columns, i, 0);
      sum := MulConst(p, shares[0], elements[columns * i]);
      var j := 1;
      while j < columns
        invariant 1 <= j <= columns && sum == RowShare(p, g[i], shares, j)
      {
        GridAt(elements, rows, columns, i, j);
        sum := AddShare(p, sum, MulConst(p, shares[j], elements[columns * i + j]));
        j := j + 1;
      }
    }

    /** The product of two matrices. */
    method Times(rhs: Matrix) returns (r: Result<Matrix, Error>)
      requires Valid() && rhs.Valid() && rhs.p == p
      ensures r.Err? <==> columns != rhs.rows
      ensures r.Err? ==> r.error == NotCompatible
      ensures r.Ok? ==> fresh(r.value) && r.value.Valid() && r.value.View() == ProductOf(p, View(), rhs.View())
    {
      hide At, Dot;
      if columns != rhs.rows { return Err(NotCompatible); }
      var result: seq<int> := [];
      var c := rhs.columns;
      ghost var g, h := View(), rhs.View();
      var i := 0;
      while i < rows
        invariant i <= rows && |result| == c * i
        invariant forall a, b :: 0 <= a < i && 0 <= b < c ==> At(result, c, a, b) == ProductEntry(p, g, h, a, b)
      {
        var j := 0;
        while j < c
          invariant j <= c && |result| == c * i + j
          invariant forall a, b :: 0 <= a < i && 0 <= b < c ==> At(result, c, a, b) == ProductEntry(p, g, h, a, b)
          invariant forall b :: 0 <= b < j ==> At(result, c, i, b) == ProductEntry(p, g, h, i, b)
        {
          var sum := ProductSum(rhs, i, j);
          PushAt(result, c, i, j, sum);
          result := result + [sum];
          j := j + 1;
        }
        NextRow(c, i);
        i := i + 1;
      }
      var m := new Matrix.Make(p, rows, c, result);
      SameGrid(result, rows, c, ProductOf(p, g, h));
      r := Ok(m);
    }

    /** The inner loop of the product. */
    method ProductSum(rhs: Matrix, i: nat, j: nat) returns (sum: int)
      requires Valid() && rhs.Valid() && columns == rhs.rows && i < rows && j < rhs.columns
      ensures sum == ProductEntry(p, View(), rhs.View(), i, j)
    {
      hide At, Zp.Add, Mul, Dot;
      ghost var row, column := View()[i], ColumnOf(rhs.View(), j);
      sum := 0;
      NoDot(row, column);
      Reduced(p, 0);
      var k := 0;
      while k < columns
        invariant k <= columns && sum == Dot(row, column, k) % p
      {
        GridAt(elements, rows, columns, i, k);
        GridAt(rhs.elements, rhs.rows, rhs.columns, k, j);
        AccumulateDot(p, Dot(row, column, k), row[k], column[k]);
        OneMoreDot(row, column, k);
        sum := Zp.Add(p, sum, Mul(p, elements[columns * i + k], rhs.elements[rhs.columns * k + j]));
        k := k + 1;
      }
    }

    /** Applies the matrix to a vector. */
    method TimesVector(rhs: seq<int>) returns (r: Result<seq<int>, Error>)
      requires Valid()
      ensures r.Err? <==> columns != |rhs|
      ensures r.Err? ==> r.error == NotCompatible
      ensures r.Ok? ==> |r.value| == rows && forall i :: 0 <= i < rows ==>
        r.value[i] == Dot(View()[i], rhs, columns) % p
    {
      hide At, Zp.Add, Mul;
      if columns != |rhs| { return Err(NotCompatible); }
      var result: seq<int> := [];
      ghost var g := View();
      var i := 0;
      while i < rows
        invariant i <= rows && |result| == i
        invariant forall a :: 0 <= a < i ==> result[a] == Dot(g[a], rhs, columns) % p
      {
        var sum, j := 0, 0;
        Reduced(p, 0);
        while j < columns
          invariant j <= columns && sum == Dot(g[i], rhs, j) % p
        {
          GridAt(elements, rows, columns, i, j);
          AccumulateDot(p, Dot(g[i], rhs, j), g[i][j], rhs[j]);
          sum := Zp.Add(p, sum, Mul(p, elements[columns * i + j], rhs[j]));
          j := j + 1;
        }
        result := result + [sum];
        i := i + 1;
      }
      r := Ok(result);
    }

    /** Scales every entry in place. */
    method ScalarMutInPlace(scalar: int)
      requires Valid()
      modifies this`elements
      ensures Valid() && View() == ScaledRows(p, old(View()), scalar)
    {
      var i := 0;
      ghost var before := elements;
      while i < |elements|
        invariant i <= |elements| == |before| && Valid()
        invariant forall k :: 0 <= k < i ==> elements[k] == Mul(p, before[k], scalar)
        invariant forall k :: i <= k < |elements| ==> elements[k] == before[k]
      {
        elements := elements[i := Mul(p, elements[i], scalar)];
        i := i + 1;
      }
      ScaledElements(p, before, elements, rows, columns, scalar);
      SameGrid(elements, rows, columns, ScaledRows(p, old(View()), scalar));
    }

    /** A new matrix with every entry scaled. */
    method ScalarMult(scalar: int) returns (r: Matrix)
      requires Valid()
      ensures fresh(r) && r.Valid() && r.p == p && r.View() == ScaledRows(p, View(), scalar)
    {
      var result: seq<int> := [];
      var i := 0;
      while i < |elements|
        invariant i <= |elements| && |result| == i
        invariant forall k :: 0 <= k < i ==> result[k] == Mul(p, elements[k], scalar)
      {
        result := result + [Mul(p, elements[i], scalar)];
        i := i + 1;
      }
      r := new Matrix.Make(p, rows, columns, result);
      ScaledElements(p, elements, result, rows, columns, scalar);
      SameGrid(result, rows, columns, ScaledRows(p, View(), scalar));
    }

    /**
     * The `matrix * scalar` operator. Both of its loops run to the number of rows, so it panics
     * (`ok` is false) when there are fewer columns than rows and leaves the columns from that number
     * on as they were when there are more.
     */
    method MulScalar(scalar: int) returns (ok: bool)
      requires Valid()
      modifies this`elements
      ensures Valid()
      ensures ok <==> rows <= columns
      ensures ok ==> View() == StarredRows(p, old(View()), scalar)
    {
      hide At, Mul;
      ghost var g := View();
      var i := 0;
      while i < rows
        invariant i <= rows && Valid() && (i > 0 ==> rows <= columns)
        invariant forall a, b :: 0 <= a < rows && 0 <= b < columns ==>
          At(elements, columns, a, b) == StarredEntry(p, g, scalar, i, 0, a, b)
      {
        var j := 0;
        while j < rows
          invariant j <= rows && Valid() && j <= columns && (i > 0 ==> rows <= columns)
          invariant forall a, b :: 0 <= a < rows && 0 <= b < columns ==>
            At(elements, columns, a, b) == StarredEntry(p, g, scalar, i, j, a, b)
        {
          var entry := Get(i, j);
          if entry.None? { return false; }
          var stored := Set(i, j, Mul(p, entry.value, scalar));
          j := j + 1;
        }
        i := i + 1;
      }
      ok := true;
      SameGrid(elements, rows, columns, StarredRows(p, g, scalar));
    }
  }

  /** An entry after the loops of `matrix * scalar` have done `i` rows and `j` entries of the next. */
  ghost function StarredEntry(p: int, g: seq<seq<int>>, scalar: int, i: nat, j: nat, a: nat, b: nat): int
    requires p > 0 && Rectangular(g) && a < |g| && b < |g[0]|
  {
    if b < |g| && (a < i || (a == i && b < j)) then Mul(p, g[a][b], scalar) else g[a][b]
  }

  lemma NextPower(p: int, x: int, n: nat)
    requires p > 0
    ensures Mul(p, Power(x, n) % p, x) == Power(x, n + 1) % p
  {
    Reduced(p, Power(x, n));
    ProductEq(p, Power(x, n) % p, Power(x, n), x, x);
  }

  lemma AccumulateDot(p: int, sum: int, a: int, b: int)
    requires p > 0
    ensures Zp.Add(p, sum % p, Mul(p, a, b)) == (sum + a * b) % p
  {
    Reduced(p, sum);
    Reduced(p, a * b);
    SumEq(p, sum % p, sum, (a * b) % p, a * b);
  }

  lemma NextRow(c: nat, i: nat)
    ensures c * i + c == c * (i + 1)
  {
  }

  ghost function VandermondeRows(p: int, values: seq<int>, c: nat): (r: seq<seq<int>>)
    requires p > 0
  {
    seq(|values|, i requires 0 <= i < |values| => seq(c, j requires 0 <= j < c => Power(values[i], j) % p))
  }

  ghost function ColumnOf(rows: seq<seq<int>>, j: nat): (r: seq<int>)
    requires Rectangular(rows) && j < |rows[0]|
  {
    seq(|rows|, i requires 0 <= i < |rows| => rows[i][j])
  }

  ghost function TransposeOf(rows: seq<seq<int>>): (r: seq<seq<int>>)
    requires Rectangular(rows)
    ensures Rectangular(r)
  {
    seq(|rows[0]|, j requires 0 <= j < |rows[0]| => ColumnOf(rows, j))
  }

  /** Transposing twice gives the matrix back. */
  lemma TransposeInvolutive(rows: seq<seq<int>>)
    requires Rectangular(rows)
    ensures TransposeOf(TransposeOf(rows)) == rows
  {
    var twice := TransposeOf(TransposeOf(rows));
    forall i | 0 <= i < |rows| ensures twice[i] == rows[i] {
      assert forall j :: 0 <= j < |rows[0]| ==> twice[i][j] == TransposeOf(rows)[j][i] == rows[i][j];
    }
  }

  ghost function RowShares(p: int, rows: seq<seq<int>>, shares: seq<Share>): (r: seq<Share>)
    requires p > 0 && Rectangular(rows) && |rows[0]| == |shares|
    ensures |r| == |rows| && forall i :: 0 <= i < |r| ==> r[i] == RowShare(p, rows[i], shares, |shares|)
  {
    seq(|rows|, i requires 0 <= i < |rows| => RowShare(p, rows[i], shares, |shares|))
  }

  ghost function ProductEntry(p: int, a: seq<seq<int>>, b: seq<seq<int>>, i: nat, j: nat): int
    requires p > 0 && Rectangular(a) && Rectangular(b) && |a[0]| == |b| && i < |a| && j < |b[0]|
  {
    Dot(a[i], ColumnOf(b, j), |b|) % p
  }

  ghost function ProductOf(p: int, a: seq<seq<int>>, b: seq<seq<int>>): seq<seq<int>>
    requires p > 0 && Rectangular(a) && Rectangular(b) && |a[0]| == |b|
  {
    seq(|a|, i requires 0 <= i < |a| => seq(|b[0]|, j requires 0 <= j < |b[0]| => ProductEntry(p, a, b, i, j)))
  }

  /** A matrix applied to the first `n` entries of a vector. */
  ghost function Applied(rows: seq<seq<int>>, v: seq<int>, n: nat): (r: seq<int>)
    requires Rectangular(rows) && n <= |rows[0]| && n <= |v|
    ensures |r| == |rows|
  {
    seq(|rows|, k requires 0 <= k < |rows| => Dot(rows[k], v, n))
  }

  lemma {:induction false} DotLinear(a: seq<int>, f: seq<int>, g: seq<int>, c: int, h: seq<int>, n: nat)
    requires n <= |a| && n <= |f| && n <= |g| && n <= |h|
    requires forall k :: 0 <= k < n ==> h[k] == f[k] + g[k] * c
    ensures Dot(a, h, n) == Dot(a, f, n) + Dot(a, g, n) * c
  {
    if n > 0 {
      DotLinear(a, f, g, c, h, n - 1);
      assert a[n - 1] * h[n - 1] == a[n - 1] * f[n - 1] + a[n - 1] * g[n - 1] * c;
    }
  }

  lemma {:induction false} DotNothing(a: seq<int>, z: seq<int>, n: nat)
    requires n <= |a| && n <= |z| && forall k :: 0 <= k < n ==> z[k] == 0
    ensures Dot(a, z, n) == 0
  {
    if n > 0 { DotNothing(a, z, n - 1); }
  }

  /** The product of two matrices acts on every vector as the second matrix followed by the first. */
  lemma {:induction false} ProductActs(p: int, a: seq<seq<int>>, b: seq<seq<int>>, v: seq<int>, i: nat, n: nat)
    requires p > 0 && Rectangular(a) && Rectangular(b) && |a[0]| == |b| && i < |a| && n <= |b[0]| && n <= |v|
    ensures Eq(p, Dot(ProductOf(p, a, b)[i], v, n), Dot(a[i], Applied(b, v, n), |b|))
  {
    hide Eq;
    var row, w := ProductOf(p, a, b)[i], Applied(b, v, n);
    if n == 0 {
      DotNothing(a[i], w, |b|);
      SameEq(p, 0);
    } else {
      ProductActs(p, a, b, v, i, n - 1);
      var before, column := Applied(b, v, n - 1), ColumnOf(b, n - 1);
      DotLinear(a[i], before, column, v[n - 1], w, |b|);
      Reduced(p, Dot(a[i], column, |b|));
      SameEq(p, v[n - 1]);
      ProductEq(p, row[n - 1], Dot(a[i], column, |b|), v[n - 1], v[n - 1]);
      SumEq(p, Dot(row, v, n - 1), Dot(a[i], before, |b|), row[n - 1] * v[n - 1], Dot(a[i], column, |b|) * v[n - 1]);
    }
  }

  lemma {:induction false} DotCommutes(a: seq<int>, b: seq<int>, n: nat)
    requires n <= |a| && n <= |b|
    ensures Dot(a, b, n) == Dot(b, a, n)
  {
    if n > 0 { DotCommutes(a, b, n - 1); }
  }

  /** The transpose of a product is the product of the transposes in the other order. */
  lemma ProductTransposed(p: int, a: seq<seq<int>>, b: seq<seq<int>>)
    requires p > 0 && Rectangular(a) && Rectangular(b) && |a[0]| == |b|
    ensures TransposeOf(ProductOf(p, a, b)) == ProductOf(p, TransposeOf(b), TransposeOf(a))
  {
    var l, r := TransposeOf(ProductOf(p, a, b)), ProductOf(p, TransposeOf(b), TransposeOf(a));
    forall j | 0 <= j < |b[0]| ensures l[j] == r[j] {
      forall i | 0 <= i < |a| ensures l[j][i] == r[j][i] {
        assert ColumnOf(TransposeOf(a), i) == a[i];
        DotCommutes(a[i], ColumnOf(b, j), |b|);
      }
    }
  }

  lemma ScaledTerm(scalar: int, sum: int, x: int, y: int)
    ensures scalar * (sum + x * y) == scalar * sum + x * scalar * y
  {
  }

  /** A scaled matrix gives the scaled result on every vector. */
  lemma {:induction false} ScaledActs(p: int, rows: seq<seq<int>>, scalar: int, v: seq<int>, i: nat, n: nat)
    requires p > 0 && i < |rows| && n <= |rows[i]| && n <= |v|
    ensures Eq(p, Dot(ScaledRows(p, rows, scalar)[i], v, n), scalar * Dot(rows[i], v, n))
  {
    hide Eq;
    if n == 0 {
      SameEq(p, 0);
    } else {
      ScaledActs(p, rows, scalar, v, i, n - 1);
      var x := rows[i][n - 1];
      ReducedProduct(p, x, scalar);
      SameEq(p, v[n - 1]);
      ProductEq(p, Mul(p, x, scalar), x * scalar, v[n - 1], v[n - 1]);
      SumEq(p, Dot(ScaledRows(p, rows, scalar)[i], v, n - 1), scalar * Dot(rows[i], v, n - 1),
        Mul(p, x, scalar) * v[n - 1], x * scalar * v[n - 1]);
      ScaledTerm(scalar, Dot(rows[i], v, n - 1), x, v[n - 1]);
    }
  }

  ghost function ScaledRows(p: int, rows: seq<seq<int>>, scalar: int): seq<seq<int>>
    requires p > 0
  {
    seq(|rows|, i requires 0 <= i < |rows| =>
      seq(|rows[i]|, j requires 0 <= j < |rows[i]| => Mul(p, rows[i][j], scalar)))
  }

  /** What `matrix * scalar` leaves: the columns from the number of rows on are not scaled. */
  ghost function StarredRows(p: int, rows: seq<seq<int>>, scalar: int): seq<seq<int>>
    requires p > 0
  {
    seq(|rows|, i requires 0 <= i < |rows| =>
      seq(|rows[i]|, j requires 0 <= j < |rows[i]| => if j < |rows| then Mul(p, rows[i][j], scalar) else rows[i][j]))
  }

  lemma ScaledElements(p: int, before: seq<int>, after: seq<int>, rows: nat, columns: nat, scalar: int)
    requires p > 0 && |before| == |after| == rows * columns
    requires forall k :: 0 <= k < |before| ==> after[k] == Mul(p, before[k], scalar)
    ensures forall i, j :: 0 <= i < rows && 0 <= j < columns ==>
      At(after, columns, i, j) == Mul(p, At(before, columns, i, j), scalar)
  {
    forall i, j | 0 <= i < rows && 0 <= j < columns
      ensures At(after, columns, i, j) == Mul(p, At(before, columns, i, j), scalar) {
      InRange(rows, columns, i, j);
    }
  }

  /**
   * `matrix * scalar` returns what `scalar_mult` returns, for all entries and scalars, exactly on the
   * square shapes; with fewer columns than rows it does not return at all.
   */
  lemma StarIsScaledWhenSquare(p: int, m: nat, n: nat)
    requires p > 1 && 0 < m <= n
    ensures (forall rows, scalar {:trigger StarredRows(p, rows, scalar)} ::
               Rectangular(rows) && |rows| == m && |rows[0]| == n ==>
                 StarredRows(p, rows, scalar) == ScaledRows(p, rows, scalar)) <==> m == n
  {
    if m == n {
      forall rows, scalar | Rectangular(rows) && |rows| == m && |rows[0]| == n
        ensures StarredRows(p, rows, scalar) == ScaledRows(p, rows, scalar)
      {
        forall i | 0 <= i < m ensures StarredRows(p, rows, scalar)[i] == ScaledRows(p, rows, scalar)[i] {}
      }
    } else {
      var ones := seq(m, _ => seq(n, _ => 1));
      assert StarredRows(p, ones, 0)[0][m] == 1;
      assert ScaledRows(p, ones, 0)[0][m] == 0 by { Reduced(p, 0); }
      assert Rectangular(ones) && |ones| == m && |ones[0]| == n && StarredRows(p, ones, 0) != ScaledRows(p, ones, 0);
    }
  }
}
