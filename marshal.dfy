/** `xform_to_matrix` and `set_node_xform`: copying flat lists of 16 floats
    into 4x4 matrices, row-major, and attaching either one static matrix or
    an array of motion keys to a node's matrix parameter. */
module Marshal {
  import opened PyValues
  import opened Arnold

  /** The matrix whose cell (y, x) holds `t[4 * y + x]`. */
  function MatrixOf<T>(t: seq<T>): (m: Matrix<T>)
    requires |t| >= 16
    ensures Is4x4(m)
    ensures forall y, x :: 0 <= y < 4 && 0 <= x < 4 ==> m[y][x] == t[4 * y + x]
  {
    seq(4, y requires 0 <= y < 4 => t[4 * y .. 4 * y + 4])
  }

  /** The 16 cells of a matrix, row by row. */
  function Flatten<T>(m: Matrix<T>): (t: seq<T>)
    requires Is4x4(m)
  {
    m[0] + m[1] + m[2] + m[3]
  }

  /** Only the first 16 entries reach the matrix, each exactly where it was. */
  lemma FlattenMatrixOf<T>(t: seq<T>)
    requires |t| >= 16
    ensures Flatten(MatrixOf(t)) == t[..16]
  {
    var m := MatrixOf(t);
    assert t[..16] == t[0..4] + t[4..8] + t[8..12] + t[12..16];
    assert m[0] == t[0..4] && m[1] == t[4..8] && m[2] == t[8..12] && m[3] == t[12..16];
  }

  /** Every matrix is the one marshaled from its own cells. */
  lemma MatrixOfFlatten<T>(m: Matrix<T>)
    requires Is4x4(m)
    ensures MatrixOf(Flatten(m)) == m
  {
    var t := Flatten(m);
    var r := MatrixOf(t);
    forall y | 0 <= y < 4 ensures r[y] == m[y] {
      forall x | 0 <= x < 4 ensures r[y][x] == m[y][x] {
        assert t[4 * y + x] == m[y][x];
      }
    }
  }

  /** Entries beyond index 15 never affect the matrix. */
  lemma MatrixOfIgnoresTail<T>(a: seq<T>, b: seq<T>)
    requires |a| >= 16 && |b| >= 16 && a[..16] == b[..16]
    ensures MatrixOf(a) == MatrixOf(b)
  {
    FlattenMatrixOf(a);
    FlattenMatrixOf(b);
    MatrixOfFlatten(MatrixOf(a));
    MatrixOfFlatten(MatrixOf(b));
  }

  function Min(a: int, b: int): int {
    if a < b then a else b
  }

  /** What `xform_to_matrix(v)` returns, or the exception it raises: it reads
      `v[0]` to `v[15]` in order and stores each into a float cell. */
  function ToMatrix<T>(v: PyVal<T>): (r: Result<Matrix<T>>)
    ensures v.Float? ==> r == Err(TypeError)
    ensures r.Ok? <==> v.PyList? && 16 <= |v.items| && forall k :: 0 <= k < 16 ==> v.items[k].Float?
    ensures r.Ok? ==> Is4x4(r.value)
    ensures r.Ok? ==> forall y, x :: 0 <= y < 4 && 0 <= x < 4 ==> r.value[y][x] == v.items[4 * y + x].v
    ensures r.Err? ==> r.error == IndexError || r.error == TypeError
    ensures r.Err? ==> (r.error == IndexError <==>
      v.PyList? && |v.items| < 16 && forall k :: 0 <= k < |v.items| ==> v.items[k].Float?)
  {
    match v
    case Float(_) => Err(TypeError)
    case PyList(items) =>
      var front := items[..Min(16, |items|)];
      match MapAll(front, AsFloat)
      case Err(e) => Err(e)
      case Ok(cells) =>
        if |cells| < 16 then Err(IndexError) else Ok(MatrixOf(cells))
  }

  /** A list of at least 16 floats marshals into exactly the matrix of its first 16. */
  lemma ToMatrixRow<T>(row: seq<T>)
    requires |row| >= 16
    ensures ToMatrix(Row(row)) == Ok(MatrixOf(row))
  {
    var front := Row(row).items[..16];
    assert forall k :: 0 <= k < 16 ==> AsFloat(front[k]) == Ok(row[k]);
    var cells := MapAll(front, AsFloat).value;
    assert cells == row[..16];
    MatrixOfIgnoresTail(cells, row);
  }

  /** `xform_to_matrix` reads only `v[0]` to `v[15]`: two lists that agree
      there give the same matrix, or raise the same exception. */
  lemma ToMatrixReadsFirst16<T>(a: seq<PyVal<T>>, b: seq<PyVal<T>>)
    requires |a| >= 16 && |b| >= 16 && a[..16] == b[..16]
    ensures ToMatrix(PyList(a)) == ToMatrix(PyList(b))
  {
    assert PyList(a).items[..Min(16, |a|)] == PyList(b).items[..Min(16, |b|)];
  }

  /** The order in which `xform_to_matrix` writes the cells: `a00 a01 ... a33`. */
  function RowMajor(): (order: seq<(int, int)>)
  {
    seq(16, k => (k / 4, k % 4))
  }

  /** The row-major order names every cell of the 4x4 matrix exactly once. */
  lemma RowMajorWritesEachCellOnce()
    ensures |RowMajor()| == 16
    ensures forall y, x :: 0 <= y < 4 && 0 <= x < 4 ==> (y, x) in RowMajor()
    ensures forall i, j :: 0 <= i < 16 && 0 <= j < 16 && RowMajor()[i] == RowMajor()[j] ==> i == j
  {
    var order := RowMajor();
    forall y, x | 0 <= y < 4 && 0 <= x < 4 ensures (y, x) in order {
      assert order[4 * y + x] == (y, x);
    }
    forall i, j | 0 <= i < 16 && 0 <= j < 16 && order[i] == order[j] ensures i == j {
      assert i == 4 * (i / 4) + i % 4 && j == 4 * (j / 4) + j % 4;
    }
  }

  /** The matrix held in a 4x4 array. */
  function Cells<T>(a: array2<T>): (m: Matrix<T>)
    requires a.Length0 == 4 && a.Length1 == 4
    reads a
    ensures Is4x4(m)
    ensures forall y, x :: 0 <= y < 4 && 0 <= x < 4 ==> m[y][x] == a[y, x]
  {
    seq(4, y reads a requires 0 <= y < 4 => seq(4, x reads a requires 0 <= x < 4 => a[y, x]))
  }

  /** `xform_to_matrix(transform16)`: fills a fresh matrix cell by cell, in
      row-major order, with `transform16[y*4+x]`. The ghost `order` records
      the cells written. */
  method XformToMatrix<T(0)>(transform16: PyVal<T>) returns (r: Result<Matrix<T>>, ghost order: seq<(int, int)>)
    ensures r == ToMatrix(transform16)
    ensures r.Ok? ==> order == RowMajor()
  {
    order := [];
    if transform16.Float? {
      // the first subscript, transform16[0], already fails
      return Err(TypeError), order;
    }
    var items := transform16.items;
    var m := new T[4, 4];
    for y := 0 to 4
      invariant 4 * y <= |items|
      invariant forall k :: 0 <= k < 4 * y ==> items[k].Float?
      invariant forall y', x' :: 0 <= y' < y && 0 <= x' < 4 ==> m[y', x'] == items[4 * y' + x'].v
      invariant order == RowMajor()[..4 * y]
    {
      for x := 0 to 4
        invariant 4 * y + x <= |items|
        invariant forall k :: 0 <= k < 4 * y + x ==> items[k].Float?
        invariant forall y', x' :: 0 <= y' < 4 && 0 <= x' < 4 && 4 * y' + x' < 4 * y + x ==>
          m[y', x'] == items[4 * y' + x'].v
        invariant order == RowMajor()[..4 * y + x]
      {
        var k := y * 4 + x;
        if k >= |items| {
          assert ToMatrix(transform16) == Err(IndexError);
          return Err(IndexError), order;
        }
        match items[k]
        case PyList(_) =>
          MapAllFirstError(items[..Min(16, |items|)], AsFloat, k);
          assert ToMatrix(transform16) == Err(TypeError);
          return Err(TypeError), order;
        case Float(f) =>
          m[y, x] := f;
          order := order + [(y, x)];
      }
    }
    r := Ok(Cells(m));
    var expected := ToMatrix(transform16).value;
    forall y | 0 <= y < 4 ensures r.value[y] == expected[y] {
      assert forall x :: 0 <= x < 4 ==> r.value[y][x] == expected[y][x];
    }
    assert r.value == expected;
  }

  /** What `set_node_xform(node, transform)` attaches to the node's matrix
      parameter, or the exception it raises. The branch depends only on
      `len(transform)`: below 16 the list holds motion keys, one flat list
      each; otherwise the list itself is one flat matrix. */
  function Xform<T>(transform: PyVal<T>): (r: Result<Attr<T>>)
    ensures transform.Float? ==> r == Err(TypeError)
    ensures r.Ok? && r.value.Sampled? ==> |r.value.keys| <= 15
    ensures transform.PyList? && |transform.items| < 16 ==>
      (r.Ok? <==> forall i :: 0 <= i < |transform.items| ==> ToMatrix(transform.items[i]).Ok?) &&
      (r.Ok? ==> r.value.Sampled? && |r.value.keys| == |transform.items|) &&
      (r.Ok? ==> forall i :: 0 <= i < |transform.items| ==> ToMatrix(transform.items[i]) == Ok(r.value.keys[i]))
    ensures transform.PyList? && |transform.items| >= 16 ==>
      (ToMatrix(transform).Ok? ==> r == Ok(Static(ToMatrix(transform).value))) &&
      (ToMatrix(transform).Err? ==> r == Err(ToMatrix(transform).error))
  {
    match transform
    case Float(_) => Err(TypeError)
    case PyList(items) =>
      if |items| < 16 then
        match MapAll(items, ToMatrix)
        case Err(e) => Err(e)
        case Ok(ms) => Ok(Sampled(ms))
      else
        match ToMatrix(transform)
        case Err(e) => Err(e)
        case Ok(m) => Ok(Static(m))
  }

  /** Fewer than 16 flat rows become exactly that many motion keys, the i-th
      being the matrix of the i-th row. */
  lemma XformSampledRows<T>(rows: seq<seq<T>>)
    requires |rows| < 16
    requires forall i :: 0 <= i < |rows| ==> |rows[i]| >= 16
    ensures Xform(PyList(seq(|rows|, i requires 0 <= i < |rows| => Row(rows[i])))) ==
      Ok(Sampled(seq(|rows|, i requires 0 <= i < |rows| => MatrixOf(rows[i]))))
  {
    var v := PyList(seq(|rows|, i requires 0 <= i < |rows| => Row(rows[i])));
    forall i | 0 <= i < |rows| ensures ToMatrix(v.items[i]) == Ok(MatrixOf(rows[i])) {
      ToMatrixRow(rows[i]);
    }
    var keys := Xform(v).value.keys;
    assert keys == seq(|rows|, i requires 0 <= i < |rows| => MatrixOf(rows[i]));
  }

  /** A flat list of at least 16 floats becomes one static matrix. */
  lemma XformStaticRow<T>(row: seq<T>)
    requires |row| >= 16
    ensures Xform(Row(row)) == Ok(Static(MatrixOf(row)))
  {
    ToMatrixRow(row);
  }

  /** When a motion key cannot be marshaled, `set_node_xform` raises what the
      first such key raises, and attaches nothing. */
  lemma XformSampledFirstError<T>(items: seq<PyVal<T>>, i: nat)
    requires |items| < 16 && i < |items|
    requires forall j :: 0 <= j < i ==> ToMatrix(items[j]).Ok?
    requires ToMatrix(items[i]).Err?
    ensures Xform(PyList(items)) == Err(ToMatrix(items[i]).error)
  {
    MapAllFirstError(items, ToMatrix, i);
  }

  /** `set_node_xform(node, transform)`. */
  method SetNodeXform<T(0)>(s: Session<T>, node: NodeRef, transform: PyVal<T>) returns (r: Result<()>)
    modifies s
    ensures s.renders == old(s.renders)
    ensures Xform(transform).Ok? ==> r == Ok(()) && s.log == old(s.log) + [AttrEvent(node, Xform(transform).value)]
    ensures Xform(transform).Err? ==> r == Err(Xform(transform).error) && s.log == old(s.log)
  {
    if transform.Float? {
      // len() of a float
      return Err(TypeError);
    }
    var items := transform.items;
    var listSize := |items|;
    if listSize < 16 {
      var xformArray := new AtArray<T>.Allocate(1, listSize);
      for i := 0 to listSize
        invariant s.log == old(s.log) && s.renders == old(s.renders)
        invariant forall j :: 0 <= j < i ==> ToMatrix(items[j]) == Ok(xformArray.data[j])
      {
        var m, order := XformToMatrix(items[i]);
        if m.Err? {
          XformSampledFirstError(items, i);
          return Err(m.error);
        }
        xformArray.SetMtx(i, m.value);
      }
      s.NodeSetArray(node, "matrix", xformArray);
      assert Xform(transform).value.keys == xformArray.data[..];
    } else {
      var m, order := XformToMatrix(transform);
      if m.Err? {
        return Err(m.error);
      }
      s.NodeSetMatrix(node, "matrix", m.value);
    }
    return Ok(());
  }
}
