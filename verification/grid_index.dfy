/** Row-major linear indices over a three-dimensional grid, as used for the
    adaptive tile readback (batch, tile row, tile column) and for the probe
    grid (z, y, x). */
module GridIndex {
  import opened Align

  datatype Cell = Cell(x: nat, y: nat, z: nat)

  /** `x + dx * (y + dy * z)`: x varies fastest, then y, then z. */
  function Linear(c: Cell, dx: nat, dy: nat): nat
  {
    c.x + dx * (c.y + dy * c.z)
  }

  predicate InGrid(c: Cell, dx: nat, dy: nat, dz: nat)
  {
    c.x < dx && c.y < dy && c.z < dz
  }

  /** The cell of index `idx`, as the probe baker computes it. */
  function Delinear(idx: nat, dx: nat, dy: nat, dz: nat): (c: Cell)
    requires dx > 0 && dy > 0 && dz > 0
    ensures InGrid(c, dx, dy, dz)
  {
    Cell(idx % dx, (idx / dx) % dy, (idx / (dx * dy)) % dz)
  }

  /** A cell inside the grid gets an index inside the grid. */
  lemma LinearInRange(c: Cell, dx: nat, dy: nat, dz: nat)
    requires InGrid(c, dx, dy, dz)
    ensures Linear(c, dx, dy) < dx * dy * dz
  {
    var inner := c.y + dy * c.z;
    assert inner < dy * dz by {
      assert inner <= (dy - 1) + dy * c.z;
      assert dy * c.z <= dy * (dz - 1) by { MulLe(dy, c.z, dz - 1); }
      assert dy * (dz - 1) == dy * dz - dy;
    }
    assert inner <= dy * dz - 1;
    assert dx * inner <= dx * (dy * dz - 1) by { MulLe(dx, inner, dy * dz - 1); }
    assert dx * (dy * dz - 1) == dx * (dy * dz) - dx;
    assert dx * (dy * dz) == dx * dy * dz;
  }

  lemma MulLe(a: nat, b: nat, c: nat)
    requires b <= c
    ensures a * b <= a * c
  {
  }

  /** Delinear undoes Linear on the grid. */
  lemma DelinearOfLinear(c: Cell, dx: nat, dy: nat, dz: nat)
    requires dx > 0 && dy > 0 && dz > 0 && InGrid(c, dx, dy, dz)
    ensures Delinear(Linear(c, dx, dy), dx, dy, dz) == c
    ensures Linear(c, dx, dy) / (dx * dy) == c.z
  {
    var idx := Linear(c, dx, dy);
    var inner := c.y + dy * c.z;
    DivModUnique(idx, dx, inner, c.x);
    DivModUnique(inner, dy, c.z, c.y);
    var low := c.x + dx * c.y;
    assert low < dx * dy by {
      assert dx * c.y <= dx * (dy - 1) by { MulLe(dx, c.y, dy - 1); }
    }
    assert idx == c.z * (dx * dy) + low by {
      assert dx * (dy * c.z) == c.z * (dx * dy);
    }
    DivModUnique(idx, dx * dy, c.z, low);
    DivModUnique(c.z, dz, 0, c.z);
  }

  /** Linear undoes Delinear on indices inside the grid. */
  lemma LinearOfDelinear(idx: nat, dx: nat, dy: nat, dz: nat)
    requires dx > 0 && dy > 0 && dz > 0 && idx < dx * dy * dz
    ensures Linear(Delinear(idx, dx, dy, dz), dx, dy) == idx
  {
    var q1 := idx / dx;
    DivDiv(idx, dx, dy);
    var q2 := q1 / dy;
    QuotientBelow(idx, dx * dy, dz);
    DivModUnique(q2, dz, 0, q2);
    assert q1 == q1 % dy + dy * q2;
    assert idx == idx % dx + dx * q1;
  }

  /** Dividing by `dx` then by `dy` is dividing by `dx * dy`. */
  lemma DivDiv(n: nat, dx: nat, dy: nat)
    requires dx > 0 && dy > 0
    ensures n / (dx * dy) == (n / dx) / dy
  {
    var q1 := n / dx;
    var q2 := q1 / dy;
    var r := n % dx + dx * (q1 % dy);
    assert n == q2 * (dx * dy) + r by {
      assert n == q1 * dx + n % dx;
      assert q1 == q2 * dy + q1 % dy;
      assert q1 * dx == q2 * (dx * dy) + dx * (q1 % dy) by {
        assert q1 * dx == (q2 * dy + q1 % dy) * dx;
      }
    }
    assert r < dx * dy by {
      assert dx * (q1 % dy) <= dx * (dy - 1) by { MulLe(dx, q1 % dy, dy - 1); }
    }
    DivModUnique(n, dx * dy, q2, r);
  }

  lemma QuotientBelow(n: nat, m: nat, k: nat)
    requires m > 0 && n < m * k
    ensures n / m < k
  {
    var q := n / m;
    assert n == q * m + n % m;
  }

  /** Distinct cells of the grid get distinct indices. */
  lemma LinearInjective(c1: Cell, c2: Cell, dx: nat, dy: nat, dz: nat)
    requires dx > 0 && dy > 0 && dz > 0 && InGrid(c1, dx, dy, dz) && InGrid(c2, dx, dy, dz)
    requires Linear(c1, dx, dy) == Linear(c2, dx, dy)
    ensures c1 == c2
  {
    DelinearOfLinear(c1, dx, dy, dz);
    DelinearOfLinear(c2, dx, dy, dz);
  }
}
