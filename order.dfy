/** The comparison every record kind implements by hand, written once: a relation holds
    between two records when it holds between every pair of corresponding ordering fields.
    The records' operators are checked against this reference definition. */
module Order {
  import opened Limits

  /** The four comparisons a record overloads: <, >, <= and >=. */
  datatype Cmp = Lt | Gt | Le | Ge

  predicate Holds(c: Cmp, x: real, y: real) {
    match c
    case Lt => x < y
    case Gt => x > y
    case Le => x <= y
    case Ge => x >= y
  }

  /** `c` holds field by field between the ordering points `xs` and `ys`. */
  predicate Pointwise(c: Cmp, xs: seq<real>, ys: seq<real>)
    requires |xs| == |ys|
    decreases |xs|
  {
    |xs| == 0 || (Holds(c, xs[0], ys[0]) && Pointwise(c, xs[1..], ys[1..]))
  }

  /** Pointwise is the conjunction over every coordinate. */
  lemma {:induction false} PointwiseAt(c: Cmp, xs: seq<real>, ys: seq<real>)
    requires |xs| == |ys|
    ensures Pointwise(c, xs, ys) <==> forall i :: 0 <= i < |xs| ==> Holds(c, xs[i], ys[i])
    decreases |xs|
  {
    if |xs| > 0 {
      PointwiseAt(c, xs[1..], ys[1..]);
      assert forall i :: 1 <= i < |xs| ==> xs[1..][i - 1] == xs[i] && ys[1..][i - 1] == ys[i];
    }
  }

  /** Acceptance box: `lo <= x <= hi` coordinate by coordinate. */
  predicate InBox(x: seq<real>, lo: seq<real>, hi: seq<real>)
    requires |x| == |lo| == |hi|
  {
    Pointwise(Ge, x, lo) && Pointwise(Le, x, hi)
  }

  lemma InBoxAt(x: seq<real>, lo: seq<real>, hi: seq<real>)
    requires |x| == |lo| == |hi|
    ensures InBox(x, lo, hi) <==> forall i :: 0 <= i < |x| ==> lo[i] <= x[i] <= hi[i]
  {
    PointwiseAt(Ge, x, lo);
    PointwiseAt(Le, x, hi);
  }

  /** The non-strict comparisons are reflexive. */
  lemma {:induction false} NonStrictReflexive(c: Cmp, xs: seq<real>)
    requires c == Le || c == Ge
    ensures Pointwise(c, xs, xs)
    decreases |xs|
  {
    if |xs| > 0 {
      NonStrictReflexive(c, xs[1..]);
    }
  }

  /** The strict comparisons are irreflexive on any point with at least one ordering field. */
  lemma StrictIrreflexive(c: Cmp, xs: seq<real>)
    requires c == Lt || c == Gt
    requires |xs| > 0
    ensures !Pointwise(c, xs, xs)
  {
  }

  /** `<` and `>` are converses of each other, and so are `<=` and `>=`. */
  lemma {:induction false} Converse(xs: seq<real>, ys: seq<real>)
    requires |xs| == |ys|
    ensures Pointwise(Lt, xs, ys) <==> Pointwise(Gt, ys, xs)
    ensures Pointwise(Le, xs, ys) <==> Pointwise(Ge, ys, xs)
    decreases |xs|
  {
    if |xs| > 0 {
      Converse(xs[1..], ys[1..]);
    }
  }

  /** `<=` is transitive and antisymmetric, so it is a partial order on ordering points. */
  lemma LeTransitive(xs: seq<real>, ys: seq<real>, zs: seq<real>)
    requires |xs| == |ys| == |zs|
    requires Pointwise(Le, xs, ys) && Pointwise(Le, ys, zs)
    ensures Pointwise(Le, xs, zs)
  {
    PointwiseAt(Le, xs, ys);
    PointwiseAt(Le, ys, zs);
    PointwiseAt(Le, xs, zs);
  }

  lemma LeAntisymmetric(xs: seq<real>, ys: seq<real>)
    requires |xs| == |ys|
    requires Pointwise(Le, xs, ys) && Pointwise(Le, ys, xs)
    ensures xs == ys
  {
    PointwiseAt(Le, xs, ys);
    PointwiseAt(Le, ys, xs);
  }

  /** `<` is asymmetric: `xs < ys` and `ys < xs` never both hold. */
  lemma LtAsymmetric(xs: seq<real>, ys: seq<real>)
    requires |xs| == |ys| > 0
    ensures !(Pointwise(Lt, xs, ys) && Pointwise(Lt, ys, xs))
  {
  }

  /** `<` implies `<=`. */
  lemma {:induction false} LtImpliesLe(xs: seq<real>, ys: seq<real>)
    requires |xs| == |ys|
    requires Pointwise(Lt, xs, ys)
    ensures Pointwise(Le, xs, ys)
    decreases |xs|
  {
    if |xs| > 0 {
      LtImpliesLe(xs[1..], ys[1..]);
    }
  }

  /** The point whose `n` coordinates are all `v`: the ordering point of a sentinel record. */
  function Constant(n: nat, v: real): seq<real> {
    seq(n, _ => v)
  }

  /** Unfolds Constant for proofs that index into a sentinel point. */
  lemma ConstantAt(n: nat, v: real)
    ensures |Constant(n, v)| == n && forall i :: 0 <= i < n ==> Constant(n, v)[i] == v
  {
  }

  /** Every coordinate is a finite double. */
  predicate AllFinite(xs: seq<real>) {
    forall i :: 0 <= i < |xs| ==> IsFiniteDouble(xs[i])
  }

  /** Comparing with a sentinel point is comparing every coordinate with the sentinel value. */
  lemma AgainstConstant(c: Cmp, xs: seq<real>, v: real)
    ensures Pointwise(c, xs, Constant(|xs|, v)) <==> forall i :: 0 <= i < |xs| ==> Holds(c, xs[i], v)
    ensures Pointwise(c, Constant(|xs|, v), xs) <==> forall i :: 0 <= i < |xs| ==> Holds(c, v, xs[i])
  {
    PointwiseAt(c, xs, Constant(|xs|, v));
    PointwiseAt(c, Constant(|xs|, v), xs);
  }

  /** The DBL_MAX point is above every finite point, and it is below a finite point only
      when that point is the DBL_MAX point itself. */
  lemma MaximumIsTop(xs: seq<real>)
    requires AllFinite(xs)
    ensures Pointwise(Le, xs, Constant(|xs|, DBL_MAX))
    ensures Pointwise(Le, Constant(|xs|, DBL_MAX), xs) <==> xs == Constant(|xs|, DBL_MAX)
  {
    AgainstConstant(Le, xs, DBL_MAX);
    if Pointwise(Le, Constant(|xs|, DBL_MAX), xs) {
      assert forall i :: 0 <= i < |xs| ==> xs[i] == Constant(|xs|, DBL_MAX)[i];
    }
  }
}
