/** JetInfo: the record of one jet (src/JetInfo.cc). The label jetID takes no part in the
    comparisons; the constituent count nCsts and the eight double fields are the ordering
    fields. The class declaration (JetInfo.h) is not part of this model: the field types
    follow the numeric_limits calls of Minimize and Maximize, and the default field
    initialisers, getters and setters are left out. */
module Jet {
  import opened Limits
  import Const
  import Order
  import Sources
  import Names

  /** The ten fields of a JetInfo, in the order of its member list. */
  datatype JetRecord = JetRecord(
    jetID: UInt32,
    nCsts: UInt64,
    ene: real,
    px: real,
    py: real,
    pz: real,
    pt: real,
    eta: real,
    phi: real,
    area: real)

  /** The state Minimize() leaves: the unsigned fields at 0, every double at DBL_MIN. */
  function Minimized(): JetRecord {
    JetRecord(0, 0, DBL_MIN, DBL_MIN, DBL_MIN, DBL_MIN, DBL_MIN, DBL_MIN, DBL_MIN, DBL_MIN)
  }

  /** The state Maximize() leaves: jetID at UINT32_MAX, nCsts at UINT64_MAX, every double
      at DBL_MAX. */
  function Maximized(): JetRecord {
    JetRecord(UINT32_MAX, UINT64_MAX, DBL_MAX, DBL_MAX, DBL_MAX, DBL_MAX, DBL_MAX, DBL_MAX, DBL_MAX, DBL_MAX)
  }

  /** The nine ordering fields, in the order the operators test them. */
  function Coords(r: JetRecord): seq<real> {
    [r.nCsts as real, r.ene, r.px, r.py, r.pz, r.pt, r.eta, r.phi, r.area]
  }

  /** The number of constituents as stored in the uint64_t field: the conversion from the
      vector's size reduces modulo 2^64. */
  function ConstituentCount(pseudojet: Sources.PseudoJet): (n: UInt64)
    ensures |pseudojet.constituents| <= UINT64_MAX ==> n == |pseudojet.constituents|
  {
    |pseudojet.constituents| % (UINT64_MAX + 1)
  }

  /** What SetInfo(pseudojet) makes of the record `r`. */
  function Populated(r: JetRecord, pseudojet: Sources.PseudoJet): (p: JetRecord)
    ensures p.nCsts == ConstituentCount(pseudojet) && p.ene == pseudojet.e
    ensures p.px == pseudojet.px && p.py == pseudojet.py && p.pz == pseudojet.pz
    ensures p.pt == pseudojet.perp && p.eta == pseudojet.pseudorapidity && p.phi == pseudojet.phiStd
    ensures p.jetID == r.jetID && p.area == r.area
  {
    r.(nCsts := ConstituentCount(pseudojet), ene := pseudojet.e,
       px := pseudojet.px, py := pseudojet.py, pz := pseudojet.pz,
       pt := pseudojet.perp, eta := pseudojet.pseudorapidity, phi := pseudojet.phiStd)
  }

  // ---------------------------------------------------------------------------
  // The four overloaded operators: conjunctions over the ordering fields only, each equal
  // to the generic field-wise comparison of the two ordering points.

  function Less(lhs: JetRecord, rhs: JetRecord): (r: bool)
    ensures r <==> Order.Pointwise(Order.Lt, Coords(lhs), Coords(rhs))
  {
    CoordsPointwise(Order.Lt, lhs, rhs);
    && lhs.nCsts < rhs.nCsts
    && lhs.ene < rhs.ene
    && lhs.px < rhs.px
    && lhs.py < rhs.py
    && lhs.pz < rhs.pz
    && lhs.pt < rhs.pt
    && lhs.eta < rhs.eta
    && lhs.phi < rhs.phi
    && lhs.area < rhs.area
  }

  function Greater(lhs: JetRecord, rhs: JetRecord): (r: bool)
    ensures r <==> Order.Pointwise(Order.Gt, Coords(lhs), Coords(rhs))
  {
    CoordsPointwise(Order.Gt, lhs, rhs);
    && lhs.nCsts > rhs.nCsts
    && lhs.ene > rhs.ene
    && lhs.px > rhs.px
    && lhs.py > rhs.py
    && lhs.pz > rhs.pz
    && lhs.pt > rhs.pt
    && lhs.eta > rhs.eta
    && lhs.phi > rhs.phi
    && lhs.area > rhs.area
  }

  function LessEq(lhs: JetRecord, rhs: JetRecord): (r: bool)
    ensures r <==> Order.Pointwise(Order.Le, Coords(lhs), Coords(rhs))
  {
    CoordsPointwise(Order.Le, lhs, rhs);
    && lhs.nCsts <= rhs.nCsts
    && lhs.ene <= rhs.ene
    && lhs.px <= rhs.px
    && lhs.py <= rhs.py
    && lhs.pz <= rhs.pz
    && lhs.pt <= rhs.pt
    && lhs.eta <= rhs.eta
    && lhs.phi <= rhs.phi
    && lhs.area <= rhs.area
  }

  function GreaterEq(lhs: JetRecord, rhs: JetRecord): (r: bool)
    ensures r <==> Order.Pointwise(Order.Ge, Coords(lhs), Coords(rhs))
  {
    CoordsPointwise(Order.Ge, lhs, rhs);
    && lhs.nCsts >= rhs.nCsts
    && lhs.ene >= rhs.ene
    && lhs.px >= rhs.px
    && lhs.py >= rhs.py
    && lhs.pz >= rhs.pz
    && lhs.pt >= rhs.pt
    && lhs.eta >= rhs.eta
    && lhs.phi >= rhs.phi
    && lhs.area >= rhs.area
  }

  /** The generic comparison of two ordering points, spelled out field by field. */
  lemma CoordsPointwise(c: Order.Cmp, a: JetRecord, b: JetRecord)
    ensures Order.Pointwise(c, Coords(a), Coords(b)) <==>
      && Order.Holds(c, a.nCsts as real, b.nCsts as real) && Order.Holds(c, a.ene, b.ene)
      && Order.Holds(c, a.px, b.px) && Order.Holds(c, a.py, b.py) && Order.Holds(c, a.pz, b.pz)
      && Order.Holds(c, a.pt, b.pt) && Order.Holds(c, a.eta, b.eta) && Order.Holds(c, a.phi, b.phi)
      && Order.Holds(c, a.area, b.area)
  {
    var x, y := Coords(a), Coords(b);
    Order.PointwiseAt(c, x, y);
    if && Order.Holds(c, a.nCsts as real, b.nCsts as real) && Order.Holds(c, a.ene, b.ene)
       && Order.Holds(c, a.px, b.px) && Order.Holds(c, a.py, b.py) && Order.Holds(c, a.pz, b.pz)
       && Order.Holds(c, a.pt, b.pt) && Order.Holds(c, a.eta, b.eta) && Order.Holds(c, a.phi, b.phi)
       && Order.Holds(c, a.area, b.area)
    {
      forall i | 0 <= i < 9 ensures Order.Holds(c, x[i], y[i]) {
        assert i == 0 || i == 1 || i == 2 || i == 3 || i == 4 || i == 5 || i == 6 || i == 7 || i == 8;
      }
    } else {
      assert !Order.Holds(c, x[0], y[0]) || !Order.Holds(c, x[1], y[1]) || !Order.Holds(c, x[2], y[2])
          || !Order.Holds(c, x[3], y[3]) || !Order.Holds(c, x[4], y[4]) || !Order.Holds(c, x[5], y[5])
          || !Order.Holds(c, x[6], y[6]) || !Order.Holds(c, x[7], y[7]) || !Order.Holds(c, x[8], y[8]);
    }
  }


  /** The ordering point of the minimize state is 0 followed by eight DBL_MIN; that of the
      maximize state is UINT64_MAX followed by eight DBL_MAX. */
  lemma SentinelCoords()
    ensures Coords(Minimized()) == [0.0] + Order.Constant(8, DBL_MIN)
    ensures Coords(Maximized()) == [UINT64_MAX as real] + Order.Constant(8, DBL_MAX)
  {
    forall i | 1 <= i < 9
      ensures Coords(Minimized())[i] == DBL_MIN && Coords(Maximized())[i] == DBL_MAX
    {
      assert i == 1 || i == 2 || i == 3 || i == 4 || i == 5 || i == 6 || i == 7 || i == 8;
    }
  }

  /** Acceptance (>= minimum and <= maximum) is membership of the box [minimum, maximum],
      ordering field by ordering field. */
  lemma AcceptanceIsBox(r: JetRecord, minimum: JetRecord, maximum: JetRecord)
    ensures GreaterEq(r, minimum) && LessEq(r, maximum) <==>
            forall i :: 0 <= i < |Coords(r)| ==> Coords(minimum)[i] <= Coords(r)[i] <= Coords(maximum)[i]
  {
    Order.InBoxAt(Coords(r), Coords(minimum), Coords(maximum));
  }

  lemma NonStrictReflexive(a: JetRecord)
    ensures LessEq(a, a) && GreaterEq(a, a)
  {
  }

  lemma StrictIrreflexive(a: JetRecord)
    ensures !Less(a, a) && !Greater(a, a)
  {
  }

  lemma LessAsymmetric(a: JetRecord, b: JetRecord)
    ensures !(Less(a, b) && Less(b, a))
    ensures !(Greater(a, b) && Greater(b, a))
  {
  }

  /** `>` and `>=` are the converses of `<` and `<=`; a strict comparison implies the
      non-strict one. */
  lemma ConverseOperators(a: JetRecord, b: JetRecord)
    ensures Greater(a, b) <==> Less(b, a)
    ensures GreaterEq(a, b) <==> LessEq(b, a)
    ensures Less(a, b) ==> LessEq(a, b)
  {
  }

  /** `<=` is transitive, and it is antisymmetric on the ordering fields: a partial order. */
  lemma LessEqPartialOrder(a: JetRecord, b: JetRecord, c: JetRecord)
    ensures LessEq(a, b) && LessEq(b, c) ==> LessEq(a, c)
    ensures LessEq(a, b) && LessEq(b, a) ==> Coords(a) == Coords(b)
  {
  }

  /** The order is partial: a jet with more energy but smaller pseudorapidity than another
      is comparable with it under none of the four operators. */
  lemma Incomparable(a: JetRecord, b: JetRecord)
    requires a.ene > b.ene && a.eta < b.eta
    ensures !Less(a, b) && !Less(b, a) && !Greater(a, b) && !Greater(b, a)
    ensures !LessEq(a, b) && !LessEq(b, a) && !GreaterEq(a, b) && !GreaterEq(b, a)
  {
  }

  /** The label jetID takes no part in any comparison. */
  lemma OperatorsIgnoreJetID(a: JetRecord, b: JetRecord, jetID: UInt32)
    ensures var a' := a.(jetID := jetID);
            && (Less(a', b) <==> Less(a, b)) && (Less(b, a') <==> Less(b, a))
            && (Greater(a', b) <==> Greater(a, b)) && (Greater(b, a') <==> Greater(b, a))
            && (LessEq(a', b) <==> LessEq(a, b)) && (LessEq(b, a') <==> LessEq(b, a))
            && (GreaterEq(a', b) <==> GreaterEq(a, b)) && (GreaterEq(b, a') <==> GreaterEq(b, a))
  {
  }

  /** The minimize sentinel as a lower bound puts no constraint on nCsts (its minimum, 0,
      is a true minimum), but because DBL_MIN is positive it rejects every jet with a zero
      or negative energy, momentum component, pseudorapidity, azimuth or area. */
  lemma MinimizedLowerBound(r: JetRecord)
    ensures GreaterEq(r, Minimized()) <==> forall i :: 1 <= i < |Coords(r)| ==> Coords(r)[i] >= DBL_MIN
    ensures r.eta <= 0.0 || r.phi <= 0.0 || r.px <= 0.0 ==> !GreaterEq(r, Minimized())
  {
    SentinelCoords();
    Order.PointwiseAt(Order.Ge, Coords(r), Coords(Minimized()));
    DoubleSentinels();
  }

  /** The maximize sentinel as an upper bound admits every jet with finite double fields,
      and a jet in the maximize state passes a finite upper bound only if the bound is
      itself at the maximum in every ordering field. A jet in the minimize state passes a
      lower bound only if the bound has no constituents and every double ordering field at
      most DBL_MIN. */
  lemma SentinelBounds(r: JetRecord)
    requires Order.AllFinite(Coords(r)[1..])
    ensures LessEq(r, Maximized())
    ensures LessEq(Maximized(), r) <==> Coords(r) == Coords(Maximized())
    ensures GreaterEq(Minimized(), r) <==>
              r.nCsts == 0 && forall i :: 1 <= i < |Coords(r)| ==> Coords(r)[i] <= DBL_MIN
  {
    MaximizedBounds(r);
    MinimizedAsLowerBound(r);
  }

  /** The maximize half of SentinelBounds. */
  lemma MaximizedBounds(r: JetRecord)
    requires Order.AllFinite(Coords(r)[1..])
    ensures LessEq(r, Maximized())
    ensures LessEq(Maximized(), r) <==> Coords(r) == Coords(Maximized())
  {
    SentinelCoords();
    var tail := Coords(r)[1..];
    var top := Order.Constant(8, DBL_MAX);
    Order.ConstantAt(8, DBL_MAX);
    assert Coords(r) == [r.nCsts as real] + tail;
    Order.MaximumIsTop(tail);
    Order.PointwiseAt(Order.Le, Coords(r), Coords(Maximized()));
    Order.PointwiseAt(Order.Le, Coords(Maximized()), Coords(r));
    if LessEq(Maximized(), r) {
      Order.PointwiseAt(Order.Le, top, tail);
    }
  }

  /** The minimize half of SentinelBounds: the minimize state is >= a jet exactly when the
      jet has no constituents and every double ordering field is at most DBL_MIN. */
  lemma MinimizedAsLowerBound(r: JetRecord)
    ensures GreaterEq(Minimized(), r) <==>
              r.nCsts == 0 && forall i :: 1 <= i < |Coords(r)| ==> Coords(r)[i] <= DBL_MIN
  {
    var x := Coords(r);
    if GreaterEq(Minimized(), r) {
      forall i | 1 <= i < |x| ensures x[i] <= DBL_MIN {
        assert i == 1 || i == 2 || i == 3 || i == 4 || i == 5 || i == 6 || i == 7 || i == 8;
      }
    } else {
      assert r.nCsts != 0 || x[1] > DBL_MIN || x[2] > DBL_MIN || x[3] > DBL_MIN || x[4] > DBL_MIN
          || x[5] > DBL_MIN || x[6] > DBL_MIN || x[7] > DBL_MIN || x[8] > DBL_MIN;
    }
  }

  // ---------------------------------------------------------------------------

  class JetInfo {
    var jetID: UInt32
    var nCsts: UInt64
    var ene: real
    var px: real
    var py: real
    var pz: real
    var pt: real
    var eta: real
    var phi: real
    var area: real

    /** The record's current field values. */
    function Value(): JetRecord
      reads this
    {
      JetRecord(jetID, nCsts, ene, px, py, pz, pt, eta, phi, area)
    }

    /** JetInfo(init): the minimize state for Minimize, the maximize state otherwise. */
    constructor FromInit(init: Const.Init)
      ensures init.Minimize? ==> Value() == Minimized()
      ensures !init.Minimize? ==> Value() == Maximized()
    {
      new;
      match init {
        case Minimize => Minimize();
        case Maximize => Maximize();
        case Unlisted(_) => Maximize();
      }
    }

    /** JetInfo(pseudojet): SetInfo(pseudojet) on a fresh record. jetID and area keep their
        default initialisers, which are not part of this model. */
    constructor FromPseudoJet(pseudojet: Sources.PseudoJet)
      ensures nCsts == ConstituentCount(pseudojet) && ene == pseudojet.e
      ensures px == pseudojet.px && py == pseudojet.py && pz == pseudojet.pz
      ensures pt == pseudojet.perp && eta == pseudojet.pseudorapidity && phi == pseudojet.phiStd
    {
      new;
      SetInfo(pseudojet);
    }

    method Minimize()
      modifies this
      ensures Value() == Minimized()
    {
      jetID := 0;
      nCsts := 0;
      ene := DBL_MIN;
      px := DBL_MIN;
      py := DBL_MIN;
      pz := DBL_MIN;
      pt := DBL_MIN;
      eta := DBL_MIN;
      phi := DBL_MIN;
      area := DBL_MIN;
    }

    method Maximize()
      modifies this
      ensures Value() == Maximized()
    {
      jetID := UINT32_MAX;
      nCsts := UINT64_MAX;
      ene := DBL_MAX;
      px := DBL_MAX;
      py := DBL_MAX;
      pz := DBL_MAX;
      pt := DBL_MAX;
      eta := DBL_MAX;
      phi := DBL_MAX;
      area := DBL_MAX;
    }

    /** Reset is Maximize, not a zeroing. */
    method Reset()
      modifies this
      ensures Value() == Maximized()
    {
      Maximize();
    }

    method SetInfo(pseudojet: Sources.PseudoJet)
      modifies this
      ensures Value() == Populated(old(Value()), pseudojet)
    {
      nCsts := ConstituentCount(pseudojet);
      ene := pseudojet.e;
      px := pseudojet.px;
      py := pseudojet.py;
      pz := pseudojet.pz;
      pt := pseudojet.perp;
      eta := pseudojet.pseudorapidity;
      phi := pseudojet.phiStd;
    }

    method IsInAcceptance(minimum: JetInfo, maximum: JetInfo) returns (accepted: bool)
      ensures accepted <==> GreaterEq(Value(), minimum.Value()) && LessEq(Value(), maximum.Value())
      ensures accepted <==> forall i :: 0 <= i < 9 ==>
                Coords(minimum.Value())[i] <= Coords(Value())[i] <= Coords(maximum.Value())[i]
    {
      accepted := GreaterEq(Value(), minimum.Value()) && LessEq(Value(), maximum.Value());
      AcceptanceIsBox(Value(), minimum.Value(), maximum.Value());
    }

    /** The overload taking the bounds as a (minimum, maximum) pair. */
    method IsInAcceptanceRange(range: (JetInfo, JetInfo)) returns (accepted: bool)
      ensures accepted <==> GreaterEq(Value(), range.0.Value()) && LessEq(Value(), range.1.Value())
      ensures accepted <==> forall i :: 0 <= i < 9 ==>
                Coords(range.0.Value())[i] <= Coords(Value())[i] <= Coords(range.1.Value())[i]
    {
      accepted := GreaterEq(Value(), range.0.Value()) && LessEq(Value(), range.1.Value());
      AcceptanceIsBox(Value(), range.0.Value(), range.1.Value());
    }

    /** One name per field. */
    static function GetListOfMembers(): (members: seq<string>)
      ensures |members| == 10 && Names.Distinct(members)
      ensures members[0] == "jetID" && members[1] == "nCsts" && members[9] == "area"
    {
      ["jetID", "nCsts", "ene", "px", "py", "pz", "pt", "eta", "phi", "area"]
    }
  }
}
