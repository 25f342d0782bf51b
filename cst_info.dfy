/** CstInfo: the record of one jet constituent (src/CstInfo.h, src/CstInfo.cc).
    Five integer fields are labels (type, cstID, jetID, embedID, pid); the nine double
    fields are the ordering fields the comparison operators and the acceptance test use. */
module Cst {
  import opened Limits
  import Const
  import Order
  import Sources
  import Names

  /** The fourteen fields of a CstInfo in declaration order. `kind` is the field the
      source calls `type`, a reserved word here. */
  datatype CstRecord = CstRecord(
    kind: Int32,
    cstID: Int32,
    jetID: Int32,
    embedID: Int32,
    pid: Int32,
    z: real,
    dr: real,
    ene: real,
    px: real,
    py: real,
    pz: real,
    pt: real,
    eta: real,
    phi: real)

  /** The state Minimize() leaves: every int field at INT_MIN, every double at DBL_MIN. */
  function Minimized(): CstRecord {
    CstRecord(INT_MIN, INT_MIN, INT_MIN, INT_MIN, INT_MIN,
              DBL_MIN, DBL_MIN, DBL_MIN, DBL_MIN, DBL_MIN, DBL_MIN, DBL_MIN, DBL_MIN, DBL_MIN)
  }

  /** The state Maximize() leaves, which is also the state of the field initialisers. */
  function Maximized(): CstRecord {
    CstRecord(INT_MAX, INT_MAX, INT_MAX, INT_MAX, INT_MAX,
              DBL_MAX, DBL_MAX, DBL_MAX, DBL_MAX, DBL_MAX, DBL_MAX, DBL_MAX, DBL_MAX, DBL_MAX)
  }

  /** The nine ordering fields, in the order the operators test them. */
  function Coords(r: CstRecord): seq<real> {
    [r.z, r.dr, r.ene, r.px, r.py, r.pz, r.pt, r.eta, r.phi]
  }

  /** What SetInfo(pseudojet) makes of the record `r`. */
  function Populated(r: CstRecord, pseudojet: Sources.PseudoJet): (p: CstRecord)
    ensures p.cstID == pseudojet.userIndex && p.ene == pseudojet.e
    ensures p.px == pseudojet.px && p.py == pseudojet.py && p.pz == pseudojet.pz
    ensures p.pt == pseudojet.perp && p.eta == pseudojet.pseudorapidity && p.phi == pseudojet.phiStd
    ensures p.kind == r.kind && p.jetID == r.jetID && p.embedID == r.embedID && p.pid == r.pid
    ensures p.z == r.z && p.dr == r.dr
  {
    r.(cstID := pseudojet.userIndex, ene := pseudojet.e,
       px := pseudojet.px, py := pseudojet.py, pz := pseudojet.pz,
       pt := pseudojet.perp, eta := pseudojet.pseudorapidity, phi := pseudojet.phiStd)
  }

  // ---------------------------------------------------------------------------
  // The four overloaded operators: conjunctions over the ordering fields only, each equal
  // to the generic field-wise comparison of the two ordering points.

  function Less(lhs: CstRecord, rhs: CstRecord): (r: bool)
    ensures r <==> Order.Pointwise(Order.Lt, Coords(lhs), Coords(rhs))
  {
    CoordsPointwise(Order.Lt, lhs, rhs);
    && lhs.z < rhs.z
    && lhs.dr < rhs.dr
    && lhs.ene < rhs.ene
    && lhs.px < rhs.px
    && lhs.py < rhs.py
    && lhs.pz < rhs.pz
    && lhs.pt < rhs.pt
    && lhs.eta < rhs.eta
    && lhs.phi < rhs.phi
  }

  function Greater(lhs: CstRecord, rhs: CstRecord): (r: bool)
    ensures r <==> Order.Pointwise(Order.Gt, Coords(lhs), Coords(rhs))
  {
    CoordsPointwise(Order.Gt, lhs, rhs);
    && lhs.z > rhs.z
    && lhs.dr > rhs.dr
    && lhs.ene > rhs.ene
    && lhs.px > rhs.px
    && lhs.py > rhs.py
    && lhs.pz > rhs.pz
    && lhs.pt > rhs.pt
    && lhs.eta > rhs.eta
    && lhs.phi > rhs.phi
  }

  function LessEq(lhs: CstRecord, rhs: CstRecord): (r: bool)
    ensures r <==> Order.Pointwise(Order.Le, Coords(lhs), Coords(rhs))
  {
    CoordsPointwise(Order.Le, lhs, rhs);
    && lhs.z <= rhs.z
    && lhs.dr <= rhs.dr
    && lhs.ene <= rhs.ene
    && lhs.px <= rhs.px
    && lhs.py <= rhs.py
    && lhs.pz <= rhs.pz
    && lhs.pt <= rhs.pt
    && lhs.eta <= rhs.eta
    && lhs.phi <= rhs.phi
  }

  function GreaterEq(lhs: CstRecord, rhs: CstRecord): (r: bool)
    ensures r <==> Order.Pointwise(Order.Ge, Coords(lhs), Coords(rhs))
  {
    CoordsPointwise(Order.Ge, lhs, rhs);
    && lhs.z >= rhs.z
    && lhs.dr >= rhs.dr
    && lhs.ene >= rhs.ene
    && lhs.px >= rhs.px
    && lhs.py >= rhs.py
    && lhs.pz >= rhs.pz
    && lhs.pt >= rhs.pt
    && lhs.eta >= rhs.eta
    && lhs.phi >= rhs.phi
  }

  /** The generic comparison of two ordering points, spelled out field by field. */
  lemma CoordsPointwise(c: Order.Cmp, a: CstRecord, b: CstRecord)
    ensures Order.Pointwise(c, Coords(a), Coords(b)) <==>
      && Order.Holds(c, a.z, b.z) && Order.Holds(c, a.dr, b.dr) && Order.Holds(c, a.ene, b.ene)
      && Order.Holds(c, a.px, b.px) && Order.Holds(c, a.py, b.py) && Order.Holds(c, a.pz, b.pz)
      && Order.Holds(c, a.pt, b.pt) && Order.Holds(c, a.eta, b.eta) && Order.Holds(c, a.phi, b.phi)
  {
    var x, y := Coords(a), Coords(b);
    Order.PointwiseAt(c, x, y);
    if Order.Holds(c, a.z, b.z) && Order.Holds(c, a.dr, b.dr) && Order.Holds(c, a.ene, b.ene)
       && Order.Holds(c, a.px, b.px) && Order.Holds(c, a.py, b.py) && Order.Holds(c, a.pz, b.pz)
       && Order.Holds(c, a.pt, b.pt) && Order.Holds(c, a.eta, b.eta) && Order.Holds(c, a.phi, b.phi)
    {
      forall i | 0 <= i < 9 ensures Order.Holds(c, x[i], y[i]) {
        assert i == 0 || i == 1 || i == 2 || i == 3 || i == 4 || i == 5 || i == 6 || i == 7 || i == 8;
      }
    } else {
      assert !Order.Holds(c, x[0], y[0]) || !Order.Holds(c, x[1], y[1]) || !Order.Holds(c, x[2], y[2])
          || !Order.Holds(c, x[3], y[3]) || !Order.Holds(c, x[4], y[4]) || !Order.Holds(c, x[5], y[5])
          || !Order.Holds(c, x[6], y[6]) || !Order.Holds(c, x[7], y[7]) || !Order.Holds(c, x[8], y[8]);
    }
  }


  /** The ordering point of a sentinel record has every coordinate at the sentinel value. */
  lemma SentinelCoords()
    ensures Coords(Minimized()) == Order.Constant(9, DBL_MIN)
    ensures Coords(Maximized()) == Order.Constant(9, DBL_MAX)
  {
    forall i | 0 <= i < 9
      ensures Coords(Minimized())[i] == DBL_MIN && Coords(Maximized())[i] == DBL_MAX
    {
      assert i == 0 || i == 1 || i == 2 || i == 3 || i == 4 || i == 5 || i == 6 || i == 7 || i == 8;
    }
  }

  /** Acceptance (>= minimum and <= maximum) is membership of the box [minimum, maximum],
      ordering field by ordering field. */
  lemma AcceptanceIsBox(r: CstRecord, minimum: CstRecord, maximum: CstRecord)
    ensures GreaterEq(r, minimum) && LessEq(r, maximum) <==>
            forall i :: 0 <= i < |Coords(r)| ==> Coords(minimum)[i] <= Coords(r)[i] <= Coords(maximum)[i]
  {
    Order.InBoxAt(Coords(r), Coords(minimum), Coords(maximum));
  }

  lemma NonStrictReflexive(a: CstRecord)
    ensures LessEq(a, a) && GreaterEq(a, a)
  {
  }

  lemma StrictIrreflexive(a: CstRecord)
    ensures !Less(a, a) && !Greater(a, a)
  {
  }

  lemma LessAsymmetric(a: CstRecord, b: CstRecord)
    ensures !(Less(a, b) && Less(b, a))
    ensures !(Greater(a, b) && Greater(b, a))
  {
  }

  /** `>` and `>=` are the converses of `<` and `<=`; a strict comparison implies the
      non-strict one. */
  lemma ConverseOperators(a: CstRecord, b: CstRecord)
    ensures Greater(a, b) <==> Less(b, a)
    ensures GreaterEq(a, b) <==> LessEq(b, a)
    ensures Less(a, b) ==> LessEq(a, b)
  {
  }

  /** `<=` is transitive, and it is antisymmetric on the ordering fields: a partial order. */
  lemma LessEqPartialOrder(a: CstRecord, b: CstRecord, c: CstRecord)
    ensures LessEq(a, b) && LessEq(b, c) ==> LessEq(a, c)
    ensures LessEq(a, b) && LessEq(b, a) ==> Coords(a) == Coords(b)
  {
  }

  /** The order is partial: a record with more energy but smaller pseudorapidity than
      another is comparable with it under none of the four operators. */
  lemma Incomparable(a: CstRecord, b: CstRecord)
    requires a.ene > b.ene && a.eta < b.eta
    ensures !Less(a, b) && !Less(b, a) && !Greater(a, b) && !Greater(b, a)
    ensures !LessEq(a, b) && !LessEq(b, a) && !GreaterEq(a, b) && !GreaterEq(b, a)
  {
  }

  /** The labels type, cstID, jetID, embedID and pid take no part in any comparison. */
  lemma OperatorsIgnoreIdentifiers(a: CstRecord, b: CstRecord,
                                   kind: Int32, cstID: Int32, jetID: Int32, embedID: Int32, pid: Int32)
    ensures var a' := a.(kind := kind, cstID := cstID, jetID := jetID, embedID := embedID, pid := pid);
            && (Less(a', b) <==> Less(a, b)) && (Less(b, a') <==> Less(b, a))
            && (Greater(a', b) <==> Greater(a, b)) && (Greater(b, a') <==> Greater(b, a))
            && (LessEq(a', b) <==> LessEq(a, b)) && (LessEq(b, a') <==> LessEq(b, a))
            && (GreaterEq(a', b) <==> GreaterEq(a, b)) && (GreaterEq(b, a') <==> GreaterEq(b, a))
  {
  }

  /** Because DBL_MIN is positive, the minimize sentinel used as a lower bound admits a
      record only if every ordering field is at least DBL_MIN: zero or negative values of
      z, dr, ene, px, py, pz, pt, eta or phi are rejected. */
  lemma MinimizedLowerBound(r: CstRecord)
    ensures GreaterEq(r, Minimized()) <==> forall i :: 0 <= i < |Coords(r)| ==> Coords(r)[i] >= DBL_MIN
    ensures r.eta <= 0.0 || r.phi <= 0.0 || r.px <= 0.0 ==> !GreaterEq(r, Minimized())
  {
    SentinelCoords();
    Order.AgainstConstant(Order.Ge, Coords(r), DBL_MIN);
    DoubleSentinels();
  }

  /** The maximize sentinel used as an upper bound admits every record with finite
      ordering fields. A record in the maximize state passes an upper bound only if that
      (finite) bound is itself at DBL_MAX in every ordering field, and a record in the
      minimize state passes a lower bound only if every ordering field of the bound is at
      most DBL_MIN. */
  lemma SentinelBounds(r: CstRecord)
    requires Order.AllFinite(Coords(r))
    ensures LessEq(r, Maximized())
    ensures LessEq(Maximized(), r) <==> Coords(r) == Coords(Maximized())
    ensures GreaterEq(Minimized(), r) <==> forall i :: 0 <= i < |Coords(r)| ==> Coords(r)[i] <= DBL_MIN
  {
    SentinelCoords();
    Order.MaximumIsTop(Coords(r));
    Order.AgainstConstant(Order.Ge, Coords(r), DBL_MIN);
  }

  // ---------------------------------------------------------------------------

  class CstInfo {
    var kind: Int32  // `type`
    var cstID: Int32
    var jetID: Int32
    var embedID: Int32
    var pid: Int32
    var z: real
    var dr: real
    var ene: real
    var px: real
    var py: real
    var pz: real
    var pt: real
    var eta: real
    var phi: real

    /** The record's current field values. */
    function Value(): CstRecord
      reads this
    {
      CstRecord(kind, cstID, jetID, embedID, pid, z, dr, ene, px, py, pz, pt, eta, phi)
    }

    /** CstInfo(): the default initialisers put every field at its type's maximum. */
    constructor ()
      ensures Value() == Maximized()
    {
      kind, cstID, jetID, embedID, pid := INT_MAX, INT_MAX, INT_MAX, INT_MAX, INT_MAX;
      z, dr, ene, px, py, pz := DBL_MAX, DBL_MAX, DBL_MAX, DBL_MAX, DBL_MAX, DBL_MAX;
      pt, eta, phi := DBL_MAX, DBL_MAX, DBL_MAX;
    }

    /** CstInfo(init): the minimize state for Minimize, the maximize state otherwise. */
    constructor FromInit(init: Const.Init)
      ensures init.Minimize? ==> Value() == Minimized()
      ensures !init.Minimize? ==> Value() == Maximized()
    {
      new;
      match init {
        case Minimize => Minimize();
        case Maximize => Maximize();
        case Unlisted(_) => Maximize();
      }
    }

    /** CstInfo(pseudojet): the default initialisers, then SetInfo(pseudojet). */
    constructor FromPseudoJet(pseudojet: Sources.PseudoJet)
      ensures Value() == Populated(Maximized(), pseudojet)
    {
      kind, cstID, jetID, embedID, pid := INT_MAX, INT_MAX, INT_MAX, INT_MAX, INT_MAX;
      z, dr, ene, px, py, pz := DBL_MAX, DBL_MAX, DBL_MAX, DBL_MAX, DBL_MAX, DBL_MAX;
      pt, eta, phi := DBL_MAX, DBL_MAX, DBL_MAX;
      new;
      SetInfo(pseudojet);
    }

    method Minimize()
      modifies this
      ensures Value() == Minimized()
    {
      kind := INT_MIN;
      cstID := INT_MIN;
      jetID := INT_MIN;
      embedID := INT_MIN;
      pid := INT_MIN;
      z := DBL_MIN;
      dr := DBL_MIN;
      ene := DBL_MIN;
      px := DBL_MIN;
      py := DBL_MIN;
      pz := DBL_MIN;
      pt := DBL_MIN;
      eta := DBL_MIN;
      phi := DBL_MIN;
    }

    method Maximize()
      modifies this
      ensures Value() == Maximized()
    {
      kind := INT_MAX;
      cstID := INT_MAX;
      jetID := INT_MAX;
      embedID := INT_MAX;
      pid := INT_MAX;
      z := DBL_MAX;
      dr := DBL_MAX;
      ene := DBL_MAX;
      px := DBL_MAX;
      py := DBL_MAX;
      pz := DBL_MAX;
      pt := DBL_MAX;
      eta := DBL_MAX;
      phi := DBL_MAX;
    }

    /** Reset is Maximize, not a zeroing. */
    method Reset()
      modifies this
      ensures Value() == Maximized()
    {
      Maximize();
    }

    method SetInfo(pseudojet: Sources.PseudoJet)
      modifies this
      ensures Value() == Populated(old(Value()), pseudojet)
    {
      cstID := pseudojet.userIndex;
      ene := pseudojet.e;
      px := pseudojet.px;
      py := pseudojet.py;
      pz := pseudojet.pz;
      pt := pseudojet.perp;
      eta := pseudojet.pseudorapidity;
      phi := pseudojet.phiStd;
    }

    method IsInAcceptance(minimum: CstInfo, maximum: CstInfo) returns (accepted: bool)
      ensures accepted <==> GreaterEq(Value(), minimum.Value()) && LessEq(Value(), maximum.Value())
      ensures accepted <==> forall i :: 0 <= i < 9 ==>
                Coords(minimum.Value())[i] <= Coords(Value())[i] <= Coords(maximum.Value())[i]
    {
      accepted := GreaterEq(Value(), minimum.Value()) && LessEq(Value(), maximum.Value());
      AcceptanceIsBox(Value(), minimum.Value(), maximum.Value());
    }

    /** The overload taking the bounds as a (minimum, maximum) pair. */
    method IsInAcceptanceRange(range: (CstInfo, CstInfo)) returns (accepted: bool)
      ensures accepted <==> GreaterEq(Value(), range.0.Value()) && LessEq(Value(), range.1.Value())
      ensures accepted <==> forall i :: 0 <= i < 9 ==>
                Coords(range.0.Value())[i] <= Coords(Value())[i] <= Coords(range.1.Value())[i]
    {
      accepted := GreaterEq(Value(), range.0.Value()) && LessEq(Value(), range.1.Value());
      AcceptanceIsBox(Value(), range.0.Value(), range.1.Value());
    }

    /** One name per field, in declaration order. */
    static function GetListOfMembers(): (members: seq<string>)
      ensures |members| == 14 && Names.Distinct(members)
      ensures members[0] == "type" && members[5] == "z" && members[13] == "phi"
    {
      ["type", "cstID", "jetID", "embedID", "pid",
       "z", "dr", "ene", "px", "py", "pz", "pt", "eta", "phi"]
    }

    // getters: reading a field changes nothing

    function GetType(): Int32 reads this { kind }
    function GetCstID(): Int32 reads this { cstID }
    function GetJetID(): Int32 reads this { jetID }
    function GetEmbedID(): Int32 reads this { embedID }
    function GetPID(): Int32 reads this { pid }
    function GetZ(): real reads this { z }
    function GetDR(): real reads this { dr }
    function GetEne(): real reads this { ene }
    function GetPX(): real reads this { px }
    function GetPY(): real reads this { py }
    function GetPZ(): real reads this { pz }
    function GetPT(): real reads this { pt }
    function GetEta(): real reads this { eta }
    function GetPhi(): real reads this { phi }

    // setters: each writes its own field and no other

    method SetType(arg: Int32)
      modifies this
      ensures Value() == old(Value()).(kind := arg) && GetType() == arg
    {
      kind := arg;
    }

    method SetCstID(arg: Int32)
      modifies this
      ensures Value() == old(Value()).(cstID := arg) && GetCstID() == arg
    {
      cstID := arg;
    }

    method SetJetID(arg: Int32)
      modifies this
      ensures Value() == old(Value()).(jetID := arg) && GetJetID() == arg
    {
      jetID := arg;
    }

    method SetEmbedID(arg: Int32)
      modifies this
      ensures Value() == old(Value()).(embedID := arg) && GetEmbedID() == arg
    {
      embedID := arg;
    }

    method SetPID(arg: Int32)
      modifies this
      ensures Value() == old(Value()).(pid := arg) && GetPID() == arg
    {
      pid := arg;
    }

    method SetZ(arg: real)
      modifies this
      ensures Value() == old(Value()).(z := arg) && GetZ() == arg
    {
      z := arg;
    }

    method SetDR(arg: real)
      modifies this
      ensures Value() == old(Value()).(dr := arg) && GetDR() == arg
    {
      dr := arg;
    }

    method SetEne(arg: real)
      modifies this
      ensures Value() == old(Value()).(ene := arg) && GetEne() == arg
    {
      ene := arg;
    }

    method SetPX(arg: real)
      modifies this
      ensures Value() == old(Value()).(px := arg) && GetPX() == arg
    {
      px := arg;
    }

    method SetPY(arg: real)
      modifies this
      ensures Value() == old(Value()).(py := arg) && GetPY() == arg
    {
      py := arg;
    }

    method SetPZ(arg: real)
      modifies this
      ensures Value() == old(Value()).(pz := arg) && GetPZ() == arg
    {
      pz := arg;
    }

    method SetPT(arg: real)
      modifies this
      ensures Value() == old(Value()).(pt := arg) && GetPT() == arg
    {
      pt := arg;
    }

    method SetEta(arg: real)
      modifies this
      ensures Value() == old(Value()).(eta := arg) && GetEta() == arg
    {
      eta := arg;
    }

    method SetPhi(arg: real)
      modifies this
      ensures Value() == old(Value()).(phi := arg) && GetPhi() == arg
    {
      phi := arg;
    }
  }

  /** A constituent built the way analysis code sets up cut bounds: a sentinel record whose
      nine ordering fields are then set one by one. */
  method NewConstituent(init: Const.Init, z: real, dr: real, ene: real, px: real, py: real,
                        pz: real, pt: real, eta: real, phi: real) returns (cst: CstInfo)
    ensures fresh(cst)
    ensures Coords(cst.Value()) == [z, dr, ene, px, py, pz, pt, eta, phi]
  {
    cst := new CstInfo.FromInit(init);
    cst.SetEne(ene); cst.SetPX(px); cst.SetPY(py); cst.SetPZ(pz); cst.SetPT(pt);
    cst.SetEta(eta); cst.SetPhi(phi); cst.SetZ(z); cst.SetDR(dr);
  }

  /** A constituent inside a (minimum, maximum) window, and the same constituent once the
      upper pseudorapidity bound is lowered below its eta. Only the contracts above are used. */
  method AcceptanceScenario()
  {
    var cst := NewConstituent(Const.Maximize, 0.3, 0.1, 5.0, 1.0, 1.0, 1.0, 1.4, 0.5, 0.2);
    var minimum := NewConstituent(Const.Minimize, 0.0, 0.0, 0.0, 0.0, 0.0, 0.0, 0.0, -1.0, 0.0);
    var maximum := NewConstituent(Const.Maximize, 1.0, 1.0, 10.0, 10.0, 10.0, 10.0, 10.0, 1.0, 1.0);

    var accepted := cst.IsInAcceptance(minimum, maximum);
    assert accepted;

    maximum.SetEta(0.3);
    assert cst.Value().eta > maximum.Value().eta;
    accepted := cst.IsInAcceptanceRange((minimum, maximum));
    assert !accepted;
  }
}
