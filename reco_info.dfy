/** RecoInfo: the per-event reconstructed summary (src/RecoInfo.cc): the track count, the
    summed track momentum, the energy summed in each of the three calorimeters, and the
    reconstructed vertex with its transverse distance from the beam axis. It has no
    comparison operators. Its class declaration (RecoInfo.h) is not part of this model. */
module Reco {
  import opened Limits
  import Const
  import Sources
  import Names

  /** The nine fields of a RecoInfo, in the order of its member list. */
  datatype RecoRecord = RecoRecord(
    nTrks: Int32,
    pSumTrks: real,
    eSumEMCal: real,
    eSumIHCal: real,
    eSumOHCal: real,
    vx: real,
    vy: real,
    vz: real,
    vr: real)

  /** The state Minimize() leaves: nTrks at INT_MIN, every double at DBL_MIN. */
  function Minimized(): RecoRecord {
    RecoRecord(INT_MIN, DBL_MIN, DBL_MIN, DBL_MIN, DBL_MIN, DBL_MIN, DBL_MIN, DBL_MIN, DBL_MIN)
  }

  /** The state Maximize() leaves: nTrks at INT_MAX, every double at DBL_MAX. */
  function Maximized(): RecoRecord {
    RecoRecord(INT_MAX, DBL_MAX, DBL_MAX, DBL_MAX, DBL_MAX, DBL_MAX, DBL_MAX, DBL_MAX, DBL_MAX)
  }

  /** The record SetInfo(topNode) produces; every field is overwritten. `hypot` stands for
      std::hypot. */
  function Populated(topNode: Sources.EventNode, hypot: (real, real) -> real): (p: RecoRecord)
    ensures p.nTrks == topNode.numTrks && p.pSumTrks == topNode.sumTrkMomentum
    ensures p.eSumEMCal == topNode.sumCaloEne("CLUSTER_CEMC")
    ensures p.eSumIHCal == topNode.sumCaloEne("CLUSTER_HCALIN")
    ensures p.eSumOHCal == topNode.sumCaloEne("CLUSTER_HCALOUT")
    ensures p.vx == topNode.recoVtx.x && p.vy == topNode.recoVtx.y && p.vz == topNode.recoVtx.z
    ensures p.vr == hypot(p.vx, p.vy)
  {
    var vtx := topNode.recoVtx;
    RecoRecord(topNode.numTrks, topNode.sumTrkMomentum,
               topNode.sumCaloEne("CLUSTER_CEMC"), topNode.sumCaloEne("CLUSTER_HCALIN"),
               topNode.sumCaloEne("CLUSTER_HCALOUT"),
               vtx.x, vtx.y, vtx.z, hypot(vtx.x, vtx.y))
  }

  /** vr is the non-negative length of the transverse vertex position (vx, vy). */
  predicate RadiusConsistent(r: RecoRecord) {
    r.vr >= 0.0 && r.vr * r.vr == r.vx * r.vx + r.vy * r.vy
  }

  /** Over the reals, the radial vertex distance SetInfo stores is the non-negative length
      of (vx, vy). */
  lemma VertexRadius(topNode: Sources.EventNode, hypot: (real, real) -> real)
    requires Sources.IsHypot(hypot)
    ensures var p := Populated(topNode, hypot);
            RadiusConsistent(p)
  {
    var p := Populated(topNode, hypot);
    assert p.vr == hypot(p.vx, p.vy);
  }

  class RecoInfo {
    var nTrks: Int32
    var pSumTrks: real
    var eSumEMCal: real
    var eSumIHCal: real
    var eSumOHCal: real
    var vx: real
    var vy: real
    var vz: real
    var vr: real

    /** The record's current field values. */
    function Value(): RecoRecord
      reads this
    {
      RecoRecord(nTrks, pSumTrks, eSumEMCal, eSumIHCal, eSumOHCal, vx, vy, vz, vr)
    }

    /** RecoInfo(init): the minimize state for Minimize, the maximize state otherwise. */
    constructor FromInit(init: Const.Init)
      ensures init.Minimize? ==> Value() == Minimized()
      ensures !init.Minimize? ==> Value() == Maximized()
    {
      new;
      match init {
        case Minimize => Minimize();
        case Maximize => Maximize();
        case Unlisted(_) => Maximize();
      }
    }

    /** RecoInfo(topNode): SetInfo(topNode) on a fresh record. */
    constructor FromNode(topNode: Sources.EventNode, hypot: (real, real) -> real)
      ensures Value() == Populated(topNode, hypot)
      ensures Sources.IsHypot(hypot) ==> RadiusConsistent(Value())
    {
      new;
      SetInfo(topNode, hypot);
    }

    method Minimize()
      modifies this
      ensures Value() == Minimized()
    {
      nTrks := INT_MIN;
      pSumTrks := DBL_MIN;
      eSumEMCal := DBL_MIN;
      eSumIHCal := DBL_MIN;
      eSumOHCal := DBL_MIN;
      vx := DBL_MIN;
      vy := DBL_MIN;
      vz := DBL_MIN;
      vr := DBL_MIN;
    }

    method Maximize()
      modifies this
      ensures Value() == Maximized()
    {
      nTrks := INT_MAX;
      pSumTrks := DBL_MAX;
      eSumEMCal := DBL_MAX;
      eSumIHCal := DBL_MAX;
      eSumOHCal := DBL_MAX;
      vx := DBL_MAX;
      vy := DBL_MAX;
      vz := DBL_MAX;
      vr := DBL_MAX;
    }

    /** Reset is Maximize, not a zeroing. */
    method Reset()
      modifies this
      ensures Value() == Maximized()
    {
      Maximize();
    }

    /** Reads the sums from the event node, then the vertex, and derives vr from vx and vy. */
    method SetInfo(topNode: Sources.EventNode, hypot: (real, real) -> real)
      modifies this
      ensures Value() == Populated(topNode, hypot)
      ensures Sources.IsHypot(hypot) ==> RadiusConsistent(Value())
    {
      nTrks := topNode.numTrks;
      pSumTrks := topNode.sumTrkMomentum;
      eSumEMCal := topNode.sumCaloEne("CLUSTER_CEMC");
      eSumIHCal := topNode.sumCaloEne("CLUSTER_HCALIN");
      eSumOHCal := topNode.sumCaloEne("CLUSTER_HCALOUT");

      var vtx := topNode.recoVtx;
      vx := vtx.x;
      vy := vtx.y;
      vz := vtx.z;
      vr := hypot(vx, vy);
      if Sources.IsHypot(hypot) {
        VertexRadius(topNode, hypot);
      }
    }

    /** One name per field, ending with the derived radial distance. */
    static function GetListOfMembers(): (members: seq<string>)
      ensures |members| == 9 && Names.Distinct(members)
      ensures members[0] == "nTrks" && members[|members| - 1] == "vr"
    {
      ["nTrks", "pSumTrks", "eSumEMCal", "eSumIHCal", "eSumOHCal", "vx", "vy", "vz", "vr"]
    }
  }
}
