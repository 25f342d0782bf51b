/** TrkInfo: the record of one track (src/TrkInfo.h). Only the class declaration is part of
    this model: the twenty-one fields with their default initialisers, the getters and the
    setters. The definitions of its other members (TrkInfo.cc) are not part of this model. */
module Trk {
  import opened Limits

  /** The twenty-one fields of a TrkInfo in declaration order. */
  datatype TrkRecord = TrkRecord(
    id: Int32,
    nMvtxLayer: Int32,
    nInttLayer: Int32,
    nTpcLayer: Int32,
    nMvtxClust: Int32,
    nInttClust: Int32,
    nTpcClust: Int32,
    eta: real,
    phi: real,
    ene: real,
    px: real,
    py: real,
    pz: real,
    pt: real,
    dcaXY: real,
    dcaZ: real,
    ptErr: real,
    quality: real,
    vx: real,
    vy: real,
    vz: real)

  /** The state of the field initialisers: every int at INT_MAX, every double at DBL_MAX. */
  function Initialised(): TrkRecord {
    TrkRecord(INT_MAX, INT_MAX, INT_MAX, INT_MAX, INT_MAX, INT_MAX, INT_MAX,
              DBL_MAX, DBL_MAX, DBL_MAX, DBL_MAX, DBL_MAX, DBL_MAX, DBL_MAX,
              DBL_MAX, DBL_MAX, DBL_MAX, DBL_MAX, DBL_MAX, DBL_MAX, DBL_MAX)
  }

  class TrkInfo {
    var id: Int32
    var nMvtxLayer: Int32
    var nInttLayer: Int32
    var nTpcLayer: Int32
    var nMvtxClust: Int32
    var nInttClust: Int32
    var nTpcClust: Int32
    var eta: real
    var phi: real
    var ene: real
    var px: real
    var py: real
    var pz: real
    var pt: real
    var dcaXY: real
    var dcaZ: real
    var ptErr: real
    var quality: real
    var vx: real
    var vy: real
    var vz: real

    /** The record's current field values. */
    function Value(): TrkRecord
      reads this
    {
      TrkRecord(id, nMvtxLayer, nInttLayer, nTpcLayer, nMvtxClust, nInttClust, nTpcClust,
                eta, phi, ene, px, py, pz, pt,
                dcaXY, dcaZ, ptErr, quality, vx, vy, vz)
    }

    /** TrkInfo(): the default initialisers put every field at its type's maximum. */
    constructor ()
      ensures Value() == Initialised()
    {
      id, nMvtxLayer, nInttLayer, nTpcLayer, nMvtxClust, nInttClust, nTpcClust :=
        INT_MAX, INT_MAX, INT_MAX, INT_MAX, INT_MAX, INT_MAX, INT_MAX;
      eta, phi, ene, px, py, pz, pt :=
        DBL_MAX, DBL_MAX, DBL_MAX, DBL_MAX, DBL_MAX, DBL_MAX, DBL_MAX;
      dcaXY, dcaZ, ptErr, quality, vx, vy, vz :=
        DBL_MAX, DBL_MAX, DBL_MAX, DBL_MAX, DBL_MAX, DBL_MAX, DBL_MAX;
    }

    // getters: reading a field changes nothing

    function GetID(): Int32 reads this { id }
    function GetNMvtxLayer(): Int32 reads this { nMvtxLayer }
    function GetNInttLayer(): Int32 reads this { nInttLayer }
    function GetNTpcLayer(): Int32 reads this { nTpcLayer }
    function GetNMvtxClust(): Int32 reads this { nMvtxClust }
    function GetNInttClust(): Int32 reads this { nInttClust }
    function GetNTpcClust(): Int32 reads this { nTpcClust }
    function GetEta(): real reads this { eta }
    function GetPhi(): real reads this { phi }
    function GetEne(): real reads this { ene }
    function GetPX(): real reads this { px }
    function GetPY(): real reads this { py }
    function GetPZ(): real reads this { pz }
    function GetPT(): real reads this { pt }
    function GetDcaXY(): real reads this { dcaXY }
    function GetDcaZ(): real reads this { dcaZ }
    function GetPtErr(): real reads this { ptErr }
    function GetQuality(): real reads this { quality }
    function GetVX(): real reads this { vx }
    function GetVY(): real reads this { vy }
    function GetVZ(): real reads this { vz }

    // setters: each writes its own field and no other

    method SetID(arg: Int32)
      modifies this
      ensures Value() == old(Value()).(id := arg) && GetID() == arg
    {
      id := arg;
    }

    method SetNMvtxLayer(arg: Int32)
      modifies this
      ensures Value() == old(Value()).(nMvtxLayer := arg) && GetNMvtxLayer() == arg
    {
      nMvtxLayer := arg;
    }

    method SetNInttLayer(arg: Int32)
      modifies this
      ensures Value() == old(Value()).(nInttLayer := arg) && GetNInttLayer() == arg
    {
      nInttLayer := arg;
    }

    method SetNTpcLayer(arg: Int32)
      modifies this
      ensures Value() == old(Value()).(nTpcLayer := arg) && GetNTpcLayer() == arg
    {
      nTpcLayer := arg;
    }

    method SetNMvtxClust(arg: Int32)
      modifies this
      ensures Value() == old(Value()).(nMvtxClust := arg) && GetNMvtxClust() == arg
    {
      nMvtxClust := arg;
    }

    method SetNInttClust(arg: Int32)
      modifies this
      ensures Value() == old(Value()).(nInttClust := arg) && GetNInttClust() == arg
    {
      nInttClust := arg;
    }

    method SetNTpcClust(arg: Int32)
      modifies this
      ensures Value() == old(Value()).(nTpcClust := arg) && GetNTpcClust() == arg
    {
      nTpcClust := arg;
    }

    method SetEta(arg: real)
      modifies this
      ensures Value() == old(Value()).(eta := arg) && GetEta() == arg
    {
      eta := arg;
    }

    method SetPhi(arg: real)
      modifies this
      ensures Value() == old(Value()).(phi := arg) && GetPhi() == arg
    {
      phi := arg;
    }

    method SetEne(arg: real)
      modifies this
      ensures Value() == old(Value()).(ene := arg) && GetEne() == arg
    {
      ene := arg;
    }

    method SetPX(arg: real)
      modifies this
      ensures Value() == old(Value()).(px := arg) && GetPX() == arg
    {
      px := arg;
    }

    method SetPY(arg: real)
      modifies this
      ensures Value() == old(Value()).(py := arg) && GetPY() == arg
    {
      py := arg;
    }

    method SetPZ(arg: real)
      modifies this
      ensures Value() == old(Value()).(pz := arg) && GetPZ() == arg
    {
      pz := arg;
    }

    method SetPT(arg: real)
      modifies this
      ensures Value() == old(Value()).(pt := arg) && GetPT() == arg
    {
      pt := arg;
    }

    method SetDcaXY(arg: real)
      modifies this
      ensures Value() == old(Value()).(dcaXY := arg) && GetDcaXY() == arg
    {
      dcaXY := arg;
    }

    method SetDcaZ(arg: real)
      modifies this
      ensures Value() == old(Value()).(dcaZ := arg) && GetDcaZ() == arg
    {
      dcaZ := arg;
    }

    method SetPtErr(arg: real)
      modifies this
      ensures Value() == old(Value()).(ptErr := arg) && GetPtErr() == arg
    {
      ptErr := arg;
    }

    method SetQuality(arg: real)
      modifies this
      ensures Value() == old(Value()).(quality := arg) && GetQuality() == arg
    {
      quality := arg;
    }

    method SetVX(arg: real)
      modifies this
      ensures Value() == old(Value()).(vx := arg) && GetVX() == arg
    {
      vx := arg;
    }

    method SetVY(arg: real)
      modifies this
      ensures Value() == old(Value()).(vy := arg) && GetVY() == arg
    {
      vy := arg;
    }

    method SetVZ(arg: real)
      modifies this
      ensures Value() == old(Value()).(vz := arg) && GetVZ() == arg
    {
      vz := arg;
    }
  }
}
