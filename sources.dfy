/** The hard-scatter parton record. Its class (ParInfo) is not part of this model, so a
    parton value is known only by how it was produced. */
module Parton {
  import Const

  datatype ParInfo =
    | DefaultParton                  // ParInfo(): the default-constructed record
    | SentinelParton(init: Const.Init)  // ParInfo(init): a record in a sentinel state
    | EventParton(token: nat)        // a record filled from the event; its contents are opaque
}

/** The upstream objects the records are filled from, reduced to the values the records
    read from them. The extraction itself (fastjet, the event-node queries of Tools and
    Interfaces) is not part of this model: its results are the fields below. */
module Sources {
  import opened Limits
  import Const
  import Parton

  /** A fastjet::PseudoJet as seen by CstInfo and JetInfo: its user index, energy,
      momentum, the derived transverse momentum, pseudorapidity and azimuth (phi_std),
      and its constituents. */
  datatype PseudoJet = PseudoJet(
    userIndex: Int32,
    e: real,
    px: real,
    py: real,
    pz: real,
    perp: real,
    pseudorapidity: real,
    phiStd: real,
    constituents: seq<PseudoJet>)

  datatype Vector3 = Vector3(x: real, y: real, z: real)

  /** A PHCompositeNode together with the queries the event records make of it. */
  datatype EventNode = EventNode(
    // Tools::GetPartonInfo(topNode, subEvt, status)
    partonInfo: (Const.SubEvt, Const.HardScatterStatus) -> Parton.ParInfo,
    // Tools::GetNumFinalStatePars(topNode, evtsToGrab, subset)
    numFinalStatePars: (seq<int>, Const.Subset) -> Int32,
    // Tools::GetSumFinalStateParEne(topNode, evtsToGrab, subset)
    sumFinalStateParEne: (seq<int>, Const.Subset) -> real,
    // Tools::GetNumTrks(topNode)
    numTrks: Int32,
    // Tools::GetSumTrkMomentum(topNode)
    sumTrkMomentum: real,
    // Tools::GetSumCaloEne(topNode, clusterNodeName)
    sumCaloEne: string -> real,
    // Interfaces::GetRecoVtx(topNode)
    recoVtx: Vector3)

  /** `h` computes the Euclidean length of (x, y) exactly, as std::hypot does over the reals. */
  ghost predicate IsHypot(h: (real, real) -> real) {
    forall x, y :: h(x, y) >= 0.0 && h(x, y) * h(x, y) == x * x + y * y
  }
}
