/** GenInfo: the per-event generator-level summary (src/GenInfo.h, src/GenInfo.cc): the
    numbers and summed energies of charged and neutral final-state particles, whether the
    event is an embedded signal, and the two incoming hard-scatter partons. It has no
    comparison operators. */
module Gen {
  import opened Limits
  import Const
  import Parton
  import Sources
  import Names
  import Interfaces

  type PartonPair = (Parton.ParInfo, Parton.ParInfo)

  /** The fields of a GenInfo in declaration order. */
  datatype GenRecord = GenRecord(
    nChrgPar: Int32,
    nNeuPar: Int32,
    isEmbed: bool,
    eSumChrg: real,
    eSumNeu: real,
    partons: PartonPair)

  /** Both partons in the sentinel state `init`. */
  function SentinelPartons(init: Const.Init): PartonPair {
    (Parton.SentinelParton(init), Parton.SentinelParton(init))
  }

  /** The state Minimize() leaves: the ints at INT_MIN, the doubles at DBL_MIN, both partons
      minimized; the embedding flag is not Minimize's to change. */
  function Minimized(isEmbed: bool): GenRecord {
    GenRecord(INT_MIN, INT_MIN, isEmbed, DBL_MIN, DBL_MIN, SentinelPartons(Const.Minimize))
  }

  /** The state Maximize() leaves: the ints at INT_MAX, the doubles at DBL_MAX, both partons
      maximized; the embedding flag is not Maximize's to change. */
  function Maximized(isEmbed: bool): GenRecord {
    GenRecord(INT_MAX, INT_MAX, isEmbed, DBL_MAX, DBL_MAX, SentinelPartons(Const.Maximize))
  }

  /** The record SetInfo(topNode, embed, evtsToGrab) produces; every field is overwritten. */
  function Populated(topNode: Sources.EventNode, embed: bool, evtsToGrab: seq<int>): (p: GenRecord)
    ensures p.isEmbed == embed
    ensures embed ==> p.partons == (topNode.partonInfo(Const.EmbedSignal, Const.First),
                                    topNode.partonInfo(Const.EmbedSignal, Const.Second))
    ensures !embed ==> p.partons == (topNode.partonInfo(Const.NotEmbedSignal, Const.First),
                                     topNode.partonInfo(Const.NotEmbedSignal, Const.Second))
    ensures p.nChrgPar == topNode.numFinalStatePars(evtsToGrab, Const.Charged)
    ensures p.nNeuPar == topNode.numFinalStatePars(evtsToGrab, Const.Neutral)
    ensures p.eSumChrg == topNode.sumFinalStateParEne(evtsToGrab, Const.Charged)
    ensures p.eSumNeu == topNode.sumFinalStateParEne(evtsToGrab, Const.Neutral)
  {
    var subEvt := if embed then Const.EmbedSignal else Const.NotEmbedSignal;
    GenRecord(
      topNode.numFinalStatePars(evtsToGrab, Const.Charged),
      topNode.numFinalStatePars(evtsToGrab, Const.Neutral),
      embed,
      topNode.sumFinalStateParEne(evtsToGrab, Const.Charged),
      topNode.sumFinalStateParEne(evtsToGrab, Const.Neutral),
      (topNode.partonInfo(subEvt, Const.First), topNode.partonInfo(subEvt, Const.Second)))
  }

  /** The names of the five atomic fields. */
  function AtomicMembers(): seq<string> {
    ["nChrgPar", "nNeuPar", "isEmbed", "eSumChrg", "eSumNeu"]
  }

  /** The member list GetListOfMembers composes from the parton member list. */
  function ComposedMembers(parMembers: seq<string>): seq<string> {
    Interfaces.CombineLeafLists(Interfaces.AddTagToLeaves("PartonB", parMembers),
      Interfaces.CombineLeafLists(Interfaces.AddTagToLeaves("PartonA", parMembers), AtomicMembers()))
  }

  /** The composed member list has no duplicates as long as the parton list has none: each
      tagged list is duplicate-free, the atomic names do not start with "Parton", and the two
      tags differ in their seventh character. */
  lemma MembersDistinct(parMembers: seq<string>)
    requires Names.Distinct(parMembers)
    ensures Names.Distinct(ComposedMembers(parMembers))
  {
    var atomic := AtomicMembers();
    var a := Interfaces.AddTagToLeaves("PartonA", parMembers);
    var b := Interfaces.AddTagToLeaves("PartonB", parMembers);
    AtomicUntagged("PartonA", parMembers);
    AtomicUntagged("PartonB", parMembers);
    TagsApart(parMembers);
    var withA := Interfaces.CombineLeafLists(a, atomic);
    assert Names.Distinct(withA);
    forall i, j | 0 <= i < |withA| && 0 <= j < |b| ensures withA[i] != b[j] {
      if i < |atomic| {
        assert withA[i] == atomic[i];
      } else {
        assert withA[i] == a[i - |atomic|];
      }
    }
  }

  /** No atomic name carries a tag that starts with 'P'. */
  lemma AtomicUntagged(tag: string, leaves: seq<string>)
    requires |tag| > 0 && tag[0] == 'P'
    ensures var t := Interfaces.AddTagToLeaves(tag, leaves);
            forall i, j :: 0 <= i < |AtomicMembers()| && 0 <= j < |t| ==> AtomicMembers()[i] != t[j]
  {
    var t := Interfaces.AddTagToLeaves(tag, leaves);
    forall i, j | 0 <= i < |AtomicMembers()| && 0 <= j < |t| ensures AtomicMembers()[i] != t[j] {
      assert t[j][0] == 'P';
      assert i == 0 || i == 1 || i == 2 || i == 3 || i == 4;
    }
  }

  /** A name tagged PartonA never equals a name tagged PartonB. */
  lemma TagsApart(leaves: seq<string>)
    ensures var a := Interfaces.AddTagToLeaves("PartonA", leaves);
            var b := Interfaces.AddTagToLeaves("PartonB", leaves);
            forall i, j :: 0 <= i < |a| && 0 <= j < |b| ==> a[i] != b[j]
  {
    var a := Interfaces.AddTagToLeaves("PartonA", leaves);
    var b := Interfaces.AddTagToLeaves("PartonB", leaves);
    forall i, j | 0 <= i < |a| && 0 <= j < |b| ensures a[i] != b[j] {
      assert a[i][6] == 'A' && b[j][6] == 'B';
    }
  }

  class GenInfo {
    var nChrgPar: Int32
    var nNeuPar: Int32
    var isEmbed: bool
    var eSumChrg: real
    var eSumNeu: real
    var partons: PartonPair

    /** The record's current field values. */
    function Value(): GenRecord
      reads this
    {
      GenRecord(nChrgPar, nNeuPar, isEmbed, eSumChrg, eSumNeu, partons)
    }

    /** GenInfo(): the field initialisers; both partons are default-constructed. */
    constructor ()
      ensures Value() == GenRecord(INT_MAX, INT_MAX, false, DBL_MAX, DBL_MAX,
                                   (Parton.DefaultParton, Parton.DefaultParton))
    {
      nChrgPar, nNeuPar, isEmbed, eSumChrg, eSumNeu := INT_MAX, INT_MAX, false, DBL_MAX, DBL_MAX;
      partons := (Parton.DefaultParton, Parton.DefaultParton);
    }

    /** GenInfo(init): the field initialisers (so isEmbed is false), then the minimize state
        for Minimize and the maximize state otherwise. */
    constructor FromInit(init: Const.Init)
      ensures init.Minimize? ==> Value() == Minimized(false)
      ensures !init.Minimize? ==> Value() == Maximized(false)
    {
      nChrgPar, nNeuPar, isEmbed, eSumChrg, eSumNeu := INT_MAX, INT_MAX, false, DBL_MAX, DBL_MAX;
      partons := (Parton.DefaultParton, Parton.DefaultParton);
      new;
      match init {
        case Minimize => Minimize();
        case Maximize => Maximize();
        case Unlisted(_) => Maximize();
      }
    }

    /** GenInfo(topNode, embed, evtsToGrab): SetInfo on a fresh record. */
    constructor FromNode(topNode: Sources.EventNode, embed: bool, evtsToGrab: seq<int>)
      ensures Value() == Populated(topNode, embed, evtsToGrab)
    {
      new;
      SetInfo(topNode, embed, evtsToGrab);
    }

    method Minimize()
      modifies this
      ensures Value() == Minimized(old(isEmbed))
    {
      nChrgPar := INT_MIN;
      nNeuPar := INT_MIN;
      eSumChrg := DBL_MIN;
      eSumNeu := DBL_MIN;
      partons := (Parton.SentinelParton(Const.Minimize), Parton.SentinelParton(Const.Minimize));
    }

    method Maximize()
      modifies this
      ensures Value() == Maximized(old(isEmbed))
    {
      nChrgPar := INT_MAX;
      nNeuPar := INT_MAX;
      eSumChrg := DBL_MAX;
      eSumNeu := DBL_MAX;
      partons := (Parton.SentinelParton(Const.Maximize), Parton.SentinelParton(Const.Maximize));
    }

    /** Clears the embedding flag, then maximizes everything else. */
    method Reset()
      modifies this
      ensures Value() == Maximized(false)
    {
      isEmbed := false;
      Maximize();
    }

    /** Reads the partons from the embedded-signal sub-event when `embed` holds and from the
        non-embedded one otherwise, then the charged and neutral counts and energy sums over
        the sub-events `evtsToGrab`. */
    method SetInfo(topNode: Sources.EventNode, embed: bool, evtsToGrab: seq<int>)
      modifies this
      ensures Value() == Populated(topNode, embed, evtsToGrab)
    {
      isEmbed := embed;

      isEmbed := embed;
      if isEmbed {
        partons := partons.(0 := topNode.partonInfo(Const.EmbedSignal, Const.First));
        partons := partons.(1 := topNode.partonInfo(Const.EmbedSignal, Const.Second));
      } else {
        partons := partons.(0 := topNode.partonInfo(Const.NotEmbedSignal, Const.First));
        partons := partons.(1 := topNode.partonInfo(Const.NotEmbedSignal, Const.Second));
      }

      nChrgPar := topNode.numFinalStatePars(evtsToGrab, Const.Charged);
      nNeuPar := topNode.numFinalStatePars(evtsToGrab, Const.Neutral);
      eSumChrg := topNode.sumFinalStateParEne(evtsToGrab, Const.Charged);
      eSumNeu := topNode.sumFinalStateParEne(evtsToGrab, Const.Neutral);
    }

    /** The atomic names, then the parton names tagged "PartonA", then the parton names
        tagged "PartonB". `parMembers` is the list ParInfo::GetListOfMembers() returns. */
    static method GetListOfMembers(parMembers: seq<string>) returns (members: seq<string>)
      ensures |members| == 5 + 2 * |parMembers|
      ensures members[..5] == AtomicMembers()
      ensures forall k :: 0 <= k < |parMembers| ==>
                members[5 + k] == "PartonA_" + parMembers[k] &&
                members[5 + |parMembers| + k] == "PartonB_" + parMembers[k]
      ensures Names.Distinct(parMembers) ==> Names.Distinct(members)
    {
      var membersParA := parMembers;
      var membersParB := parMembers;

      membersParA := Interfaces.AddTagToLeaves("PartonA", membersParA);
      membersParB := Interfaces.AddTagToLeaves("PartonB", membersParB);

      members := AtomicMembers();
      members := Interfaces.CombineLeafLists(membersParA, members);
      members := Interfaces.CombineLeafLists(membersParB, members);

      assert members == ComposedMembers(parMembers);
      if Names.Distinct(parMembers) {
        MembersDistinct(parMembers);
      }
    }

    // getters: reading a field changes nothing

    function GetNChrgPar(): Int32 reads this { nChrgPar }
    function GetNNeuPar(): Int32 reads this { nNeuPar }
    function GetIsEmbed(): bool reads this { isEmbed }
    function GetESumChrg(): real reads this { eSumChrg }
    function GetESumNeu(): real reads this { eSumNeu }
    function GetPartonA(): Parton.ParInfo reads this { partons.0 }
    function GetPartonB(): Parton.ParInfo reads this { partons.1 }
    function GetPartons(): PartonPair reads this { partons }

    // setters: each writes its own field and no other

    method SetNChrgPar(arg: Int32)
      modifies this
      ensures Value() == old(Value()).(nChrgPar := arg) && GetNChrgPar() == arg
    {
      nChrgPar := arg;
    }

    method SetNNeuPar(arg: Int32)
      modifies this
      ensures Value() == old(Value()).(nNeuPar := arg) && GetNNeuPar() == arg
    {
      nNeuPar := arg;
    }

    method SetIsEmbed(arg: bool)
      modifies this
      ensures Value() == old(Value()).(isEmbed := arg) && GetIsEmbed() == arg
    {
      isEmbed := arg;
    }

    method SetESumChrg(arg: real)
      modifies this
      ensures Value() == old(Value()).(eSumChrg := arg) && GetESumChrg() == arg
    {
      eSumChrg := arg;
    }

    method SetESumNeu(arg: real)
      modifies this
      ensures Value() == old(Value()).(eSumNeu := arg) && GetESumNeu() == arg
    {
      eSumNeu := arg;
    }

    method SetPartons(arg: PartonPair)
      modifies this
      ensures Value() == old(Value()).(partons := arg)
      ensures GetPartons() == arg && GetPartonA() == arg.0 && GetPartonB() == arg.1
    {
      partons := arg;
    }
  }
}
