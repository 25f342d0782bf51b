/** Lists of member (output column) names. */
module Names {

  /** No name occurs twice. */
  predicate Distinct(names: seq<string>) {
    forall i, j :: 0 <= i < j < |names| ==> names[i] != names[j]
  }
}

/** The two list helpers of the source's Interfaces namespace that GenInfo uses. Their
    definitions are not part of this model; they follow the tag_name convention of the
    output column names: a sub-record's names are prefixed with the tag and an underscore,
    and the tagged list is appended to the end of the destination list. */
module Interfaces {
  import Names

  /** Interfaces::AddTagToLeaves(tag, leaves): every name becomes `tag_name`. Tagging is
      injective, so it keeps distinct names distinct. */
  function AddTagToLeaves(tag: string, leaves: seq<string>): (tagged: seq<string>)
    ensures |tagged| == |leaves|
    ensures forall i :: 0 <= i < |leaves| ==> tagged[i] == tag + "_" + leaves[i]
    ensures Names.Distinct(leaves) ==> Names.Distinct(tagged)
  {
    var t := seq(|leaves|, i requires 0 <= i < |leaves| => tag + "_" + leaves[i]);
    assert Names.Distinct(leaves) ==> Names.Distinct(t) by {
      if Names.Distinct(leaves) {
        var k := |tag + "_"|;
        forall i, j | 0 <= i < j < |t| ensures t[i] != t[j] {
          assert t[i][k..] == leaves[i];
          assert t[j][k..] == leaves[j];
        }
      }
    }
    t
  }

  /** Interfaces::CombineLeafLists(toAdd, addTo): `addTo` extended by `toAdd`. Two
      duplicate-free lists with no name in common combine into a duplicate-free list. */
  function CombineLeafLists(toAdd: seq<string>, addTo: seq<string>): (combined: seq<string>)
    ensures |combined| == |addTo| + |toAdd|
    ensures combined[..|addTo|] == addTo && combined[|addTo|..] == toAdd
    ensures Names.Distinct(addTo) && Names.Distinct(toAdd) &&
            (forall i, j :: 0 <= i < |addTo| && 0 <= j < |toAdd| ==> addTo[i] != toAdd[j])
            ==> Names.Distinct(combined)
  {
    var c := addTo + toAdd;
    assert Names.Distinct(addTo) && Names.Distinct(toAdd) &&
           (forall i, j :: 0 <= i < |addTo| && 0 <= j < |toAdd| ==> addTo[i] != toAdd[j])
           ==> Names.Distinct(c) by {
      if Names.Distinct(addTo) && Names.Distinct(toAdd) &&
         (forall i, j :: 0 <= i < |addTo| && 0 <= j < |toAdd| ==> addTo[i] != toAdd[j]) {
        forall i, j | 0 <= i < j < |c| ensures c[i] != c[j] {
          if j < |addTo| {
            assert c[i] == addTo[i] && c[j] == addTo[j];
          } else if |addTo| <= i {
            assert c[i] == toAdd[i - |addTo|] && c[j] == toAdd[j - |addTo|];
          } else {
            assert c[i] == addTo[i] && c[j] == toAdd[j - |addTo|];
          }
        }
      }
    }
    c
  }
}
