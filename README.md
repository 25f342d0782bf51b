# Bounded physics-object records of SCorrelatorUtilities, in Dafny

The SCorrelatorUtilities library describes each physics object of an sPHENIX correlator
analysis as a flat record:

- a jet constituent (`CstInfo`);
- a jet (`JetInfo`);
- a track (`TrkInfo`);
- the reconstructed event summary (`RecoInfo`);
- the generator-level event summary (`GenInfo`).

CstInfo, JetInfo and RecoInfo can be put in one of two sentinel states: *minimize*, with
every field at `numeric_limits<T>::min()`, and *maximize*, with every field at
`numeric_limits<T>::max()`. Their `Reset()` is Maximize. Which state the field initialisers
give depends on the record:

- CstInfo and TrkInfo: the initialisers in their headers give every field its maximum.
- JetInfo and RecoInfo: their headers, and so their initialisers, are not part of this model.
- GenInfo: the initialisers give the numeric fields their maximum, `isEmbed` false and
  default-constructed partons.

GenInfo's sentinel states differ:

- Its Minimize and Maximize set the counts and energy sums to the numeric limits and both
  partons to `ParInfo(Init::Minimize)` or `ParInfo(Init::Maximize)`. They leave `isEmbed`
  unchanged.
- Its Reset clears `isEmbed` before maximizing.

The "## Model" rows state each record's states exactly.

A record can be populated from an upstream object (a fastjet pseudojet or the event node),
and it lists its member names for output trees. Constituents and jets also overload
`<`, `>`, `<=` and `>=`. These operators compare every *ordering field*, so they define a
partial order. `IsInAcceptance(minimum, maximum)` accepts a record that is `>= minimum` and
`<= maximum`, i.e. one whose ordering fields all lie in a box.

## Layout

| file | modules | what it holds |
|---|---|---|
| `limits.dfy` | `Limits`, `Const` | the `numeric_limits` sentinels and fixed-width integer types; the enumerations of the `Const` namespace |
| `order.dfy` | `Order` | the generic field-wise comparison of two *ordering points*, and its order-theoretic lemmas; the hand-written operators are proved equal to it |
| `sources.dfy` | `Parton`, `Sources` | the upstream objects reduced to the values the records read from them |
| `names.dfy` | `Names`, `Interfaces` | member-name lists and the two list helpers GenInfo uses |
| `cst_info.dfy` | `Cst` | CstInfo |
| `jet_info.dfy` | `Jet` | JetInfo |
| `trk_info.dfy` | `Trk` | TrkInfo's declaration |
| `reco_info.dfy` | `Reco` | RecoInfo |
| `gen_info.dfy` | `Gen` | GenInfo |

Each record is a `class` with the source's fields. `Value()` reads them as a datatype
snapshot, and each mutating method states the whole new snapshot. The operators are
predicates on snapshots. The conventions:

- `Minimized()`, `Maximized()` and `Populated(...)` are the states that Minimize, Maximize
  and SetInfo produce.
- The sentinel constructor takes a `Const.Init`. `Unlisted(code)` stands for an enum value
  that is neither `Minimize` nor `Maximize`; such a value falls through to Maximize, as the
  source's `switch` default does.
- The integer fields use subset types of their C++ widths. Doubles are `real`.
- `DBL_MIN` is the exact value 2^-1022: a positive number, not the most negative double.
  The `MinimizedLowerBound` lemmas spell out the consequence. A record in the minimize state,
  used as a lower acceptance bound, rejects every record with a zero or negative
  pseudorapidity, azimuth or momentum component.
- CstInfo's field `type` is called `kind`, because `type` is a keyword in Dafny. Its member
  name stays `"type"`.
- The upstream queries (`Tools::GetPartonInfo`, `Tools::GetNumFinalStatePars`,
  `Tools::GetSumCaloEne`, `Interfaces::GetRecoVtx`, ...) are fields of `Sources.EventNode`,
  because their implementations are not part of this model. A `Sources.PseudoJet` carries the
  values of the fastjet accessors the records call.
- `std::hypot` is a function parameter. The vertex-radius property is proved for every
  parameter that computes the length exactly (`Sources.IsHypot`).

Population never fails in the code: it trusts the upstream handle. The model does the same,
so it has no error result for a null or malformed source. An unrecognised sentinel mode is
likewise modelled as the code's silent fallback to maximize, not as an error.

The Jet lemmas about the order (reflexivity, converse, partial order, label independence,
sentinel bounds) repeat the Cst ones on purpose. CstInfo and JetInfo each write their own
four operators over different fields, so each record's operators get their own statements.
All of them rest on the shared lemmas of `Order`.

## Model

| member | source | states |
|---|---|---|
| Limits.DoubleSentinels | src/CstInfo.cc:33-73 | the sentinels numeric_limits<double>::min() and max() satisfy 0 < DBL_MIN < 1 < DBL_MAX: the minimum is the smallest positive normal double, not the most negative one |
| Order.PointwiseAt | src/CstInfo.cc:148-164 | a comparison holds between two ordering points exactly when it holds at every index (proved by induction on the length) |
| Order.InBoxAt | src/CstInfo.cc:104-108 | being >= a lower point and <= an upper point is lo[i] <= x[i] <= hi[i] at every index |
| Order.NonStrictReflexive | src/CstInfo.cc:188-224 | <= and >= hold between a point and itself |
| Order.StrictIrreflexive | src/CstInfo.cc:148-184 | < and > never hold between a non-empty point and itself |
| Order.Converse | src/CstInfo.cc:148-224 | x < y exactly when y > x, and x <= y exactly when y >= x |
| Order.LeTransitive | src/CstInfo.cc:188-204 | <= is transitive |
| Order.LeAntisymmetric | src/CstInfo.cc:188-204 | <= both ways forces equal ordering points |
| Order.LtAsymmetric | src/CstInfo.cc:148-164 | x < y and y < x never both hold |
| Order.LtImpliesLe | src/CstInfo.cc:148-204 | < implies <= |
| Order.AgainstConstant | src/CstInfo.cc:148-224 | comparing with a sentinel point is comparing every coordinate with the sentinel value, in both argument positions |
| Order.MaximumIsTop | src/CstInfo.cc:55-73 | every finite point is <= the DBL_MAX point, and the DBL_MAX point is <= a finite point only when the two are equal |
| Interfaces.AddTagToLeaves | src/GenInfo.cc:112-113 | every leaf name comes back as tag + "_" + name, one for one and in order; because tagging is injective, a duplicate-free leaf list stays duplicate-free |
| Interfaces.CombineLeafLists | src/GenInfo.cc:123-124 | the destination list keeps its names as a prefix and gains the added names at its end; two duplicate-free lists with no name in common combine into a duplicate-free list |
| Cst.Populated | src/CstInfo.cc:88-100 | SetInfo copies user_index, E, px, py, pz, perp, pseudorapidity and phi_std from the pseudojet and leaves type, jetID, embedID, pid, z and dr untouched |
| Cst.CoordsPointwise | src/CstInfo.cc:148-224 | the generic field-wise comparison of two constituents' ordering points is the conjunction over z, dr, ene, px, py, pz, pt, eta and phi |
| Cst.Less | src/CstInfo.cc:148-164 | lhs < rhs holds exactly when < holds field by field between the nine ordering fields (z, dr, ene, px, py, pz, pt, eta, phi) of the two constituents; the labels take no part |
| Cst.Greater | src/CstInfo.cc:168-184 | lhs > rhs holds exactly when > holds field by field between the nine ordering fields (z, dr, ene, px, py, pz, pt, eta, phi) of the two constituents; the labels take no part |
| Cst.LessEq | src/CstInfo.cc:188-204 | lhs <= rhs holds exactly when <= holds field by field between the nine ordering fields (z, dr, ene, px, py, pz, pt, eta, phi) of the two constituents; the labels take no part |
| Cst.GreaterEq | src/CstInfo.cc:208-224 | lhs >= rhs holds exactly when >= holds field by field between the nine ordering fields (z, dr, ene, px, py, pz, pt, eta, phi) of the two constituents; the labels take no part |
| Cst.SentinelCoords | src/CstInfo.cc:33-73 | the minimize state puts all nine ordering fields at DBL_MIN, the maximize state at DBL_MAX |
| Cst.AcceptanceIsBox | src/CstInfo.cc:104-108 | (r >= minimum) && (r <= maximum) holds exactly when every ordering field lies in [minimum field, maximum field] |
| Cst.NonStrictReflexive | src/CstInfo.cc:188-224 | a constituent is <= and >= itself |
| Cst.StrictIrreflexive | src/CstInfo.cc:148-184 | a constituent is neither < nor > itself |
| Cst.LessAsymmetric | src/CstInfo.cc:148-184 | < (and >) never holds in both directions |
| Cst.ConverseOperators | src/CstInfo.cc:148-224 | a > b exactly when b < a, a >= b exactly when b <= a, and < implies <= |
| Cst.LessEqPartialOrder | src/CstInfo.cc:188-204 | <= is transitive, and <= both ways forces equal ordering fields |
| Cst.Incomparable | src/CstInfo.cc:148-224 | a constituent with more energy but smaller eta than another is related to it by none of the four operators: the order is partial |
| Cst.OperatorsIgnoreIdentifiers | src/CstInfo.cc:148-224 | changing type, cstID, jetID, embedID or pid changes the outcome of no comparison |
| Cst.MinimizedLowerBound | src/CstInfo.cc:33-51 | a constituent is >= the minimize state exactly when every ordering field is >= DBL_MIN, so a zero or negative eta, phi or px fails it |
| Cst.SentinelBounds | src/CstInfo.cc:33-73 | a constituent with finite ordering fields is <= the maximize state; the maximize state is <= it only if its ordering fields are all DBL_MAX; the minimize state is >= it exactly when all its ordering fields are <= DBL_MIN |
| Cst.CstInfo.constructor | src/CstInfo.h:41-54 | the field initialisers put every int at INT_MAX and every double at DBL_MAX |
| Cst.CstInfo.FromInit | src/CstInfo.cc:230-244 | Init::Minimize gives the minimize state; Init::Maximize and any other value give the maximize state |
| Cst.CstInfo.FromPseudoJet | src/CstInfo.cc:248-252 | the initialised record populated from the pseudojet |
| Cst.CstInfo.Minimize | src/CstInfo.cc:33-51 | every int field becomes INT_MIN and every double DBL_MIN |
| Cst.CstInfo.Maximize | src/CstInfo.cc:55-73 | every int field becomes INT_MAX and every double DBL_MAX |
| Cst.CstInfo.Reset | src/CstInfo.cc:79-84 | resetting leaves the maximize state |
| Cst.CstInfo.SetInfo | src/CstInfo.cc:88-100 | the new record is the old one populated from the pseudojet |
| Cst.CstInfo.IsInAcceptance | src/CstInfo.cc:104-108 | true exactly when the record is >= minimum and <= maximum, i.e. every ordering field lies between the bounds' fields |
| Cst.CstInfo.IsInAcceptanceRange | src/CstInfo.cc:112-116 | the same test with the bounds given as a (minimum, maximum) pair |
| Cst.CstInfo.GetListOfMembers | src/CstInfo.cc:122-142 | fourteen distinct names, one per field, from "type" through "z" to "phi" |
| Cst.CstInfo.SetType | src/CstInfo.h:79 | writes the Type field and no other; GetType then returns the argument |
| Cst.CstInfo.SetCstID | src/CstInfo.h:80 | writes the CstID field and no other; GetCstID then returns the argument |
| Cst.CstInfo.SetJetID | src/CstInfo.h:81 | writes the JetID field and no other; GetJetID then returns the argument |
| Cst.CstInfo.SetEmbedID | src/CstInfo.h:82 | writes the EmbedID field and no other; GetEmbedID then returns the argument |
| Cst.CstInfo.SetPID | src/CstInfo.h:83 | writes the PID field and no other; GetPID then returns the argument |
| Cst.CstInfo.SetZ | src/CstInfo.h:84 | writes the Z field and no other; GetZ then returns the argument |
| Cst.CstInfo.SetDR | src/CstInfo.h:85 | writes the DR field and no other; GetDR then returns the argument |
| Cst.CstInfo.SetEne | src/CstInfo.h:86 | writes the Ene field and no other; GetEne then returns the argument |
| Cst.CstInfo.SetPX | src/CstInfo.h:87 | writes the PX field and no other; GetPX then returns the argument |
| Cst.CstInfo.SetPY | src/CstInfo.h:88 | writes the PY field and no other; GetPY then returns the argument |
| Cst.CstInfo.SetPZ | src/CstInfo.h:89 | writes the PZ field and no other; GetPZ then returns the argument |
| Cst.CstInfo.SetPT | src/CstInfo.h:90 | writes the PT field and no other; GetPT then returns the argument |
| Cst.CstInfo.SetEta | src/CstInfo.h:91 | writes the Eta field and no other; GetEta then returns the argument |
| Cst.CstInfo.SetPhi | src/CstInfo.h:92 | writes the Phi field and no other; GetPhi then returns the argument |
| Jet.ConstituentCount | src/JetInfo.cc:70-82 | the constituent vector's size stored as uint64_t: the size itself whenever it fits in 64 bits |
| Jet.Populated | src/JetInfo.cc:70-82 | SetInfo stores the constituent count, E, px, py, pz, perp, pseudorapidity and phi_std and leaves jetID and area untouched |
| Jet.CoordsPointwise | src/JetInfo.cc:126-202 | the generic field-wise comparison of two jets' ordering points is the conjunction over nCsts, ene, px, py, pz, pt, eta, phi and area |
| Jet.Less | src/JetInfo.cc:126-142 | lhs < rhs holds exactly when < holds field by field between the nine ordering fields (nCsts, ene, px, py, pz, pt, eta, phi, area) of the two jets; jetID takes no part |
| Jet.Greater | src/JetInfo.cc:146-162 | lhs > rhs holds exactly when > holds field by field between the nine ordering fields (nCsts, ene, px, py, pz, pt, eta, phi, area) of the two jets; jetID takes no part |
| Jet.LessEq | src/JetInfo.cc:166-182 | lhs <= rhs holds exactly when <= holds field by field between the nine ordering fields (nCsts, ene, px, py, pz, pt, eta, phi, area) of the two jets; jetID takes no part |
| Jet.GreaterEq | src/JetInfo.cc:186-202 | lhs >= rhs holds exactly when >= holds field by field between the nine ordering fields (nCsts, ene, px, py, pz, pt, eta, phi, area) of the two jets; jetID takes no part |
| Jet.SentinelCoords | src/JetInfo.cc:23-55 | the minimize state's ordering point is 0 then eight DBL_MIN; the maximize state's is UINT64_MAX then eight DBL_MAX |
| Jet.AcceptanceIsBox | src/JetInfo.cc:86-90 | (r >= minimum) && (r <= maximum) holds exactly when every ordering field lies in [minimum field, maximum field] |
| Jet.NonStrictReflexive | src/JetInfo.cc:166-202 | a jet is <= and >= itself |
| Jet.StrictIrreflexive | src/JetInfo.cc:126-162 | a jet is neither < nor > itself |
| Jet.LessAsymmetric | src/JetInfo.cc:126-162 | < (and >) never holds in both directions |
| Jet.ConverseOperators | src/JetInfo.cc:126-202 | a > b exactly when b < a, a >= b exactly when b <= a, and < implies <= |
| Jet.LessEqPartialOrder | src/JetInfo.cc:166-182 | <= is transitive, and <= both ways forces equal ordering fields |
| Jet.Incomparable | src/JetInfo.cc:126-202 | a jet with more energy but smaller eta than another is related to it by none of the four operators |
| Jet.OperatorsIgnoreJetID | src/JetInfo.cc:126-202 | changing jetID changes the outcome of no comparison |
| Jet.MinimizedLowerBound | src/JetInfo.cc:23-37 | a jet is >= the minimize state exactly when its eight double ordering fields are >= DBL_MIN (nCsts is unconstrained), so a zero or negative eta, phi or px fails it |
| Jet.SentinelBounds | src/JetInfo.cc:23-55 | a jet with finite double fields is <= the maximize state; the maximize state is <= it only if all its ordering fields are at the maximum; the minimize state is >= it exactly when it has no constituents and every double ordering field is <= DBL_MIN |
| Jet.MaximizedBounds | src/JetInfo.cc:41-55 | a jet with finite double fields is <= the maximize state, and the maximize state is <= it only when every ordering field equals the maximize state's |
| Jet.MinimizedAsLowerBound | src/JetInfo.cc:23-37 | the minimize state is >= a jet exactly when the jet has no constituents and every double ordering field is <= DBL_MIN |
| Jet.JetInfo.FromInit | src/JetInfo.cc:225-239 | Init::Minimize gives the minimize state; Init::Maximize and any other value give the maximize state |
| Jet.JetInfo.FromPseudoJet | src/JetInfo.cc:243-247 | the fields SetInfo writes hold the pseudojet's values |
| Jet.JetInfo.Minimize | src/JetInfo.cc:23-37 | jetID and nCsts become 0 and every double DBL_MIN |
| Jet.JetInfo.Maximize | src/JetInfo.cc:41-55 | jetID becomes UINT32_MAX, nCsts UINT64_MAX and every double DBL_MAX |
| Jet.JetInfo.Reset | src/JetInfo.cc:61-66 | resetting leaves the maximize state |
| Jet.JetInfo.SetInfo | src/JetInfo.cc:70-82 | the new record is the old one populated from the pseudojet |
| Jet.JetInfo.IsInAcceptance | src/JetInfo.cc:86-90 | true exactly when the jet is >= minimum and <= maximum, i.e. every ordering field lies between the bounds' fields |
| Jet.JetInfo.IsInAcceptanceRange | src/JetInfo.cc:94-98 | the same test with the bounds given as a (minimum, maximum) pair |
| Jet.JetInfo.GetListOfMembers | src/JetInfo.cc:104-120 | ten distinct names, "jetID" and "nCsts" first and "area" last |
| Trk.TrkInfo.constructor | src/TrkInfo.h:45-65 | the field initialisers put every int at INT_MAX and every double at DBL_MAX |
| Trk.TrkInfo.SetID | src/TrkInfo.h:97 | writes the ID field and no other; GetID then returns the argument |
| Trk.TrkInfo.SetNMvtxLayer | src/TrkInfo.h:98 | writes the NMvtxLayer field and no other; GetNMvtxLayer then returns the argument |
| Trk.TrkInfo.SetNInttLayer | src/TrkInfo.h:99 | writes the NInttLayer field and no other; GetNInttLayer then returns the argument |
| Trk.TrkInfo.SetNTpcLayer | src/TrkInfo.h:100 | writes the NTpcLayer field and no other; GetNTpcLayer then returns the argument |
| Trk.TrkInfo.SetNMvtxClust | src/TrkInfo.h:101 | writes the NMvtxClust field and no other; GetNMvtxClust then returns the argument |
| Trk.TrkInfo.SetNInttClust | src/TrkInfo.h:102 | writes the NInttClust field and no other; GetNInttClust then returns the argument |
| Trk.TrkInfo.SetNTpcClust | src/TrkInfo.h:103 | writes the NTpcClust field and no other; GetNTpcClust then returns the argument |
| Trk.TrkInfo.SetEta | src/TrkInfo.h:104 | writes the Eta field and no other; GetEta then returns the argument |
| Trk.TrkInfo.SetPhi | src/TrkInfo.h:105 | writes the Phi field and no other; GetPhi then returns the argument |
| Trk.TrkInfo.SetEne | src/TrkInfo.h:106 | writes the Ene field and no other; GetEne then returns the argument |
| Trk.TrkInfo.SetPX | src/TrkInfo.h:107 | writes the PX field and no other; GetPX then returns the argument |
| Trk.TrkInfo.SetPY | src/TrkInfo.h:108 | writes the PY field and no other; GetPY then returns the argument |
| Trk.TrkInfo.SetPZ | src/TrkInfo.h:109 | writes the PZ field and no other; GetPZ then returns the argument |
| Trk.TrkInfo.SetPT | src/TrkInfo.h:110 | writes the PT field and no other; GetPT then returns the argument |
| Trk.TrkInfo.SetDcaXY | src/TrkInfo.h:111 | writes the DcaXY field and no other; GetDcaXY then returns the argument |
| Trk.TrkInfo.SetDcaZ | src/TrkInfo.h:112 | writes the DcaZ field and no other; GetDcaZ then returns the argument |
| Trk.TrkInfo.SetPtErr | src/TrkInfo.h:113 | writes the PtErr field and no other; GetPtErr then returns the argument |
| Trk.TrkInfo.SetQuality | src/TrkInfo.h:114 | writes the Quality field and no other; GetQuality then returns the argument |
| Trk.TrkInfo.SetVX | src/TrkInfo.h:115 | writes the VX field and no other; GetVX then returns the argument |
| Trk.TrkInfo.SetVY | src/TrkInfo.h:116 | writes the VY field and no other; GetVY then returns the argument |
| Trk.TrkInfo.SetVZ | src/TrkInfo.h:117 | writes the VZ field and no other; GetVZ then returns the argument |
| Reco.Populated | src/RecoInfo.cc:70-87 | SetInfo reads the track count and momentum sum, the CLUSTER_CEMC, CLUSTER_HCALIN and CLUSTER_HCALOUT energy sums and the vertex, and sets vr = hypot(vx, vy) |
| Reco.VertexRadius | src/RecoInfo.cc:84 | the stored vr is hypot applied to the stored vx and vy, so the exactness assumed of hypot (non-negative, squaring to x² + y²) carries over to vr: the property is inherited from hypot, not derived |
| Reco.RecoInfo.FromInit | src/RecoInfo.cc:130-144 | Init::Minimize gives the minimize state; Init::Maximize and any other value give the maximize state |
| Reco.RecoInfo.FromNode | src/RecoInfo.cc:148-152 | the record populated from the node, with the vertex-radius property |
| Reco.RecoInfo.Minimize | src/RecoInfo.cc:25-38 | nTrks becomes INT_MIN and every double DBL_MIN |
| Reco.RecoInfo.Maximize | src/RecoInfo.cc:42-55 | nTrks becomes INT_MAX and every double DBL_MAX |
| Reco.RecoInfo.Reset | src/RecoInfo.cc:61-66 | resetting leaves the maximize state |
| Reco.RecoInfo.SetInfo | src/RecoInfo.cc:70-87 | every field is overwritten from the node; with an exact hypot, vr is the non-negative length of (vx, vy) |
| Reco.RecoInfo.GetListOfMembers | src/RecoInfo.cc:93-108 | nine distinct names, "nTrks" first and "vr" last |
| Gen.Populated | src/GenInfo.cc:72-99 | isEmbed is the flag; the partons come from the embedded-signal sub-event when it is set and from the non-embedded one otherwise; counts and energy sums come from the charged and neutral subsets of the same sub-events |
| Gen.MembersDistinct | src/GenInfo.cc:105-127 | the composed member list has no duplicate whenever the parton member list has none |
| Gen.AtomicUntagged | src/GenInfo.cc:112-122 | none of the five atomic names equals a name carrying a tag that starts with P, such as PartonA_ or PartonB_ |
| Gen.TagsApart | src/GenInfo.cc:112-113 | no name tagged PartonA equals a name tagged PartonB |
| Gen.GenInfo.constructor | src/GenInfo.h:42-49 | the field initialisers: INT_MAX counts, isEmbed false, DBL_MAX sums, default-constructed partons |
| Gen.GenInfo.FromInit | src/GenInfo.cc:149-163 | isEmbed stays false; Init::Minimize gives the minimize state, any other value the maximize state |
| Gen.GenInfo.FromNode | src/GenInfo.cc:167-171 | the record populated from the node, the embedding flag and the sub-event list |
| Gen.GenInfo.Minimize | src/GenInfo.cc:25-37 | counts become INT_MIN, sums DBL_MIN, both partons minimized; isEmbed is kept |
| Gen.GenInfo.Maximize | src/GenInfo.cc:41-53 | counts become INT_MAX, sums DBL_MAX, both partons maximized; isEmbed is kept |
| Gen.GenInfo.Reset | src/GenInfo.cc:59-68 | isEmbed becomes false and everything else is maximized |
| Gen.GenInfo.SetInfo | src/GenInfo.cc:72-99 | the new record is the one populated from the node, whatever the old state |
| Gen.GenInfo.GetListOfMembers | src/GenInfo.cc:105-127 | the five atomic names, then every parton name tagged PartonA_, then every one tagged PartonB_; 5 + 2n names, duplicate-free when the parton names are |
| Gen.GenInfo.SetNChrgPar | src/GenInfo.h:68 | writes the NChrgPar field and no other; GetNChrgPar then returns the argument |
| Gen.GenInfo.SetNNeuPar | src/GenInfo.h:69 | writes the NNeuPar field and no other; GetNNeuPar then returns the argument |
| Gen.GenInfo.SetIsEmbed | src/GenInfo.h:70 | writes the IsEmbed field and no other; GetIsEmbed then returns the argument |
| Gen.GenInfo.SetESumChrg | src/GenInfo.h:71 | writes the ESumChrg field and no other; GetESumChrg then returns the argument |
| Gen.GenInfo.SetESumNeu | src/GenInfo.h:72 | writes the ESumNeu field and no other; GetESumNeu then returns the argument |
| Gen.GenInfo.SetPartons | src/GenInfo.h:73 | writes the parton pair and no other field; GetPartons, GetPartonA and GetPartonB then return the pair and its two halves |

## Left out

- fastjet and the event-node queries are not modelled: the values they return are inputs
  (`Sources.PseudoJet`, `Sources.EventNode`). The reconstruction and the generator queries
  are outside the records.
- `std::hypot` is a parameter, not a computation, and its floating-point rounding is not
  modelled. Over the reals a square root cannot be constructed here, so `Reco.VertexRadius`
  holds for an exact hypot only.
- Doubles are unbounded reals. IEEE rounding, infinities and NaN are not modelled: a NaN
  field would make every comparison false.
- Jet.ConstituentCount: the `size_t` to `uint64_t` conversion is written as reduction
  modulo 2^64, and the contract states only the case where the size fits.
- TrkInfo.cc is not part of this model. TrkInfo's `Minimize`, `Maximize`, `Reset`,
  `SetInfo`, `IsInAcceptance` (both overloads), `IsInSigmaDcaCut`, `GetListOfMembers`,
  constructors other than the field initialisers, and its comparison operators are therefore
  not modelled. Only the declaration in TrkInfo.h is: fields, initialisers, getters and
  setters.
- JetInfo.h and RecoInfo.h are not part of this model. The field types follow the
  `numeric_limits` calls in the .cc files.
  - Their default constructors, field initialisers, getters and setters are left out.
  - Jet.JetInfo.FromPseudoJet does not state the values of jetID and area, which come from
    those initialisers.
  - Reco.RecoInfo.FromNode states the populated record, not the initialised one, because
    SetInfo overwrites every field.
- ParInfo (the parton record) is not part of this model. A parton is known only by how it was
  produced: default-constructed, in a sentinel state, or read from the event. Its member list
  is a parameter of `Gen.GenInfo.GetListOfMembers`.
- Interfaces.AddTagToLeaves and Interfaces.CombineLeafLists: their definitions are not part
  of this model. Both follow the tag_name convention of the output column names: the leaf name is
  prefixed with `tag_`, and the added list is appended at the end. The source mutates its
  argument by reference; the model returns the new list.
- Constants.h is not used by the modelled logic. The `Const` enumerations (Init, SubEvt,
  HardScatterStatus, Subset) come from a header that is not part of this model; `Const`
  declares only the enumerators the records use.
- The ROOT dictionary macro (`ClassDefNV`) has no behaviour to model, and neither do the
  empty default constructors and destructors that JetInfo.cc, RecoInfo.cc and GenInfo.cc
  define. CstInfo.cc defines neither: `CstInfo()` and `~CstInfo()` are only declared in
  CstInfo.h, so `Cst.CstInfo.constructor` rests on the field initialisers alone.
- The getters have no rows of their own. They are `reads this` functions, and each
  setter's contract states what its getter returns afterwards.
