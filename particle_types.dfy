/** The classification of a muon track by the origin of its Monte-Carlo
    ancestor. A muon can come from several origins at once (a W decaying to
    a b quark whose muon scatters in the absorber is a W, a beauty and a
    secondary muon), so the classifier returns the first origin that holds
    in a fixed priority order, and "decay muon" when none holds. */
module ParticleTypes {

  datatype ParticleType =
    | Unidentified
    | RecoHadron
    | SecondaryMu
    | DecayMu
    | BeautyMu
    | CharmMu
    | WbosonMu
    | ZbosonMu
    | QuarkoniumMu

  /** The answers of the muon-ancestor utility for one track, each an
      uninterpreted verdict about the track's MC history. */
  datatype MuonAncestry = MuonAncestry(
    isUnidentified: bool,
    isHadron: bool,
    isSecondaryMu: bool,
    isDecayMu: bool,
    isBeautyMu: bool,
    isCharmMu: bool,
    isWbosonMu: bool,
    isZbosonMu: bool,
    isQuarkoniumMu: bool)

  /** Whether the ancestry test that stands for `t` holds. */
  predicate Holds(anc: MuonAncestry, t: ParticleType)
  {
    match t
    case Unidentified => anc.isUnidentified
    case RecoHadron => anc.isHadron
    case SecondaryMu => anc.isSecondaryMu
    case DecayMu => anc.isDecayMu
    case BeautyMu => anc.isBeautyMu
    case CharmMu => anc.isCharmMu
    case WbosonMu => anc.isWbosonMu
    case ZbosonMu => anc.isZbosonMu
    case QuarkoniumMu => anc.isQuarkoniumMu
  }

  /** The order in which the tests are tried. */
  const Priority: seq<ParticleType> :=
    [Unidentified, RecoHadron, SecondaryMu, DecayMu, BeautyMu, CharmMu, WbosonMu, ZbosonMu, QuarkoniumMu]

  /** The position of `t` in the priority order. */
  function Rank(t: ParticleType): (i: nat)
    ensures i < |Priority| && Priority[i] == t
  {
    match t
    case Unidentified => 0
    case RecoHadron => 1
    case SecondaryMu => 2
    case DecayMu => 3
    case BeautyMu => 4
    case CharmMu => 5
    case WbosonMu => 6
    case ZbosonMu => 7
    case QuarkoniumMu => 8
  }

  /** The classifier: a chain of guarded returns in priority order. When a
      test holds, the result is a type whose test holds and no test of
      higher priority holds; when none holds, the result is DecayMu. */
  function GetParticleType(anc: MuonAncestry): (r: ParticleType)
    ensures Holds(anc, r) || (r == DecayMu && forall t :: !Holds(anc, t))
    ensures forall t :: Rank(t) < Rank(r) ==> !Holds(anc, t)
  {
    if anc.isUnidentified then Unidentified
    else if anc.isHadron then RecoHadron
    else if anc.isSecondaryMu then SecondaryMu
    else if anc.isDecayMu then DecayMu
    else if anc.isBeautyMu then BeautyMu
    else if anc.isCharmMu then CharmMu
    else if anc.isWbosonMu then WbosonMu
    else if anc.isZbosonMu then ZbosonMu
    else if anc.isQuarkoniumMu then QuarkoniumMu
    else DecayMu
  }

  // ---------------------------------------------------------------------
  // A reference definition: the first match in a list of types
  // ---------------------------------------------------------------------

  /** The index of the first type in `order` whose test holds, or |order|. */
  function FirstIndex(anc: MuonAncestry, order: seq<ParticleType>): (i: nat)
    ensures i <= |order|
    ensures forall j :: 0 <= j < i ==> !Holds(anc, order[j])
    ensures i < |order| ==> Holds(anc, order[i])
    decreases |order|
  {
    if order == [] then 0
    else if Holds(anc, order[0]) then 0
    else 1 + FirstIndex(anc, order[1..])
  }

  /** The first type in `order` whose test holds, or `default`. */
  function FirstMatch(anc: MuonAncestry, order: seq<ParticleType>, default: ParticleType): ParticleType
  {
    var i := FirstIndex(anc, order);
    if i < |order| then order[i] else default
  }

  /** Rank is one-to-one. */
  lemma RankInjective(t: ParticleType, u: ParticleType)
    requires Rank(t) == Rank(u)
    ensures t == u
  {
  }

  /** Rank is the position in the priority order. */
  lemma RankOfPriority(i: nat)
    requires i < |Priority|
    ensures Rank(Priority[i]) == i
  {
  }

  /** A type whose test holds while no test of higher priority holds is the
      classifier's answer: the answer is unique. */
  lemma GetParticleTypeUnique(anc: MuonAncestry, t: ParticleType)
    requires Holds(anc, t)
    requires forall u :: Rank(u) < Rank(t) ==> !Holds(anc, u)
    ensures GetParticleType(anc) == t
  {
    var r := GetParticleType(anc);
    assert Holds(anc, r);
    assert Rank(r) == Rank(t);
    RankInjective(r, t);
  }

  /** The classifier is the first match in the priority order, with
      DecayMu as the default. */
  lemma GetParticleTypeIsFirstMatch(anc: MuonAncestry)
    ensures GetParticleType(anc) == FirstMatch(anc, Priority, DecayMu)
  {
    var i := FirstIndex(anc, Priority);
    if i < |Priority| {
      var t := Priority[i];
      RankOfPriority(i);
      forall u | Rank(u) < Rank(t) ensures !Holds(anc, u) {
        assert Priority[Rank(u)] == u;
      }
      GetParticleTypeUnique(anc, t);
    } else {
      forall u ensures !Holds(anc, u) {
        assert Priority[Rank(u)] == u;
      }
    }
  }

  /** DecayMu comes out exactly when the decay test is the first to hold,
      or when no test holds at all. */
  lemma DecayMuCases(anc: MuonAncestry)
    ensures GetParticleType(anc) == DecayMu <==>
      (anc.isDecayMu && !anc.isUnidentified && !anc.isHadron && !anc.isSecondaryMu)
      || (forall t :: !Holds(anc, t))
  {
  }

  /** A muon from a b quark from a W, seen after scattering in the absorber,
      passes the W, beauty and secondary tests; it is classed as a
      secondary muon, the first of them in the order. */
  lemma SecondaryBeforeBeautyAndW()
    ensures GetParticleType(MuonAncestry(false, false, true, false, true, false, true, false, false)) == SecondaryMu
  {
  }
}
