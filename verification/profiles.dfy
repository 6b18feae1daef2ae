/**
 * The classification side of src/Main.java: the OutputProfiles enum, whose
 * four profiles are the outputs the network is trained towards, and
 * getBestProfile, which picks the profile closest to a network's output.
 */
module OutputProfiles {
  import opened Cost

  datatype Profile = Square | Diamond | Plus | Cross

  /** OutputProfiles.values(): the profiles in declaration order. */
  const Declared: seq<Profile> := [Square, Diamond, Plus, Cross]

  /** The position of p in declaration order. */
  function Ordinal(p: Profile): (i: nat)
    ensures i < |Declared| && Declared[i] == p
  {
    match p
    case Square => 0
    case Diamond => 1
    case Plus => 2
    case Cross => 3
  }

  /** getProfile: a one-hot vector of length 4 with its 1 at the profile's ordinal. */
  function ProfileVector(p: Profile): (v: seq<real>)
    ensures |v| == 4
    ensures forall i :: 0 <= i < 4 ==> v[i] == if i == Ordinal(p) then 1.0 else 0.0
  {
    match p
    case Square => [1.0, 0.0, 0.0, 0.0]
    case Diamond => [0.0, 1.0, 0.0, 0.0]
    case Plus => [0.0, 0.0, 1.0, 0.0]
    case Cross => [0.0, 0.0, 0.0, 1.0]
  }

  /** Every profile appears once in values(), and no two profiles share a vector. */
  lemma ProfilesDistinct(p: Profile, q: Profile)
    ensures p in Declared
    ensures p != q ==> Ordinal(p) != Ordinal(q) && ProfileVector(p) != ProfileVector(q)
  {
    if p != q {
      assert ProfileVector(p)[Ordinal(p)] == 1.0;
      assert ProfileVector(q)[Ordinal(p)] == 0.0;
    }
  }

  /** The cost of a network output measured against profile p. */
  function CostAgainst(co: CostOption, result: seq<real>, p: Profile): real
  {
    Value(co, result, ProfileVector(p))
  }

  /**
   * getBestProfile: the cost against every profile in declaration order,
   * then a scan that keeps the first strictly smaller cost. The profile
   * returned costs no more than any other, and every profile declared
   * before it costs strictly more.
   */
  method GetBestProfile(result: seq<real>, co: CostOption) returns (best: Profile)
    ensures forall q :: CostAgainst(co, result, best) <= CostAgainst(co, result, q)
    ensures forall q :: Ordinal(q) < Ordinal(best) ==> CostAgainst(co, result, best) < CostAgainst(co, result, q)
  {
    var desiredValues := Declared;
    var costArr: seq<real> := [];
    var i := 0;
    while i < |desiredValues|
      invariant 0 <= i <= |desiredValues| && |costArr| == i
      invariant forall k :: 0 <= k < i ==> costArr[k] == CostAgainst(co, result, desiredValues[k])
    {
      var c := CalculateOriginal(co, result, ProfileVector(desiredValues[i]));
      costArr := costArr + [c];
      i := i + 1;
    }
    var minIndex := FirstMinimum(costArr);
    best := desiredValues[minIndex];
    forall q ensures CostAgainst(co, result, best) <= CostAgainst(co, result, q) {
      assert costArr[Ordinal(q)] == CostAgainst(co, result, q);
    }
  }

  /**
   * The scan of getBestProfile: min starts at positive infinity (minIndex
   * == -1 stands for it) and only a strictly smaller cost replaces it, so
   * the index found holds a least cost and every earlier cost is larger.
   */
  method FirstMinimum(costArr: seq<real>) returns (minIndex: nat)
    requires |costArr| > 0
    ensures minIndex < |costArr|
    ensures forall k :: 0 <= k < |costArr| ==> costArr[minIndex] <= costArr[k]
    ensures forall k :: 0 <= k < minIndex ==> costArr[minIndex] < costArr[k]
  {
    var min: real := 0.0;
    var m := -1;
    var i := 0;
    while i < |costArr|
      invariant 0 <= i <= |costArr|
      invariant i == 0 <==> m == -1
      invariant i > 0 ==> 0 <= m < i && min == costArr[m]
      invariant forall k :: 0 <= k < i ==> min <= costArr[k]
      invariant forall k :: 0 <= k < m ==> min < costArr[k]
    {
      if m == -1 || costArr[i] < min {
        min := costArr[i];
        m := i;
      }
      i := i + 1;
    }
    minIndex := m;
  }
}
