/** The ranking page's list derivations: the fallbacks for missing ranking data
    and the podium order of the three best praisers (second place on the left,
    first in the middle, third on the right). */
module RankingPage {
  import opened Wrappers
  import opened Text
  import opened Js
  import Lists

  /** `data?.complimentKings || []` and `data?.clubRankings || []`: a list the
      response lacks (or has falsy) is the empty list. */
  function ListOrEmpty(data: Option<Json>, key: string): (r: Json)
    ensures Truthy(OptProp(data, key)) ==> r == OptProp(data, key).value
    ensures !Truthy(OptProp(data, key)) ==> r == JArr([])
    ensures Truthy(Some(r))
  {
    FirstTruthy([OptProp(data, key)], Some(JArr([]))).value
  }

  /** With no data yet, both lists are empty. */
  lemma NoDataNoLists()
    ensures ListOrEmpty(None, "complimentKings") == JArr([])
    ensures ListOrEmpty(None, "clubRankings") == JArr([])
  {
  }

  /** `k.rank === n`; reading `rank` of a null entry throws. */
  function RankIs(n: int, k: Json): (r: Result<bool, JsError>)
    ensures r.Failure? <==> k == JNull
    ensures r.Success? ==> (r.value <==> Prop(k, "rank") == Some(JNum(n)))
  {
    match Get(Some(k), "rank")
    case Failure(e) => Failure(e)
    case Success(v) => Success(StrictEq(v, Some(JNum(n))))
  }

  /** `kings.find((k) => k.rank === n)`. */
  function FindRank(kings: seq<Json>, n: int): Result<Option<Json>, JsError> {
    Lists.FindResult(kings, k => RankIs(n, k))
  }

  /** What `if (king) orderedKings.push(king)` adds for a found king. */
  function Slot(found: Option<Json>): seq<Json> {
    if Truthy(found) then [found.value] else []
  }

  /** The order the page shows the kings in: with three or more, the first
      king of rank 2, of rank 1 and of rank 3, each only when there is one;
      with fewer, the list as it is. */
  function Podium(kings: seq<Json>): Result<seq<Json>, JsError> {
    if |kings| < 3 then Success(kings)
    else
      match FindRank(kings, 2)
      case Failure(e) => Failure(e)
      case Success(king2) =>
        match FindRank(kings, 1)
        case Failure(e) => Failure(e)
        case Success(king1) =>
          match FindRank(kings, 3)
          case Failure(e) => Failure(e)
          case Success(king3) => Success(Slot(king2) + Slot(king1) + Slot(king3))
  }

  /** `orderedKings`, built by pushing onto an empty array. */
  method OrderKings(kings: seq<Json>) returns (r: Result<seq<Json>, JsError>)
    ensures |kings| < 3 ==> r == Success(kings)
    ensures r == Podium(kings)
  {
    var ordered: seq<Json> := [];
    if |kings| >= 3 {
      var king2 := FindRank(kings, 2);
      if king2.Failure? { return Failure(king2.error); }
      var king1 := FindRank(kings, 1);
      if king1.Failure? { return Failure(king1.error); }
      var king3 := FindRank(kings, 3);
      if king3.Failure? { return Failure(king3.error); }
      if Truthy(king2.value) { ordered := ordered + [king2.value.value]; }
      assert ordered == Slot(king2.value);
      if Truthy(king1.value) { ordered := ordered + [king1.value.value]; }
      assert ordered == Slot(king2.value) + Slot(king1.value);
      if Truthy(king3.value) { ordered := ordered + [king3.value.value]; }
      assert ordered == Slot(king2.value) + Slot(king1.value) + Slot(king3.value);
    } else {
      ordered := kings;
    }
    r := Success(ordered);
  }

  /** A property read of `rank` finds something only on an object. */
  lemma RankedIsObject(k: Json, n: int)
    requires Prop(k, "rank") == Some(JNum(n))
    ensures k.JObj? && Truthy(Some(k))
  {
    assert !IsDigit("rank"[0]);
    assert ParseNat("rank") == None;
  }

  /** The slot for rank `n` holds the first king of that rank, and is empty
      exactly when no king has it. */
  lemma {:induction false} SlotIsFirstOfRank(kings: seq<Json>, n: int)
    requires FindRank(kings, n).Success?
    ensures var s := Slot(FindRank(kings, n).value);
      && |s| <= 1
      && (s == [] <==> forall i | 0 <= i < |kings| :: Prop(kings[i], "rank") != Some(JNum(n)))
      && (s != [] ==> exists i | 0 <= i < |kings| :: s[0] == kings[i] && Prop(kings[i], "rank") == Some(JNum(n))
                        && forall k | 0 <= k < i :: Prop(kings[k], "rank") != Some(JNum(n)))
  {
    var found := FindRank(kings, n).value;
    if found.Some? {
      var i :| 0 <= i < |kings| && kings[i] == found.value && RankIs(n, kings[i]).Success? && RankIs(n, kings[i]).value
               && forall k | 0 <= k < i :: RankIs(n, kings[k]).Success? && !RankIs(n, kings[k]).value;
      RankedIsObject(kings[i], n);
    } else {
      assert forall i | 0 <= i < |kings| :: RankIs(n, kings[i]).Success? && !RankIs(n, kings[i]).value;
    }
  }

  /** Where a king stands on the podium: rank 2 left, rank 1 middle, rank 3 right. */
  function Place(k: Json): int {
    match Prop(k, "rank")
    case Some(JNum(2)) => 0
    case Some(JNum(1)) => 1
    case Some(JNum(3)) => 2
    case _ => 3
  }

  /** What a slot can hold: at most one king, of the rank that slot is for. */
  lemma SlotFacts(kings: seq<Json>, n: int, place: int)
    requires FindRank(kings, n).Success?
    requires forall k | Prop(k, "rank") == Some(JNum(n)) :: Place(k) == place
    ensures var s := Slot(FindRank(kings, n).value);
      |s| <= 1 && forall i | 0 <= i < |s| :: Place(s[i]) == place && s[i] in kings
  {
    SlotIsFirstOfRank(kings, n);
  }

  /** Three slots of places 0, 1 and 2, one after another, are in place order. */
  lemma {:induction false} SlotsInOrder(s2: seq<Json>, s1: seq<Json>, s3: seq<Json>, kings: seq<Json>)
    requires |s2| <= 1 && forall i | 0 <= i < |s2| :: Place(s2[i]) == 0 && s2[i] in kings
    requires |s1| <= 1 && forall i | 0 <= i < |s1| :: Place(s1[i]) == 1 && s1[i] in kings
    requires |s3| <= 1 && forall i | 0 <= i < |s3| :: Place(s3[i]) == 2 && s3[i] in kings
    ensures var p := s2 + s1 + s3;
      && |p| <= 3
      && (forall i | 0 <= i < |p| :: Place(p[i]) < 3 && p[i] in kings)
      && (forall i, j | 0 <= i < j < |p| :: Place(p[i]) < Place(p[j]))
  {
    var p := s2 + s1 + s3;
    forall i | 0 <= i < |p|
      ensures p[i] in kings
      ensures Place(p[i]) == (if i < |s2| then 0 else if i < |s2| + |s1| then 1 else 2)
    {
      if i < |s2| { assert p[i] == s2[i]; }
      else if i < |s2| + |s1| { assert p[i] == s1[i - |s2|]; }
      else { assert p[i] == s3[i - |s2| - |s1|]; }
    }
  }

  /** With three or more kings, the podium holds at most one king per rank
      among 1, 2 and 3, in the order 2, 1, 3; every other rank is dropped. */
  lemma {:induction false} PodiumOrder(kings: seq<Json>)
    requires |kings| >= 3 && Podium(kings).Success?
    ensures var p := Podium(kings).value;
      && |p| <= 3
      && (forall i | 0 <= i < |p| :: Place(p[i]) < 3 && p[i] in kings)
      && (forall i, j | 0 <= i < j < |p| :: Place(p[i]) < Place(p[j]))
  {
    SlotFacts(kings, 2, 0);
    SlotFacts(kings, 1, 1);
    SlotFacts(kings, 3, 2);
    SlotsInOrder(Slot(FindRank(kings, 2).value), Slot(FindRank(kings, 1).value), Slot(FindRank(kings, 3).value), kings);
  }

  /** A king of each of the ranks 1, 2 and 3 puts all three on the podium. */
  lemma {:induction false} FullPodium(kings: seq<Json>, a: nat, b: nat, c: nat)
    requires |kings| >= 3 && Podium(kings).Success?
    requires a < |kings| && b < |kings| && c < |kings|
    requires Prop(kings[a], "rank") == Some(JNum(2))
    requires Prop(kings[b], "rank") == Some(JNum(1))
    requires Prop(kings[c], "rank") == Some(JNum(3))
    ensures |Podium(kings).value| == 3
  {
    SlotIsFirstOfRank(kings, 2);
    SlotIsFirstOfRank(kings, 1);
    SlotIsFirstOfRank(kings, 3);
  }

  /** Only a null entry can make the podium throw. */
  lemma {:induction false} PodiumOfRecords(kings: seq<Json>)
    requires forall i | 0 <= i < |kings| :: kings[i] != JNull
    ensures Podium(kings).Success?
  {
    if |kings| >= 3 {
      forall n: int ensures FindRank(kings, n).Success? {
        assert forall i | 0 <= i < |kings| :: RankIs(n, kings[i]).Success?;
      }
    }
  }
}
