/**
 * The original four-condition score, `calculateRiskScore(guest)` of index.js
 * (lines 7-14). It reads the guest object as it arrives, with camelCase
 * fields, and JavaScript comparisons: a missing count compares false, so it
 * adds nothing.
 */
module BookingScore {
  import opened Wrappers
  import opened JsValues

  /** The term of each condition. */
  function ReviewsTerm(g: Raw): int { if LessThan(Prop(g, "reviewCount"), 2) then 40 else 0 }
  function NegativeTerm(g: Raw): int { if Truthy(Prop(g, "hasNegativeReviews")) then 50 else 0 }
  function TripsTerm(g: Raw): int { if LessThan(Prop(g, "tripCount"), 2) then 20 else 0 }
  function PictureTerm(g: Raw): int { if !Truthy(Prop(g, "profilePicture")) then 10 else 0 }

  /** The score: 40·[reviewCount < 2] + 50·[hasNegativeReviews] + 20·[tripCount < 2] + 10·[!profilePicture]. */
  function Score(g: Raw): int {
    ReviewsTerm(g) + NegativeTerm(g) + TripsTerm(g) + PictureTerm(g)
  }

  /** `calculateRiskScore(guest)`: reading a field of `null` or `undefined` throws. */
  method CalculateRiskScore(guest: Raw) returns (r: Result<int, Thrown>)
    ensures r.Failure? <==> Nullish(guest)
    ensures r.Success? ==> r.value == Score(guest)
  {
    if Nullish(guest) {
      return Failure(TypeError);
    }
    var score := 0;
    if LessThan(Prop(guest, "reviewCount"), 2) {
      score := score + 40;
    }
    if Truthy(Prop(guest, "hasNegativeReviews")) {
      score := score + 50;
    }
    if LessThan(Prop(guest, "tripCount"), 2) {
      score := score + 20;
    }
    if !Truthy(Prop(guest, "profilePicture")) {
      score := score + 10;
    }
    r := Success(score);
  }

  /** The score lies in 0..120 and is a multiple of 10. */
  lemma ScoreRange(g: Raw)
    ensures 0 <= Score(g) <= 120
    ensures Score(g) % 10 == 0
  {
    var a, b, c, d := ReviewsTerm(g), NegativeTerm(g), TripsTerm(g), PictureTerm(g);
    assert Score(g) == a + b + c + d;
    TermsInTens(a, b, c, d);
  }

  lemma TermsInTens(a: int, b: int, c: int, d: int)
    requires (a == 0 || a == 40) && (b == 0 || b == 50) && (c == 0 || c == 20) && (d == 0 || d == 10)
    ensures 0 <= a + b + c + d <= 120 && (a + b + c + d) % 10 == 0
  {
    assert a + b + c + d == 10 * (a / 10 + b / 10 + c / 10 + d / 10);
  }

  /** An established guest with a picture and no negative reviews scores 0. */
  lemma EstablishedGuestScoresZero(reviews: int, trips: int)
    requires reviews >= 2 && trips >= 2
    ensures Score(Obj(map["reviewCount" := Num(reviews), "tripCount" := Num(trips),
                          "hasNegativeReviews" := Bool(false), "profilePicture" := Bool(true)])) == 0
  {
  }

  /** A brand-new guest with negative reviews and no picture scores the maximum. */
  lemma WorstGuestScores120()
    ensures Score(Obj(map["reviewCount" := Num(0), "tripCount" := Num(0),
                          "hasNegativeReviews" := Bool(true), "profilePicture" := Bool(false)])) == 120
  {
  }

  /** Missing counts compare false, so an empty object only lacks a picture. */
  lemma EmptyGuest()
    ensures Score(Obj(map[])) == 10
  {
  }

  /** Each condition reads only its own field: changing one field changes only its own term. */
  lemma TermsIndependent(g: map<string, Raw>, key: string, v: Raw)
    ensures key != "reviewCount" ==> ReviewsTerm(Obj(g[key := v])) == ReviewsTerm(Obj(g))
    ensures key != "hasNegativeReviews" ==> NegativeTerm(Obj(g[key := v])) == NegativeTerm(Obj(g))
    ensures key != "tripCount" ==> TripsTerm(Obj(g[key := v])) == TripsTerm(Obj(g))
    ensures key != "profilePicture" ==> PictureTerm(Obj(g[key := v])) == PictureTerm(Obj(g))
  {
  }
}
