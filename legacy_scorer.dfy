/**
 * The legacy accumulator `calculateRiskScore(reservation)` of
 * scoring/riskScorer.js: seven fixed-weight checks on the guest that
 * utils/normalizeGuest.js produces, a list of rationale lines, and the level
 * of scoring/riskLevel.js.
 */
module LegacyScorer {
  import opened Wrappers
  import opened JsValues
  import opened RiskLevels
  import opened Rules
  import opened LegacyNormalize

  datatype LegacyReport = LegacyReport(score: int, level: RiskLevel, rationale: seq<string>)

  /** One check of the scorer: whether it holds, its weight and its rationale line. */
  datatype Check = Check(holds: bool, weight: int, line: string)

  const LocationLine := "Guest does not have a location defined."
  const PictureLine := "Guest does not have a profile picture."
  const EmailLine := "Guest does not have an e-mail."
  const PhoneLine := "Guest does not have a phone number."
  const ReviewsLine := "Guest does not have any reviews."
  const TripsLine := "Guest does not have any trips."
  const NegativeLine := "Guest has negative reviews."

  /** The seven checks, in the scorer's order, with the weights 10, 10, 15, 15, 30, 10, 40. */
  function Checks(g: LegacyGuest): (cs: seq<Check>)
    ensures |cs| == 7
  {
    [Check(Falsy(g.location), 10, LocationLine),
     Check(!g.profilePicture, 10, PictureLine),
     Check(Falsy(g.email), 15, EmailLine),
     Check(|g.phoneNumbers| == 0, 15, PhoneLine),
     Check(GreaterThan(g.tripCount, 0) && IsZero(g.reviewCount), 30, ReviewsLine),
     Check(IsZero(g.tripCount), 10, TripsLine),
     Check(Truthy(g.hasNegativeReviews), 40, NegativeLine)]
  }

  /** The sum of the weights of the checks that hold. */
  function Score(cs: seq<Check>): int {
    if cs == [] then 0 else Score(cs[..|cs| - 1]) + (if cs[|cs| - 1].holds then cs[|cs| - 1].weight else 0)
  }

  /** The lines of the checks that hold, in order. */
  function Lines(cs: seq<Check>): seq<string> {
    if cs == [] then [] else Lines(cs[..|cs| - 1]) + (if cs[|cs| - 1].holds then [cs[|cs| - 1].line] else [])
  }

  /** How many checks hold. */
  function Held(cs: seq<Check>): nat {
    if cs == [] then 0 else Held(cs[..|cs| - 1]) + (if cs[|cs| - 1].holds then 1 else 0)
  }

  /** The report the scorer promises for a normalised guest. */
  function Expected(g: LegacyGuest): LegacyReport {
    var cs := Checks(g);
    LegacyReport(Score(cs), GetRiskLevelJs(Score(cs)), Lines(cs))
  }

  lemma PrefixStep(cs: seq<Check>, k: nat)
    requires k < |cs|
    ensures Score(cs[..k + 1]) == Score(cs[..k]) + Points(cs[k])
    ensures Lines(cs[..k + 1]) == Lines(cs[..k]) + Line(cs[k])
  {
    assert cs[..k + 1][..k] == cs[..k];
  }

  /**
   * `calculateRiskScore(reservation)`. The object `normalizeGuest` returns is
   * always truthy, so the `if (guest)` around the checks always enters.
   */
  method CalculateRiskScore(reservation: Raw) returns (report: LegacyReport)
    ensures report == Expected(NormalizeGuest(reservation))
  {
    var guest := NormalizeGuest(reservation);
    report := ScoreGuest(guest);
  }

  /** What a check adds to the score. */
  function Points(c: Check): int {
    if c.holds then c.weight else 0
  }

  /** What a check adds to the rationale. */
  function Line(c: Check): seq<string> {
    if c.holds then [c.line] else []
  }

  /**
   * One `if (condition) { score += weight; rationale.push(line); }` block of
   * riskScorer.js.
   */
  method Apply(c: Check, score: int, rationale: seq<string>) returns (score': int, rationale': seq<string>)
    ensures score' == score + Points(c) && rationale' == rationale + Line(c)
  {
    score', rationale' := score, rationale;
    if c.holds {
      score' := score' + c.weight;
      rationale' := rationale' + [c.line];
    }
  }

  /** Lines 18-53 of riskScorer.js, on the normalised guest: the seven blocks in order. */
  method ScoreGuest(guest: LegacyGuest) returns (report: LegacyReport)
    ensures report == Expected(guest)
  {
    var score := 0;
    var rationale: seq<string> := [];
    score, rationale := Apply(Check(Falsy(guest.location), 10, LocationLine), score, rationale);
    score, rationale := Apply(Check(!guest.profilePicture, 10, PictureLine), score, rationale);
    score, rationale := Apply(Check(Falsy(guest.email), 15, EmailLine), score, rationale);
    score, rationale := Apply(Check(|guest.phoneNumbers| == 0, 15, PhoneLine), score, rationale);
    score, rationale := Apply(Check(GreaterThan(guest.tripCount, 0) && IsZero(guest.reviewCount), 30, ReviewsLine), score, rationale);
    score, rationale := Apply(Check(IsZero(guest.tripCount), 10, TripsLine), score, rationale);
    score, rationale := Apply(Check(Truthy(guest.hasNegativeReviews), 40, NegativeLine), score, rationale);
    ghost var cs := Checks(guest);
    assert score == Points(cs[0]) + Points(cs[1]) + Points(cs[2]) + Points(cs[3]) + Points(cs[4]) + Points(cs[5]) + Points(cs[6]);
    assert rationale == Line(cs[0]) + Line(cs[1]) + Line(cs[2]) + Line(cs[3]) + Line(cs[4]) + Line(cs[5]) + Line(cs[6]) by {
      assert [] + Line(cs[0]) == Line(cs[0]);
    }
    var level := GetRiskLevelJs(score);
    report := LegacyReport(score, level, rationale);
    ExpectedTerms(guest);
  }

  /** The expected report, check by check. */
  lemma ExpectedTerms(g: LegacyGuest)
    ensures var cs := Checks(g);
      var score := Points(cs[0]) + Points(cs[1]) + Points(cs[2]) + Points(cs[3]) + Points(cs[4]) + Points(cs[5]) + Points(cs[6]);
      Expected(g) == LegacyReport(score, GetRiskLevelJs(score), Line(cs[0]) + Line(cs[1]) + Line(cs[2]) + Line(cs[3]) + Line(cs[4]) + Line(cs[5]) + Line(cs[6]))
  {
    ScoreTerms(g);
    LinesTerms(g);
  }

  /** The score as the sum of the seven weighted conditions. */
  lemma ScoreTerms(g: LegacyGuest)
    ensures var cs := Checks(g);
      Score(cs) == Points(cs[0]) + Points(cs[1]) + Points(cs[2]) + Points(cs[3])
                 + Points(cs[4]) + Points(cs[5]) + Points(cs[6])
  {
    SevenScores(Checks(g));
  }

  lemma SevenScores(cs: seq<Check>)
    requires |cs| == 7
    ensures Score(cs) == Points(cs[0]) + Points(cs[1]) + Points(cs[2]) + Points(cs[3])
                       + Points(cs[4]) + Points(cs[5]) + Points(cs[6])
  {
    assert Score(cs[..1]) == Points(cs[0]) by {
      assert cs[..0] == [];
      PrefixStep(cs, 0);
    }
    assert Score(cs[..2]) == Points(cs[0]) + Points(cs[1]) by { PrefixStep(cs, 1); }
    assert Score(cs[..3]) == Points(cs[0]) + Points(cs[1]) + Points(cs[2]) by { PrefixStep(cs, 2); }
    assert Score(cs[..4]) == Points(cs[0]) + Points(cs[1]) + Points(cs[2]) + Points(cs[3]) by { PrefixStep(cs, 3); }
    assert Score(cs[..5]) == Points(cs[0]) + Points(cs[1]) + Points(cs[2]) + Points(cs[3]) + Points(cs[4]) by { PrefixStep(cs, 4); }
    assert Score(cs[..6]) == Points(cs[0]) + Points(cs[1]) + Points(cs[2]) + Points(cs[3]) + Points(cs[4]) + Points(cs[5]) by { PrefixStep(cs, 5); }
    assert Score(cs[..7]) == Points(cs[0]) + Points(cs[1]) + Points(cs[2]) + Points(cs[3]) + Points(cs[4]) + Points(cs[5]) + Points(cs[6]) by { PrefixStep(cs, 6); }
    assert cs[..7] == cs;
  }

  /** The rationale as the seven conditional lines. */
  lemma LinesTerms(g: LegacyGuest)
    ensures var cs := Checks(g);
      Lines(cs) == Line(cs[0]) + Line(cs[1]) + Line(cs[2]) + Line(cs[3])
                 + Line(cs[4]) + Line(cs[5]) + Line(cs[6])
  {
    SevenLines(Checks(g));
  }

  lemma SevenLines(cs: seq<Check>)
    requires |cs| == 7
    ensures Lines(cs) == Line(cs[0]) + Line(cs[1]) + Line(cs[2]) + Line(cs[3])
                       + Line(cs[4]) + Line(cs[5]) + Line(cs[6])
  {
    assert Lines(cs[..1]) == Line(cs[0]) by {
      assert cs[..0] == [];
      PrefixStep(cs, 0);
      assert [] + Line(cs[0]) == Line(cs[0]);
    }
    LinesStep(cs, 1, Line(cs[0]));
    LinesStep(cs, 2, Line(cs[0]) + Line(cs[1]));
    LinesStep(cs, 3, Line(cs[0]) + Line(cs[1]) + Line(cs[2]));
    LinesStep(cs, 4, Line(cs[0]) + Line(cs[1]) + Line(cs[2]) + Line(cs[3]));
    LinesStep(cs, 5, Line(cs[0]) + Line(cs[1]) + Line(cs[2]) + Line(cs[3]) + Line(cs[4]));
    LinesStep(cs, 6, Line(cs[0]) + Line(cs[1]) + Line(cs[2]) + Line(cs[3]) + Line(cs[4]) + Line(cs[5]));
    assert cs[..7] == cs;
  }

  lemma LinesStep(cs: seq<Check>, k: nat, acc: seq<string>)
    requires k < |cs| && Lines(cs[..k]) == acc
    ensures Lines(cs[..k + 1]) == acc + Line(cs[k])
  {
    PrefixStep(cs, k);
  }

  /**
   * The score lies in 0..120, inside the 0..130 the weights allow, because
   * no-reviews and no-trips exclude each other.
   */
  lemma ScoreBounds(reservation: Raw)
    ensures 0 <= Expected(NormalizeGuest(reservation)).score <= 120
  {
    var g := NormalizeGuest(reservation);
    ScoreTerms(g);
    assert !(GreaterThan(g.tripCount, 0) && IsZero(g.tripCount));
  }

  /** One rationale line per check that holds, and the level always follows the 30 / 60 bands. */
  lemma {:induction false} LinesPerCheck(cs: seq<Check>)
    ensures |Lines(cs)| == Held(cs)
    ensures forall l :: l in Lines(cs) ==> exists i :: 0 <= i < |cs| && cs[i].holds && cs[i].line == l
  {
    if cs != [] {
      var n := |cs| - 1;
      LinesPerCheck(cs[..n]);
      forall l | l in Lines(cs) ensures exists i :: 0 <= i < |cs| && cs[i].holds && cs[i].line == l {
        if l in Lines(cs[..n]) {
          var i :| 0 <= i < n && cs[..n][i].holds && cs[..n][i].line == l;
          assert cs[i] == cs[..n][i];
        } else {
          assert cs[n].holds && cs[n].line == l;
        }
      }
    }
  }

  /** The level is riskLevel.js's, which is the 30 / 60 classification. */
  lemma LevelIsDefaultBands(reservation: Raw)
    ensures var r := Expected(NormalizeGuest(reservation));
      r.level == Level(r.score, 30, 60)
  {
    var r := Expected(NormalizeGuest(reservation));
    JsAgreesWithTs(r.score);
    GetRiskLevelIsDefaultLevel(r.score);
  }

  /** A reservation without guest data: five checks hold, for 60 points, high. */
  lemma NoGuestData(reservation: Raw)
    requires !Truthy(Prop(reservation, "guest"))
    ensures Expected(NormalizeGuest(reservation))
         == LegacyReport(60, High, [LocationLine, PictureLine, EmailLine, PhoneLine, TripsLine])
  {
    MissingGuestDefaults(reservation);
    ExpectedTerms(DefaultGuest);
  }
}
