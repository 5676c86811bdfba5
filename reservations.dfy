/**
 * The normalised guest and reservation shapes that the scoring engine reads,
 * and the normalisers of services/getReservationDetails.ts that build them
 * from a reservation payload of the booking platform.
 *
 * Field names follow Dafny style; the source's snake_case keys are
 * review_count -> reviewCount, trip_count -> tripCount,
 * has_negative_reviews -> hasNegativeReviews, profile_picture -> profilePicture,
 * phone_numbers -> phoneNumbers.
 */
module Reservations {
  import opened Wrappers
  import opened JsValues
  import opened GuestFields

  /** The normalised guest (`NormalizedGuest` of getReservationDetails.ts). */
  datatype Guest = Guest(
    id: Raw,
    name: string,
    reviewCount: int,
    tripCount: int,
    hasNegativeReviews: bool,
    profilePicture: bool,
    phoneNumbers: seq<Raw>,
    email: Option<string>,
    location: Option<string>,
    language: Option<string>)

  datatype RiskFactors = RiskFactors(reviewCount: int, tripCount: int, hasNegativeReviews: bool)

  /**
   * A normalised reservation: the payload's other fields, kept as they were
   * (booking metadata the engine does not look at), the normalised guest and
   * the optional risk factors.
   */
  datatype NormalizedReservation = NormalizedReservation(
    fields: map<string, Raw>,
    guest: Guest,
    riskFactors: Option<RiskFactors>)

  /**
   * `normalizeGuest(raw)`: reading `raw.id` throws when the payload's guest is
   * null or undefined. Review and trip data are not available from the
   * platform, so the counts are always 0 and the flag false.
   */
  function NormalizeGuest(raw: Raw): (r: Result<Guest, Thrown>)
    ensures r.Failure? <==> Nullish(raw)
    ensures r.Success? ==> r.value.reviewCount == 0 && r.value.tripCount == 0 && !r.value.hasNegativeReviews
  {
    if Nullish(raw) then Failure(TypeError)
    else
      Success(Guest(
        id := Coalesce(Prop(raw, "id"), Null),
        name := DisplayName(Prop(raw, "first_name"), Prop(raw, "last_name")),
        reviewCount := 0,
        tripCount := 0,
        hasNegativeReviews := false,
        profilePicture := NonBlankString(Prop(raw, "profile_picture")),
        phoneNumbers := ListOrEmpty(Prop(raw, "phone_numbers")),
        email := StringWithContent(Prop(raw, "email")),
        location := StringWithContent(Prop(raw, "location")),
        language := StringOrNull(Prop(raw, "language"))))
  }

  /** What the normaliser keeps of each contact field of a guest object. */
  lemma NormalizeGuestFields(raw: Raw)
    requires !Nullish(raw)
    ensures var g := NormalizeGuest(raw).value;
      && (g.email.Some? <==> Prop(raw, "email").Str? && HasContent(Prop(raw, "email").s))
      && (g.email.Some? ==> g.email.value == Prop(raw, "email").s)
      && (g.location.Some? <==> Prop(raw, "location").Str? && HasContent(Prop(raw, "location").s))
      && (g.location.Some? ==> g.location.value == Prop(raw, "location").s)
      && (g.profilePicture <==> Prop(raw, "profile_picture").Str? && HasContent(Prop(raw, "profile_picture").s))
      && (Prop(raw, "phone_numbers").List? ==> g.phoneNumbers == Prop(raw, "phone_numbers").items)
      && (!Prop(raw, "phone_numbers").List? ==> g.phoneNumbers == [])
      && !g.id.Undefined?
      && (g.name == [] || (!IsWhitespace(g.name[0]) && !IsWhitespace(g.name[|g.name| - 1])))
  {
  }

  /** A null picture becomes `false`, as the payload of getReservationDetails.test.ts shows. */
  lemma NormalizeGuestExample()
    ensures var raw := Obj(map["id" := Str("123"), "first_name" := Str("Test"), "last_name" := Str("Guest"),
                               "language" := Str("en"), "phone_numbers" := List([]), "location" := Null,
                               "profile_picture" := Null, "email" := Null]);
      NormalizeGuest(raw) == Success(Guest(Str("123"), "Test Guest", 0, 0, false, false, [], None, None, Some("en")))
  {
    var raw := Obj(map["id" := Str("123"), "first_name" := Str("Test"), "last_name" := Str("Guest"),
                       "language" := Str("en"), "phone_numbers" := List([]), "location" := Null,
                       "profile_picture" := Null, "email" := Null]);
    assert Prop(raw, "id") == Str("123");
    assert Prop(raw, "first_name") == Str("Test") && Prop(raw, "last_name") == Str("Guest");
    assert Prop(raw, "language") == Str("en") && Prop(raw, "phone_numbers") == List([]);
    assert Prop(raw, "location") == Null && Prop(raw, "profile_picture") == Null && Prop(raw, "email") == Null;
    DisplayNameExample();
  }

  /**
   * `normalizeReservation(response)`: every field but `guest` is passed
   * through, the guest is normalised and `risk_factors` is rebuilt from the
   * normalised guest (an incoming `risk_factors` key is overwritten).
   */
  function NormalizeReservation(response: map<string, Raw>): (r: Result<NormalizedReservation, Thrown>)
    ensures var raw := if "guest" in response then response["guest"] else Undefined;
      && (r.Failure? <==> Nullish(raw))
      && (r.Success? ==>
            && Success(r.value.guest) == NormalizeGuest(raw)
            && r.value.fields.Keys == response.Keys - {"guest", "risk_factors"}
            && (forall k :: k in r.value.fields ==> r.value.fields[k] == response[k])
            && r.value.riskFactors == Some(RiskFactors(r.value.guest.reviewCount, r.value.guest.tripCount,
                                                       r.value.guest.hasNegativeReviews))
            && r.value.riskFactors == Some(RiskFactors(0, 0, false)))
  {
    var raw := if "guest" in response then response["guest"] else Undefined;
    match NormalizeGuest(raw)
    case Failure(e) => Failure(e)
    case Success(g) =>
      var rest := map k | k in response && k != "guest" && k != "risk_factors" :: response[k];
      Success(NormalizedReservation(rest, g, Some(RiskFactors(g.reviewCount, g.tripCount, g.hasNegativeReviews))))
  }
}
