/**
 * `normalizeGuest(reservation)` of utils/normalizeGuest.ts and its CommonJS
 * twin utils/normalizeGuest.js, which compute the same record. Unlike the
 * normaliser of getReservationDetails.ts, it reads the camelCase counts
 * `reviewCount`, `tripCount` and `hasNegativeReviews` from the payload and
 * passes them through as they are, so they stay JavaScript values.
 */
module LegacyNormalize {
  import opened Wrappers
  import opened JsValues
  import opened GuestFields

  datatype LegacyGuest = LegacyGuest(
    id: Raw,
    name: string,
    reviewCount: Raw,
    tripCount: Raw,
    hasNegativeReviews: Raw,
    profilePicture: bool,
    phoneNumbers: seq<Raw>,
    email: Option<string>,
    location: Option<string>,
    language: Option<string>)

  /** `reservation?.guest || {}` */
  function GuestSource(reservation: Raw): (raw: Raw)
    ensures Truthy(Prop(reservation, "guest")) ==> raw == Prop(reservation, "guest")
    ensures !Truthy(Prop(reservation, "guest")) ==> raw == Obj(map[])
  {
    OrElse(Prop(reservation, "guest"), Obj(map[]))
  }

  /** `normalizeGuest(reservation)`; it never throws, whatever the payload. */
  function NormalizeGuest(reservation: Raw): LegacyGuest {
    var raw := GuestSource(reservation);
    LegacyGuest(
      id := Coalesce(Prop(raw, "id"), Null),
      name := DisplayName(Prop(raw, "first_name"), Prop(raw, "last_name")),
      reviewCount := Coalesce(Prop(raw, "reviewCount"), Num(0)),
      tripCount := Coalesce(Prop(raw, "tripCount"), Num(0)),
      hasNegativeReviews := Coalesce(Prop(raw, "hasNegativeReviews"), Bool(false)),
      profilePicture := NonBlankString(Prop(raw, "profile_picture")),
      phoneNumbers := ListOrEmpty(Prop(raw, "phone_numbers")),
      email := StringWithContent(Prop(raw, "email")),
      location := StringWithContent(Prop(raw, "location")),
      language := StringOrNull(Prop(raw, "language")))
  }

  /** The field-by-field promises of the normaliser. */
  lemma NormalizeGuestFields(reservation: Raw)
    ensures var raw, g := GuestSource(reservation), NormalizeGuest(reservation);
      && (g.email.Some? <==> Prop(raw, "email").Str? && HasContent(Prop(raw, "email").s))
      && (g.email.Some? ==> g.email.value == Prop(raw, "email").s)
      && (g.location.Some? <==> Prop(raw, "location").Str? && HasContent(Prop(raw, "location").s))
      && (g.location.Some? ==> g.location.value == Prop(raw, "location").s)
      && (g.profilePicture <==> Prop(raw, "profile_picture").Str? && HasContent(Prop(raw, "profile_picture").s))
      && (Prop(raw, "phone_numbers").List? ==> g.phoneNumbers == Prop(raw, "phone_numbers").items)
      && (!Prop(raw, "phone_numbers").List? ==> g.phoneNumbers == [])
      && (g.name == [] || (!IsWhitespace(g.name[0]) && !IsWhitespace(g.name[|g.name| - 1])))
  {
  }

  /** The counts default only when absent: a present value, 0 and false included, passes through. */
  lemma CountsPassThrough(reservation: Raw)
    ensures var raw, g := GuestSource(reservation), NormalizeGuest(reservation);
      && (Nullish(Prop(raw, "reviewCount")) ==> g.reviewCount == Num(0))
      && (!Nullish(Prop(raw, "reviewCount")) ==> g.reviewCount == Prop(raw, "reviewCount"))
      && (Nullish(Prop(raw, "tripCount")) ==> g.tripCount == Num(0))
      && (!Nullish(Prop(raw, "tripCount")) ==> g.tripCount == Prop(raw, "tripCount"))
      && (Nullish(Prop(raw, "hasNegativeReviews")) ==> g.hasNegativeReviews == Bool(false))
      && (!Nullish(Prop(raw, "hasNegativeReviews")) ==> g.hasNegativeReviews == Prop(raw, "hasNegativeReviews"))
  {
  }

  /** The guest every payload without guest data gets. */
  const DefaultGuest := LegacyGuest(Null, "", Num(0), Num(0), Bool(false), false, [], None, None, None)

  /** A missing reservation, or one whose guest is missing or falsy, normalises to the defaults. */
  lemma MissingGuestDefaults(reservation: Raw)
    requires !Truthy(Prop(reservation, "guest"))
    ensures NormalizeGuest(reservation) == DefaultGuest
  {
    DisplayNameOfMissing(Undefined, Undefined);
  }

  /** In particular `normalizeGuest(null)` and `normalizeGuest({})` never throw and give the defaults. */
  lemma NoPayloadDefaults()
    ensures NormalizeGuest(Null) == DefaultGuest
    ensures NormalizeGuest(Undefined) == DefaultGuest
    ensures NormalizeGuest(Obj(map[])) == DefaultGuest
    ensures NormalizeGuest(Obj(map["guest" := Null])) == DefaultGuest
  {
    MissingGuestDefaults(Null);
    MissingGuestDefaults(Undefined);
    MissingGuestDefaults(Obj(map[]));
    MissingGuestDefaults(Obj(map["guest" := Null]));
  }
}
