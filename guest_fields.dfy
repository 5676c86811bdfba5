/**
 * The field conversions that every guest normaliser of the repository applies
 * to a raw guest object (normalizeGuest in utils/normalizeGuest.ts and .js and
 * in services/getReservationDetails.ts all write the same expressions).
 */
module GuestFields {
  import opened Wrappers
  import opened JsValues

  /** The string holds a character that `trim` keeps. */
  ghost predicate HasContent(s: string) {
    exists i :: 0 <= i < |s| && !IsWhitespace(s[i])
  }

  /** `typeof v === 'string' && v.trim() !== ''` */
  predicate NonBlankString(v: Raw)
    ensures NonBlankString(v) <==> v.Str? && HasContent(v.s)
  {
    TrimEmptyIff(if v.Str? then v.s else "");
    v.Str? && Trim(v.s) != ""
  }

  /** `typeof v === 'string' && v.trim() !== '' ? v : null` (email and location). */
  function StringWithContent(v: Raw): (r: Option<string>)
    ensures r.Some? <==> v.Str? && HasContent(v.s)
    ensures r.Some? ==> r.value == v.s
  {
    if NonBlankString(v) then Some(v.s) else None
  }

  /** `typeof v === 'string' ? v : null` (language: kept even when blank). */
  function StringOrNull(v: Raw): (r: Option<string>)
    ensures r.Some? <==> v.Str?
    ensures r.Some? ==> r.value == v.s
  {
    if v.Str? then Some(v.s) else None
  }

  /** `Array.isArray(v) ? v : []` */
  function ListOrEmpty(v: Raw): (r: seq<Raw>)
    ensures v.List? ==> r == v.items
    ensures !v.List? ==> r == []
  {
    if v.List? then v.items else []
  }

  /** `` `${first || ''} ${last || ''}`.trim() `` */
  function DisplayName(first: Raw, last: Raw): (r: string)
    ensures r == [] || (!IsWhitespace(r[0]) && !IsWhitespace(r[|r| - 1]))
  {
    Trim(TextOr(first) + " " + TextOr(last))
  }

  /** The display name never carries the separator alone: two missing names give "". */
  lemma DisplayNameOfMissing(first: Raw, last: Raw)
    requires !Truthy(first) && !Truthy(last)
    ensures DisplayName(first, last) == ""
  {
    TrimEmptyIff(" ");
  }

  /** First and last name are joined by a single space. */
  lemma DisplayNameExample()
    ensures DisplayName(Str("Test"), Str("Guest")) == "Test Guest"
  {
    var s := "Test Guest";
    assert LeadingSpace(s) == 0;
    assert TrailingSpace(s) == 0;
  }

  /** With only a first name, the trailing separator is trimmed away. */
  lemma DisplayNameFirstOnly(first: string)
    requires first != [] && !IsWhitespace(first[|first| - 1]) && !IsWhitespace(first[0])
    ensures DisplayName(Str(first), Null) == first
  {
    var s := first + " ";
    assert TextOr(Str(first)) + " " + TextOr(Null) == s;
    assert s[..|s| - 1] == first;
    assert TrailingSpace(s) == 1;
    assert LeadingSpace(s) == 0;
    assert s[0..][..|s| - 1] == first;
  }
}
