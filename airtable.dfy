/**
 * The data client for the links table: turning the provider's records
 * into link values (`getFamilyLinks`) and picking the main photo from the
 * first record (`getMainPhoto`). The HTTP request and JSON parsing are not
 * modelled: their outcome arrives as `response`, the parsed `records`
 * array, or None when the request, the parse, or the `records` property
 * failed. Every failure degrades to an empty list or to no photo.
 */
module Airtable {
  import opened Optional

  /** A record's `fields` object; a key that is absent reads as `undefined`. */
  type Fields = map<string, string>

  /** One provider record. `fields` is None when the record carries no `fields` object. */
  datatype Record = Record(id: string, fields: Option<Fields>)

  /** A link as the page consumes it; each field may be `undefined`. */
  datatype Link = Link(id: string, name: Option<string>, url: Option<string>, category: Option<string>)

  /** The main photo: `URL` and `Caption` of the first record. */
  datatype Photo = Photo(url: Option<string>, caption: Option<string>)

  /** `fields[key]`: the value when the key is present, otherwise `undefined`. */
  function Field(fields: Fields, key: string): (v: Option<string>)
    ensures v.Some? <==> key in fields
    ensures v.Some? ==> v.value == fields[key]
  {
    if key in fields then Some(fields[key]) else None
  }

  /** Every record has a `fields` object, so the mapping callback cannot throw. */
  predicate AllHaveFields(records: seq<Record>)
  {
    forall i :: 0 <= i < |records| ==> records[i].fields.Some?
  }

  /** The mapping callback of `getFamilyLinks` on one record. */
  function ToLink(r: Record): Link
    requires r.fields.Some?
  {
    Link(r.id, Field(r.fields.value, "Name"), Field(r.fields.value, "links"), Field(r.fields.value, "category"))
  }

  /** `records.map(ToLink)`. */
  function MapLinks(records: seq<Record>): (links: seq<Link>)
    requires AllHaveFields(records)
    ensures |links| == |records|
    ensures forall i :: 0 <= i < |records| ==> links[i] == ToLink(records[i])
  {
    if records == [] then [] else [ToLink(records[0])] + MapLinks(records[1..])
  }

  /** `getFamilyLinks`: every record projected in order, or `[]` on any failure. */
  function FamilyLinks(response: Option<seq<Record>>): (links: seq<Link>)
    ensures response.None? ==> links == []
    ensures response.Some? && !AllHaveFields(response.value) ==> links == []
    ensures response.Some? && AllHaveFields(response.value) ==> |links| == |response.value|
  {
    if response.Some? && AllHaveFields(response.value) then MapLinks(response.value) else []
  }

  /** Each link carries its record's id and its `Name`, `links` and `category` fields. */
  lemma FamilyLinksProjectFields(records: seq<Record>, i: nat)
    requires AllHaveFields(records) && i < |records|
    ensures |FamilyLinks(Some(records))| == |records|
    ensures FamilyLinks(Some(records))[i].id == records[i].id
    ensures FamilyLinks(Some(records))[i].name == Field(records[i].fields.value, "Name")
    ensures FamilyLinks(Some(records))[i].url == Field(records[i].fields.value, "links")
    ensures FamilyLinks(Some(records))[i].category == Field(records[i].fields.value, "category")
  {
  }

  /** The projection keeps order: the links of two record runs are the links of each, in turn. */
  lemma FamilyLinksConcat(a: seq<Record>, b: seq<Record>)
    requires AllHaveFields(a) && AllHaveFields(b)
    ensures AllHaveFields(a + b)
    ensures FamilyLinks(Some(a + b)) == FamilyLinks(Some(a)) + FamilyLinks(Some(b))
  {
    forall i | 0 <= i < |a + b| ensures (a + b)[i].fields.Some? {
      if i < |a| { assert (a + b)[i] == a[i]; } else { assert (a + b)[i] == b[i - |a|]; }
    }
    var whole, left, right := MapLinks(a + b), MapLinks(a), MapLinks(b);
    forall i | 0 <= i < |whole| ensures whole[i] == (left + right)[i] {
      if i < |a| { assert (a + b)[i] == a[i]; } else { assert (a + b)[i] == b[i - |a|]; }
    }
    assert whole == left + right;
  }

  /** `getMainPhoto`: `URL` and `Caption` of the first record, or no photo on an empty table or any failure. */
  function MainPhoto(response: Option<seq<Record>>): (photo: Option<Photo>)
    ensures response.None? ==> photo == None
    ensures response.Some? && |response.value| == 0 ==> photo == None
    ensures response.Some? && |response.value| > 0 && response.value[0].fields.None? ==> photo == None
    ensures photo.Some? ==>
      && response.Some? && |response.value| > 0 && response.value[0].fields.Some?
      && photo.value.url == Field(response.value[0].fields.value, "URL")
      && photo.value.caption == Field(response.value[0].fields.value, "Caption")
  {
    match response
    case None => None
    case Some(records) =>
      if |records| > 0 then
        match records[0].fields
        case None => None
        case Some(f) => Some(Photo(Field(f, "URL"), Field(f, "Caption")))
      else None
  }

  /** Only the first record matters: whatever follows it does not change the photo. */
  lemma MainPhotoFirstRecordOnly(first: Record, rest: seq<Record>)
    ensures MainPhoto(Some([first] + rest)) == MainPhoto(Some([first]))
    ensures first.fields.Some? ==> MainPhoto(Some([first] + rest)).Some?
  {
  }
}
