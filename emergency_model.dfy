/** The Emergency collection: the fields of `emergencySchema`, what its
    validators accept, and the document a successful save stores. */
module EmergencyModel {
  import opened JsValues

  /** The object handed to `new Emergency({...})`: a field the handler did
      not set is `None`. */
  datatype Draft = Draft(
    userId: Option<UserId>,
    receiverId: Option<UserId>,
    text: Option<string>,
    latitude: Option<Coord>,
    longitude: Option<Coord>,
    address: Option<string>,
    timestamp: Option<int>,
    audioBlob: Option<Blob>)

  /** A stored document. `createdAt` and `updatedAt` are the store-managed
      fields that `timestamps: true` adds. */
  datatype Document = Document(
    userId: UserId,
    receiverId: UserId,
    text: string,
    latitude: Coord,
    longitude: Coord,
    address: Option<string>,
    timestamp: int,
    audioBlob: Option<Blob>,
    createdAt: int,
    updatedAt: int)

  /** The `required` validator on a string (or id) field: present and non-empty. */
  predicate RequiredString(s: Option<string>) {
    s.Some? && s.value != ""
  }

  /** The `required` validator on a number field: present; 0 passes. */
  predicate RequiredNumber(n: Option<int>) {
    n.Some?
  }

  /** Validation passes: userId, receiverId, text, latitude and longitude are
      required; address, timestamp and audioBlob are optional. */
  predicate Accepts(d: Draft)
    ensures Accepts(d) ==> d.userId.Some? && d.receiverId.Some? && d.text.Some?
    ensures Accepts(d) ==> d.latitude.Some? && d.longitude.Some?
    ensures d.text == Some("") ==> !Accepts(d)
  {
    && RequiredString(d.userId)
    && RequiredString(d.receiverId)
    && RequiredString(d.text)
    && RequiredNumber(d.latitude)
    && RequiredNumber(d.longitude)
  }

  /** address, timestamp and audioBlob are optional: they never decide acceptance. */
  lemma OptionalFieldsNeverDecide(d: Draft, address: Option<string>, timestamp: Option<int>, audioBlob: Option<Blob>)
    ensures Accepts(d) <==> Accepts(d.(address := address, timestamp := timestamp, audioBlob := audioBlob))
  {
  }

  /** What every stored document satisfies. */
  predicate WellFormed(doc: Document) {
    doc.userId != "" && doc.receiverId != "" && doc.text != ""
  }

  /** The fields of a document as they would be handed to `new Emergency`. */
  function AsDraft(doc: Document): Draft {
    Draft(Some(doc.userId), Some(doc.receiverId), Some(doc.text),
          Some(doc.latitude), Some(doc.longitude), doc.address,
          Some(doc.timestamp), doc.audioBlob)
  }

  /** The document an accepted draft becomes. Mongoose fills the `timestamp`
      default when `new Emergency` builds the document and sets `createdAt`
      and `updatedAt` at `save()`; each handler runs as one atomic step, so
      both instants are `now`. */
  function ToDocument(d: Draft, now: int): (doc: Document)
    requires Accepts(d)
    ensures WellFormed(doc)
    ensures AsDraft(doc) == d.(timestamp := Some(d.timestamp.GetOr(now)))
    ensures d.timestamp.None? ==> doc.timestamp == now
    ensures doc.createdAt == now && doc.updatedAt == now
  {
    Document(d.userId.value, d.receiverId.value, d.text.value,
             d.latitude.value, d.longitude.value, d.address,
             d.timestamp.GetOr(now), d.audioBlob, now, now)
  }

  /** `await doc.save()`: fails on validation, or when the database (or the
      ObjectId/Number/Date casting this model does not see) reports an
      error, which `dbOk == false` stands for. */
  function SaveOutcome(d: Draft, dbOk: bool, now: int): (r: Option<Document>)
    ensures r.Some? <==> Accepts(d) && dbOk
    ensures r.Some? ==> WellFormed(r.value) && AsDraft(r.value) == d.(timestamp := Some(d.timestamp.GetOr(now)))
    ensures r.Some? ==> r.value.createdAt == now && r.value.updatedAt == now
  {
    if Accepts(d) && dbOk then Some(ToDocument(d, now)) else None
  }

  /** Every stored document would pass validation again, and saving its own
      fields at its creation time rebuilds it. */
  lemma ResaveRebuilds(doc: Document)
    requires WellFormed(doc) && doc.updatedAt == doc.createdAt
    ensures Accepts(AsDraft(doc))
    ensures ToDocument(AsDraft(doc), doc.createdAt) == doc
  {
  }
}
