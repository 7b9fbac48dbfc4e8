/**
 * The `Message` collection's schema: `content` and `user` are required strings,
 * `type` is one of text, image or audio and defaults to text, and every document
 * is stamped with `createdAt` and `updatedAt` when it is created.
 */
module MessageSchema {
  import opened Wrappers

  datatype Kind = Text | Image | Audio

  /** The value stored in a document's `type` field. */
  function KindName(k: Kind): string {
    match k
    case Text => "text"
    case Image => "image"
    case Audio => "audio"
  }

  /** The `type` enum: which stored names denote a kind. */
  function KindOf(name: string): (r: Option<Kind>)
    ensures r.Some? <==> (name == "text" || name == "image" || name == "audio")
    ensures r.Some? ==> KindName(r.value) == name
  {
    if name == "text" then Some(Text)
    else if name == "image" then Some(Image)
    else if name == "audio" then Some(Audio)
    else None
  }

  lemma KindNameRoundTrip(k: Kind)
    ensures KindOf(KindName(k)) == Some(k)
  {
  }

  /**
   * A stored document. `kind` is the raw `type` string as it sits in the collection:
   * documents written through Create always hold one of the enum's names, documents
   * already in the collection may hold anything.
   */
  datatype Message = Message(id: nat, content: string, user: string, kind: string,
                             createdAt: nat, updatedAt: nat)

  /** The fields handed to `Message.create`; None is an undefined field (for content and user, also null). */
  datatype Draft = Draft(content: Option<string>, user: Option<string>, kind: Option<string>)

  /** The schema paths a validation error can name. */
  datatype Path = ContentPath | UserPath | TypePath

  /** Mongoose reports every failing path of a document in one validation error. */
  datatype SchemaError = ValidationError(paths: set<Path>)

  /** `required: true` on a String path: null, undefined and the empty string all fail. */
  predicate Present(field: Option<string>) {
    field.Some? && field.value != ""
  }

  function Violations(d: Draft): set<Path> {
    (if Present(d.content) then {} else {ContentPath})
    + (if Present(d.user) then {} else {UserPath})
    + (if d.kind.Some? && KindOf(d.kind.value).None? then {TypePath} else {})
  }

  /**
   * `Message.create(d)` as far as the schema decides it: validation, the default
   * type and the timestamps. The store supplies the id and the clock's reading.
   */
  function Create(d: Draft, id: nat, now: nat): (r: Result<Message, SchemaError>)
    ensures r.Err? <==> !Present(d.content) || !Present(d.user)
                        || (d.kind.Some? && KindOf(d.kind.value).None?)
    ensures r.Err? ==>
              && (ContentPath in r.error.paths <==> !Present(d.content))
              && (UserPath in r.error.paths <==> !Present(d.user))
              && (TypePath in r.error.paths <==> d.kind.Some? && KindOf(d.kind.value).None?)
    ensures r.Ok? ==>
              && r.value.id == id
              && r.value.content == d.content.value
              && r.value.user == d.user.value
              && r.value.kind == (if d.kind.None? then "text" else d.kind.value)
              && KindOf(r.value.kind).Some?
              && r.value.createdAt == now && r.value.updatedAt == now
  {
    var v := Violations(d);
    if v != {} then Err(ValidationError(v))
    else Ok(Message(id, d.content.value, d.user.value,
                    if d.kind.None? then "text" else d.kind.value, now, now))
  }
}
