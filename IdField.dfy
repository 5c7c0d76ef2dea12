/**
 * The Id field of the bulk import tool's CSV header (class Id of
 * neo-integration): an optional property name and an optional id-space,
 * rendered as a header token and as a flat JSON document.
 */
module IdField {
  import opened Wrappers
  import opened Json

  /** The id-space an Id refers to; only its value() text is used here. */
  datatype IdSpace = IdSpace(value: string)

  /** The two Optional fields of an Id. */
  datatype Id = Id(name: Option<string>, idSpace: Option<IdSpace>)

  /**
   * Strings.orNull: a null name stays null and a name the utility treats as
   * blank becomes null. Which names are blank is the utility's business,
   * so it is the parameter `blank`.
   */
  function OrNull(name: Option<string>, blank: string -> bool): (r: Option<string>)
    ensures r.Some? ==> name == r && !blank(r.value)
    ensures name.Some? && !blank(name.value) ==> r == name
  {
    match name
    case Some(s) => if blank(s) then None else Some(s)
    case None => None
  }

  /** Id(String name, IdSpace idSpace): the constructor the other three delegate to. */
  function NewId(name: Option<string>, idSpace: Option<IdSpace>, blank: string -> bool): (r: Id)
    ensures r.idSpace == idSpace
    ensures r.name == OrNull(name, blank)
  {
    Id(OrNull(name, blank), idSpace)
  }

  /** Id(String name): a name, kept only when not blank, and no id-space. */
  function NewNamedId(name: Option<string>, blank: string -> bool): (r: Id)
    ensures r.idSpace.None?
    ensures r.name.Some? <==> name.Some? && !blank(name.value)
    ensures r.name.Some? ==> r.name == name
  {
    NewId(name, None, blank)
  }

  /** Id(IdSpace idSpace): no name, and the given id-space. */
  function NewIdInSpace(idSpace: Option<IdSpace>): (r: Id)
    ensures r.name.None? && r.idSpace == idSpace
  {
    NewId(None, idSpace, _ => false)
  }

  /** Id(): no name and no id-space. */
  function NewAnonymousId(): (r: Id)
    ensures r.name.None? && r.idSpace.None?
  {
    NewId(None, None, _ => false)
  }

  /** The name part of a header token: the name, or nothing. */
  function NamePart(id: Id): string
  {
    if id.name.Some? then id.name.value else ""
  }

  /** The id-space part of a header token: "(space)", or nothing. */
  function SpacePart(id: Id): string
  {
    if id.idSpace.Some? then "(" + id.idSpace.value.value + ")" else ""
  }

  /**
   * value(formatter): the header token. Whatever is present of name and
   * id-space is placed around the fixed ":ID" marker.
   */
  function Value<F>(id: Id, formatter: F): (r: string)
    ensures r == NamePart(id) + ":ID" + SpacePart(id)
  {
    if id.name.Some? && id.idSpace.Some? then
      id.name.value + ":ID(" + id.idSpace.value.value + ")"
    else if id.name.Some? then
      id.name.value + ":ID"
    else if id.idSpace.Some? then
      ":ID(" + id.idSpace.value.value + ")"
    else
      ":ID"
  }

  /** The four shapes of the header token. */
  lemma ValueCases<F>(n: string, s: IdSpace, f: F)
    ensures Value(Id(Some(n), Some(s)), f) == n + ":ID(" + s.value + ")"
    ensures Value(Id(Some(n), None), f) == n + ":ID"
    ensures Value(Id(None, Some(s)), f) == ":ID(" + s.value + ")"
    ensures Value(Id(None, None), f) == ":ID"
  {
  }

  /** The constructor without arguments renders as exactly ":ID". */
  lemma AnonymousIdValue<F>(f: F)
    ensures Value(NewAnonymousId(), f) == ":ID"
  {
  }

  /** The formatter is never consulted. */
  lemma ValueIgnoresFormatter<F>(id: Id, f: F, g: F)
    ensures Value(id, f) == Value(id, g)
  {
  }

  /** toJson(): type "Id", and name and id-space with "" for an absent part. */
  function ToJson(id: Id): (r: Json)
    ensures r.Object? && r.fields.Keys == {"type", "name", "id-space"}
    ensures Path(r, "type") == Text("Id")
    ensures Path(r, "name") == Text(NamePart(id))
    ensures Path(r, "id-space") == Text(if id.idSpace.Some? then id.idSpace.value.value else "")
  {
    Object(map[
      "type" := Text("Id"),
      "name" := Text(if id.name.Some? then id.name.value else ""),
      "id-space" := Text(if id.idSpace.Some? then id.idSpace.value.value else "")])
  }

  /** The document never holds a null: every value is text. */
  lemma ToJsonHasNoNull(id: Id, key: string)
    requires key in ToJson(id).fields
    ensures ToJson(id).fields[key].Text?
  {
  }

  /** An Id whose present parts are non-empty, so that "" can only mean absent. */
  predicate NonEmptyParts(id: Id)
  {
    (id.name.Some? ==> id.name.value != "") && (id.idSpace.Some? ==> id.idSpace.value.value != "")
  }

  /** When Strings.orNull treats "" as blank, and id-spaces are never empty, every Id built has non-empty parts. */
  lemma NewIdHasNonEmptyParts(name: Option<string>, idSpace: Option<IdSpace>, blank: string -> bool)
    requires blank("")
    requires idSpace.Some? ==> idSpace.value.value != ""
    ensures NonEmptyParts(NewId(name, idSpace, blank))
  {
  }

  /** toJson loses nothing about an Id with non-empty parts: equal documents mean equal Ids. */
  lemma ToJsonInjective(a: Id, b: Id)
    requires NonEmptyParts(a) && NonEmptyParts(b)
    requires ToJson(a) == ToJson(b)
    ensures a == b
  {
    assert Path(ToJson(a), "name") == Path(ToJson(b), "name");
    assert Path(ToJson(a), "id-space") == Path(ToJson(b), "id-space");
    assert a.name == b.name;
    assert a.idSpace == b.idSpace;
  }

  /** A present but empty name is written exactly like an absent one. */
  lemma EmptyNameLooksAbsent()
    ensures ToJson(Id(Some(""), None)) == ToJson(Id(None, None))
  {
  }

  /** equals(): reflection over the two fields, so two Ids are equal exactly when their fields are. */
  predicate Equals(a: Id, b: Id)
  {
    a.name == b.name && a.idSpace == b.idSpace
  }

  /** Equals is the structural equality of the model. */
  lemma EqualsIsStructural(a: Id, b: Id)
    ensures Equals(a, b) <==> a == b
  {
  }
}
