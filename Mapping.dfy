/**
 * MetadataMapping of neo4j-etl: the named extraction mapping for one table,
 * join or join table, and its JSON document with the keys "name",
 * "graph-object-type", "sql" and "mappings".
 */
module Mapping {
  import opened Wrappers
  import opened Json

  /** Whether a mapping produces nodes or relationships. */
  datatype GraphObjectType = Node | Relationship

  /** Enum.name(). */
  function GraphObjectTypeName(t: GraphObjectType): string
  {
    match t
    case Node => "Node"
    case Relationship => "Relationship"
  }

  /** Why fromJson failed. */
  datatype FromJsonError<E> =
    /** graph-object-type is absent or not text: valueOf(null) throws a NullPointerException. */
    | NullGraphObjectType
    /** graph-object-type names no constant: valueOf's IllegalArgumentException. */
    | NoEnumConstant(name: string)
    /** Decoding the column-to-field mappings failed. */
    | MappingsError(cause: E)

  /** GraphObjectType.valueOf applied to a textValue() that may be null. */
  function GraphObjectTypeValueOf<E>(s: Option<string>): (r: Result<GraphObjectType, FromJsonError<E>>)
    ensures s.None? ==> r == Failure(NullGraphObjectType)
    ensures r.Success? ==> s == Some(GraphObjectTypeName(r.value))
    ensures s.Some? && r.Failure? ==>
              r.error == NoEnumConstant(s.value) && forall t :: GraphObjectTypeName(t) != s.value
  {
    match s
    case None => Failure(NullGraphObjectType)
    case Some(n) =>
      if n == "Node" then Success(Node)
      else if n == "Relationship" then Success(Relationship)
      else Failure(NoEnumConstant(n))
  }

  /**
   * A MetadataMapping: name and sql are Java strings and may be null,
   * the mappings slot is the collaborator ColumnToCsvFieldMappings, kept
   * abstract as the type parameter M.
   */
  datatype MetadataMapping<M> = MetadataMapping(
    name: Option<string>,
    graphObjectType: GraphObjectType,
    sql: Option<string>,
    mappings: M)

  /**
   * toJson(): the four keys, the graph-object-type written as the constant's
   * name and the mappings written by their own encoder.
   */
  function ToJson<M>(m: MetadataMapping<M>, mappingsToJson: M -> Json): (r: Json)
    ensures r.Object? && r.fields.Keys == {"name", "graph-object-type", "sql", "mappings"}
    ensures TextValue(Path(r, "name")) == m.name
    ensures Path(r, "graph-object-type") == Text(GraphObjectTypeName(m.graphObjectType))
    ensures TextValue(Path(r, "sql")) == m.sql
    ensures Path(r, "mappings") == mappingsToJson(m.mappings)
  {
    Object(map[
      "name" := TextOrNull(m.name),
      "graph-object-type" := Text(GraphObjectTypeName(m.graphObjectType)),
      "sql" := TextOrNull(m.sql),
      "mappings" := mappingsToJson(m.mappings)])
  }

  /**
   * fromJson(root, formatting): name and sql are read with path().textValue(),
   * which gives null rather than failing when a key is absent or not text;
   * the graph-object-type must name a constant; the mappings are decoded by
   * ColumnToCsvFieldMappings.fromJson, given here as `mappingsFromJson` with
   * the formatting already applied. Arguments are evaluated left to right, so an
   * invalid graph-object-type is reported before the mappings are decoded.
   */
  function FromJson<M, E>(root: Json, mappingsFromJson: Json -> Result<M, E>)
    : (r: Result<MetadataMapping<M>, FromJsonError<E>>)
    ensures r.Success? ==>
              && r.value.name == TextValue(Path(root, "name"))
              && TextValue(Path(root, "graph-object-type")) == Some(GraphObjectTypeName(r.value.graphObjectType))
              && r.value.sql == TextValue(Path(root, "sql"))
              && mappingsFromJson(Path(root, "mappings")) == Success(r.value.mappings)
    ensures r.Failure? <==>
              GraphObjectTypeValueOf<E>(TextValue(Path(root, "graph-object-type"))).Failure? ||
              mappingsFromJson(Path(root, "mappings")).Failure?
    ensures GraphObjectTypeValueOf<E>(TextValue(Path(root, "graph-object-type"))).Failure? ==>
              r == Failure(GraphObjectTypeValueOf<E>(TextValue(Path(root, "graph-object-type"))).error)
    ensures GraphObjectTypeValueOf<E>(TextValue(Path(root, "graph-object-type"))).Success? &&
            mappingsFromJson(Path(root, "mappings")).Failure? ==>
              r == Failure(MappingsError(mappingsFromJson(Path(root, "mappings")).error))
  {
    var name := TextValue(Path(root, "name"));
    match GraphObjectTypeValueOf<E>(TextValue(Path(root, "graph-object-type")))
    case Failure(e) => Failure(e)
    case Success(t) =>
      var sql := TextValue(Path(root, "sql"));
      match mappingsFromJson(Path(root, "mappings"))
      case Failure(e) => Failure(MappingsError(e))
      case Success(ms) => Success(MetadataMapping(name, t, sql, ms))
  }

  /**
   * Round trip: decoding the document of a mapping gives the mapping back,
   * provided the mappings collaborator decodes its own document.
   */
  lemma RoundTrip<M, E>(m: MetadataMapping<M>, mappingsToJson: M -> Json, mappingsFromJson: Json -> Result<M, E>)
    requires mappingsFromJson(mappingsToJson(m.mappings)) == Success(m.mappings)
    ensures FromJson(ToJson(m, mappingsToJson), mappingsFromJson) == Success(m)
  {
    var doc := ToJson(m, mappingsToJson);
    assert GraphObjectTypeValueOf<E>(TextValue(Path(doc, "graph-object-type"))) == Success(m.graphObjectType) by {
      match m.graphObjectType
      case Node =>
      case Relationship =>
    }
  }

  /**
   * Whatever the collaborator does, the name, graph-object-type and sql
   * survive the round trip, and only the collaborator can make it fail.
   */
  lemma ScalarSlotsRoundTrip<M, E>(m: MetadataMapping<M>, mappingsToJson: M -> Json, mappingsFromJson: Json -> Result<M, E>)
    ensures var r := FromJson(ToJson(m, mappingsToJson), mappingsFromJson);
            && (r.Failure? <==> mappingsFromJson(mappingsToJson(m.mappings)).Failure?)
            && (r.Success? ==> r.value.name == m.name && r.value.graphObjectType == m.graphObjectType && r.value.sql == m.sql)
  {
    var doc := ToJson(m, mappingsToJson);
    assert GraphObjectTypeValueOf<E>(TextValue(Path(doc, "graph-object-type"))) == Success(m.graphObjectType) by {
      match m.graphObjectType
      case Node =>
      case Relationship =>
    }
  }

  /** A document without graph-object-type fails with the NullPointerException of valueOf(null). */
  lemma MissingGraphObjectTypeFails<M, E>(root: Json, mappingsFromJson: Json -> Result<M, E>)
    requires !(root.Object? && "graph-object-type" in root.fields)
    ensures FromJson(root, mappingsFromJson) == Failure(NullGraphObjectType)
  {
  }

  /** A document without a name still decodes; the name is then null. */
  lemma MissingNameIsNull<M, E>(root: Json, mappingsFromJson: Json -> Result<M, E>)
    requires !(root.Object? && "name" in root.fields)
    ensures FromJson(root, mappingsFromJson).Success? ==> FromJson(root, mappingsFromJson).value.name.None?
  {
  }
}
