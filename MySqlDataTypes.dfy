/**
 * The older MySQL column type table of the neo-integration module
 * (the enum MySqlDataType): every constant has a graph type, and parse
 * only upper-cases its argument before the lookup.
 */
module MySqlDataTypes {
  import opened Wrappers
  import Enums
  import opened AsciiText
  import opened GraphTypes
  import SqlDataTypes

  datatype MySqlDataType = INT | TINYINT | SMALLINT | BIGINT | FLOAT | DOUBLE | DECIMAL | MEDIUMINT
                         | TEXT | VARCHAR | CHAR

  /** Every constant, in declaration order (MySqlDataType.values()). */
  const AllTypes: seq<MySqlDataType> :=
    [INT, TINYINT, SMALLINT, BIGINT, FLOAT, DOUBLE, DECIMAL, MEDIUMINT, TEXT, VARCHAR, CHAR]

  /** Enum.name(). */
  function Name(t: MySqlDataType): string
  {
    match t
    case INT => "INT"
    case TINYINT => "TINYINT"
    case SMALLINT => "SMALLINT"
    case BIGINT => "BIGINT"
    case FLOAT => "FLOAT"
    case DOUBLE => "DOUBLE"
    case DECIMAL => "DECIMAL"
    case MEDIUMINT => "MEDIUMINT"
    case TEXT => "TEXT"
    case VARCHAR => "VARCHAR"
    case CHAR => "CHAR"
  }

  /** Enum.valueOf without the exception. */
  function ValueOf(n: string): Option<MySqlDataType>
  {
    Enums.ValueOf(n, AllTypes, Name)
  }

  /**
   * toNeo4jDataType(): total, since every constant carries a graph type;
   * the string types are exactly TEXT, VARCHAR and CHAR.
   */
  function ToNeo4j(t: MySqlDataType): (r: Neo4jDataType)
    ensures r == Neo4jDataType.String <==> t == TEXT || t == VARCHAR || t == CHAR
  {
    match t
    case INT => Int
    case TINYINT => Byte
    case SMALLINT => Short
    case BIGINT => Long
    case FLOAT => Float
    case DOUBLE => Double
    case DECIMAL => Float
    case MEDIUMINT => Int
    case TEXT => Neo4jDataType.String
    case VARCHAR => Neo4jDataType.String
    case CHAR => Neo4jDataType.String
  }

  /** Why parse failed. */
  datatype ParseError =
    /** A null argument: value.toUpperCase() throws a NullPointerException, which is not caught. */
    | NullValue
    /** No constant has the upper-cased name: valueOf's IllegalArgumentException. */
    | NoEnumConstant(upperCased: string)

  /**
   * MySqlDataType.parse: the constant named by the upper-cased argument;
   * nothing else is rewritten, so it fails exactly when no constant has
   * that name.
   */
  function Parse(value: Option<string>): (r: Result<MySqlDataType, ParseError>)
    ensures value.None? ==> r == Failure(NullValue)
    ensures r.Success? ==> value.Some? && Name(r.value) == ToUpper(value.value)
    ensures value.Some? && r.Failure? ==>
              r.error == NoEnumConstant(ToUpper(value.value)) &&
              forall t :: Name(t) != ToUpper(value.value)
  {
    if value.None? then Failure(NullValue)
    else
      var n := ToUpper(value.value);
      AllListed();
      Enums.ValueOfComplete(n, AllTypes, Name);
      match ValueOf(n)
      case Some(t) => Success(t)
      case None => Failure(NoEnumConstant(n))
  }

  /** No two constants share a name. */
  lemma NameInjective(a: MySqlDataType, b: MySqlDataType)
    requires Name(a) == Name(b)
    ensures a == b
  {
  }

  /** The constant t is listed in AllTypes. */
  lemma Listed(t: MySqlDataType)
    ensures t in AllTypes
  {
  }

  /** Every constant is listed in AllTypes. */
  lemma AllListed()
    ensures forall t :: t in AllTypes
  {
    forall t ensures t in AllTypes {
      Listed(t);
    }
  }

  /** valueOf(name()) is the identity. */
  lemma ValueOfName(t: MySqlDataType)
    ensures ValueOf(Name(t)) == Some(t)
  {
    AllListed();
    forall a, b | Name(a) == Name(b) ensures a == b {
      NameInjective(a, b);
    }
    Enums.ValueOfName(t, AllTypes, Name);
  }

  /** Every constant's name is made of upper-case letters. */
  lemma NameIsConstantName(t: MySqlDataType)
    ensures IsConstantName(Name(t))
  {
  }

  /** Round trip: parsing a constant's own name gives that constant back. */
  lemma ParseName(t: MySqlDataType)
    ensures Parse(Some(Name(t))) == Success(t)
  {
    NameIsConstantName(t);
    ToUpperFixesConstantName(Name(t));
    ValueOfName(t);
  }

  /** Parsing ignores case: a lower-case name ("int") parses to its constant (INT). */
  lemma ParseLowerCase(t: MySqlDataType)
    ensures Parse(Some(ToLower(Name(t)))) == Success(t)
  {
    NameIsConstantName(t);
    UpperUndoesLower(Name(t));
    ValueOfName(t);
  }

  /** Spaces are not rewritten: no input that contains a space parses. */
  lemma ParseRejectsSpaces(s: string, i: int)
    requires 0 <= i < |s| && s[i] == ' '
    ensures Parse(Some(s)).Failure?
  {
    SpaceSurvivesToUpper(s, i);
    var r := Parse(Some(s));
    if r.Success? {
      NameIsConstantName(r.value);
    }
  }

  /** The numeric resolution table. */
  lemma NumericMapping()
    ensures ToNeo4j(INT) == Int && ToNeo4j(MEDIUMINT) == Int
    ensures ToNeo4j(TINYINT) == Byte && ToNeo4j(SMALLINT) == Short
    ensures ToNeo4j(BIGINT) == Long && ToNeo4j(FLOAT) == Float
    ensures ToNeo4j(DOUBLE) == Double && ToNeo4j(DECIMAL) == Float
  {
  }

  /**
   * The two tables agree: every MySQL constant's name is also a constant of
   * the newer table and resolves to the same graph type there.
   */
  lemma AgreesWithSqlDataType(t: MySqlDataType)
    ensures SqlDataTypes.ValueOf(Name(t)).Some?
    ensures SqlDataTypes.ToNeo4j(SqlDataTypes.ValueOf(Name(t)).value) == Some(ToNeo4j(t))
  {
    var s := match t
      case INT => SqlDataTypes.INT
      case TINYINT => SqlDataTypes.TINYINT
      case SMALLINT => SqlDataTypes.SMALLINT
      case BIGINT => SqlDataTypes.BIGINT
      case FLOAT => SqlDataTypes.FLOAT
      case DOUBLE => SqlDataTypes.DOUBLE
      case DECIMAL => SqlDataTypes.DECIMAL
      case MEDIUMINT => SqlDataTypes.MEDIUMINT
      case TEXT => SqlDataTypes.TEXT
      case VARCHAR => SqlDataTypes.VARCHAR
      case CHAR => SqlDataTypes.CHAR;
    assert SqlDataTypes.Name(s) == Name(t);
    SqlDataTypes.ValueOfName(s);
  }
}
