/**
 * The SQL column types the exporter knows (the enum SqlDataType of the
 * neo4j-etl module), their graph property types, and the parser from a
 * catalog type name.
 */
module SqlDataTypes {
  import opened Wrappers
  import Enums
  import opened AsciiText
  import opened GraphTypes

  datatype SqlDataType =
    | BIT | INT | INT_UNSIGNED | TINYINT | TINYINT_UNSIGNED | SMALLINT | SMALLINT_UNSIGNED
    | BIGINT | BIGINT_UNSIGNED | FLOAT | DOUBLE | DECIMAL | MEDIUMINT | MEDIUMINT_UNSIGNED
    | CHAR | VARCHAR | TEXT | TINYTEXT | MEDIUMTEXT | LONGTEXT | ENUM
    | DATE | DATETIME | TIMESTAMP | TIME | YEAR
    | BLOB | TINYBLOB | MEDIUMBLOB | LONGBLOB

  /** Every constant, in declaration order (SqlDataType.values()). */
  const AllTypes: seq<SqlDataType> :=
    [BIT, INT, INT_UNSIGNED, TINYINT, TINYINT_UNSIGNED, SMALLINT, SMALLINT_UNSIGNED,
     BIGINT, BIGINT_UNSIGNED, FLOAT, DOUBLE, DECIMAL, MEDIUMINT, MEDIUMINT_UNSIGNED,
     CHAR, VARCHAR, TEXT, TINYTEXT, MEDIUMTEXT, LONGTEXT, ENUM,
     DATE, DATETIME, TIMESTAMP, TIME, YEAR,
     BLOB, TINYBLOB, MEDIUMBLOB, LONGBLOB]

  /** The types used for synthesized composite keys, labels, relationship types and keys. */
  const CompositeKeyType: SqlDataType := TEXT
  const LabelDataType: SqlDataType := TEXT
  const RelationshipTypeDataType: SqlDataType := TEXT
  const KeyDataType: SqlDataType := TEXT

  /** Enum.name(): the identifier of the constant. */
  function Name(t: SqlDataType): string
  {
    match t
    case BIT => "BIT"
    case INT => "INT"
    case INT_UNSIGNED => "INT_UNSIGNED"
    case TINYINT => "TINYINT"
    case TINYINT_UNSIGNED => "TINYINT_UNSIGNED"
    case SMALLINT => "SMALLINT"
    case SMALLINT_UNSIGNED => "SMALLINT_UNSIGNED"
    case BIGINT => "BIGINT"
    case BIGINT_UNSIGNED => "BIGINT_UNSIGNED"
    case FLOAT => "FLOAT"
    case DOUBLE => "DOUBLE"
    case DECIMAL => "DECIMAL"
    case MEDIUMINT => "MEDIUMINT"
    case MEDIUMINT_UNSIGNED => "MEDIUMINT_UNSIGNED"
    case CHAR => "CHAR"
    case VARCHAR => "VARCHAR"
    case TEXT => "TEXT"
    case TINYTEXT => "TINYTEXT"
    case MEDIUMTEXT => "MEDIUMTEXT"
    case LONGTEXT => "LONGTEXT"
    case ENUM => "ENUM"
    case DATE => "DATE"
    case DATETIME => "DATETIME"
    case TIMESTAMP => "TIMESTAMP"
    case TIME => "TIME"
    case YEAR => "YEAR"
    case BLOB => "BLOB"
    case TINYBLOB => "TINYBLOB"
    case MEDIUMBLOB => "MEDIUMBLOB"
    case LONGBLOB => "LONGBLOB"
  }

  /** Enum.valueOf without the exception: the constant with exactly this name. */
  function ValueOf(n: string): Option<SqlDataType>
  {
    Enums.ValueOf(n, AllTypes, Name)
  }

  /** toNeo4jDataType(): the graph property type, None (Java null) for the blob types. */
  function ToNeo4j(t: SqlDataType): (r: Option<Neo4jDataType>)
    ensures r.None? <==> SkipImport(t)
  {
    match t
    case BIT => Some(Byte)
    case INT => Some(Int)
    case INT_UNSIGNED => Some(Int)
    case TINYINT => Some(Byte)
    case TINYINT_UNSIGNED => Some(Byte)
    case SMALLINT => Some(Short)
    case SMALLINT_UNSIGNED => Some(Short)
    case BIGINT => Some(Long)
    case BIGINT_UNSIGNED => Some(Long)
    case FLOAT => Some(Float)
    case DOUBLE => Some(Double)
    case DECIMAL => Some(Float)
    case MEDIUMINT => Some(Int)
    case MEDIUMINT_UNSIGNED => Some(Int)
    case CHAR => Some(Neo4jDataType.String)
    case VARCHAR => Some(Neo4jDataType.String)
    case TEXT => Some(Neo4jDataType.String)
    case TINYTEXT => Some(Neo4jDataType.String)
    case MEDIUMTEXT => Some(Neo4jDataType.String)
    case LONGTEXT => Some(Neo4jDataType.String)
    case ENUM => Some(Neo4jDataType.String)
    case DATE => Some(Neo4jDataType.String)
    case DATETIME => Some(Neo4jDataType.String)
    case TIMESTAMP => Some(Neo4jDataType.String)
    case TIME => Some(Neo4jDataType.String)
    case YEAR => Some(Neo4jDataType.String)
    case BLOB => None
    case TINYBLOB => None
    case MEDIUMBLOB => None
    case LONGBLOB => None
  }

  /** skipImport(): columns of these types are not exported. */
  predicate SkipImport(t: SqlDataType)
  {
    t == BLOB || t == TINYBLOB || t == MEDIUMBLOB || t == LONGBLOB
  }

  /** Why parse failed. */
  datatype ParseError =
    /** A null argument: the NullPointerException is caught and reported. */
    | UnrecognizedSqlDataType
    /** No constant has the normalized name: valueOf's IllegalArgumentException. */
    | NoEnumConstant(normalized: string)

  /** The text of the IllegalArgumentException that parse lets escape. */
  function Message(e: ParseError): string
  {
    match e
    case UnrecognizedSqlDataType => "Unrecognized SQL data type: null"
    case NoEnumConstant(n) => "No enum constant org.neo4j.etl.sql.metadata.SqlDataType." + n
  }

  /** The name parse looks up: every space replaced by '_', then upper-cased. */
  function Normalize(s: string): (r: string)
    ensures |r| == |s|
    ensures forall i :: 0 <= i < |s| ==> r[i] == (if s[i] == ' ' then '_' else UpperChar(s[i]))
  {
    ToUpper(ReplaceChar(s, ' ', '_'))
  }

  /**
   * SqlDataType.parse: a null name fails with "Unrecognized SQL data type";
   * otherwise the result is the constant whose name is the normalized input,
   * and there is none exactly when no constant has that name.
   */
  function Parse(dataType: Option<string>): (r: Result<SqlDataType, ParseError>)
    ensures dataType.None? ==> r == Failure(UnrecognizedSqlDataType)
    ensures r.Success? ==> dataType.Some? && Name(r.value) == Normalize(dataType.value)
    ensures dataType.Some? && r.Failure? ==>
              r.error == NoEnumConstant(Normalize(dataType.value)) &&
              forall t :: Name(t) != Normalize(dataType.value)
  {
    if dataType.None? then Failure(UnrecognizedSqlDataType)
    else
      var n := Normalize(dataType.value);
      AllListed();
      Enums.ValueOfComplete(n, AllTypes, Name);
      match ValueOf(n)
      case Some(t) => Success(t)
      case None => Failure(NoEnumConstant(n))
  }

  /** The constant t is listed in AllTypes. */
  lemma Listed(t: SqlDataType)
    ensures t in AllTypes
  {
  }

  /** Every constant is listed in AllTypes. */
  lemma AllListed()
    ensures forall t :: t in AllTypes
  {
    forall t ensures t in AllTypes {
      Listed(t);
    }
  }

  /**
   * Tells the constants apart by the length, first and last character of
   * their names, which no two constants share.
   */
  function KeyedConstant(s: string): SqlDataType
  {
    if |s| == 3 then
      if s[0] == 'B' then BIT else INT
    else if |s| == 4 then
      if s[0] == 'C' then CHAR
      else if s[0] == 'E' then ENUM
      else if s[0] == 'Y' then YEAR
      else if s[0] == 'B' then BLOB
      else if s[0] == 'D' then DATE
      else if s[3] == 'T' then TEXT
      else TIME
    else if |s| == 5 then FLOAT
    else if |s| == 6 then
      if s[0] == 'B' then BIGINT else DOUBLE
    else if |s| == 7 then
      if s[0] == 'T' then TINYINT else if s[0] == 'D' then DECIMAL else VARCHAR
    else if |s| == 8 then
      if s[0] == 'S' then SMALLINT
      else if s[0] == 'D' then DATETIME
      else if s[0] == 'L' then (if s[7] == 'T' then LONGTEXT else LONGBLOB)
      else if s[7] == 'T' then TINYTEXT
      else TINYBLOB
    else if |s| == 9 then
      if s[0] == 'M' then MEDIUMINT else TIMESTAMP
    else if |s| == 10 then
      if s[9] == 'T' then MEDIUMTEXT else MEDIUMBLOB
    else if |s| == 12 then INT_UNSIGNED
    else if |s| == 15 then BIGINT_UNSIGNED
    else if |s| == 16 then TINYINT_UNSIGNED
    else if |s| == 17 then SMALLINT_UNSIGNED
    else MEDIUMINT_UNSIGNED
  }

  /** The key recovers BIT to SMALLINT. */
  lemma KeyedConstantGroup1(t: SqlDataType)
    requires t == BIT || t == INT || t == INT_UNSIGNED || t == TINYINT || t == TINYINT_UNSIGNED || t == SMALLINT
    ensures KeyedConstant(Name(t)) == t
  {
  }

  /** The key recovers SMALLINT_UNSIGNED to DECIMAL. */
  lemma KeyedConstantGroup2(t: SqlDataType)
    requires t == SMALLINT_UNSIGNED || t == BIGINT || t == BIGINT_UNSIGNED || t == FLOAT || t == DOUBLE || t == DECIMAL
    ensures KeyedConstant(Name(t)) == t
  {
  }

  /** The key recovers MEDIUMINT to TINYTEXT. */
  lemma KeyedConstantGroup3(t: SqlDataType)
    requires t == MEDIUMINT || t == MEDIUMINT_UNSIGNED || t == CHAR || t == VARCHAR || t == TEXT || t == TINYTEXT
    ensures KeyedConstant(Name(t)) == t
  {
  }

  /** The key recovers MEDIUMTEXT to TIMESTAMP. */
  lemma KeyedConstantGroup4(t: SqlDataType)
    requires t == MEDIUMTEXT || t == LONGTEXT || t == ENUM || t == DATE || t == DATETIME || t == TIMESTAMP
    ensures KeyedConstant(Name(t)) == t
  {
  }

  /** The key recovers TIME to LONGBLOB. */
  lemma KeyedConstantGroup5(t: SqlDataType)
    requires t == TIME || t == YEAR || t == BLOB || t == TINYBLOB || t == MEDIUMBLOB || t == LONGBLOB
    ensures KeyedConstant(Name(t)) == t
  {
  }

  /** The key recovers every constant from its name. */
  lemma KeyedConstantName(t: SqlDataType)
    ensures KeyedConstant(Name(t)) == t
  {
    match t
    case BIT | INT | INT_UNSIGNED | TINYINT | TINYINT_UNSIGNED | SMALLINT => KeyedConstantGroup1(t);
    case SMALLINT_UNSIGNED | BIGINT | BIGINT_UNSIGNED | FLOAT | DOUBLE | DECIMAL => KeyedConstantGroup2(t);
    case MEDIUMINT | MEDIUMINT_UNSIGNED | CHAR | VARCHAR | TEXT | TINYTEXT => KeyedConstantGroup3(t);
    case MEDIUMTEXT | LONGTEXT | ENUM | DATE | DATETIME | TIMESTAMP => KeyedConstantGroup4(t);
    case TIME | YEAR | BLOB | TINYBLOB | MEDIUMBLOB | LONGBLOB => KeyedConstantGroup5(t);
  }

  /** No two constants share a name. */
  lemma NameInjective(a: SqlDataType, b: SqlDataType)
    requires Name(a) == Name(b)
    ensures a == b
  {
    KeyedConstantName(a);
    KeyedConstantName(b);
  }

  /** valueOf(name()) is the identity. */
  lemma ValueOfName(t: SqlDataType)
    ensures ValueOf(Name(t)) == Some(t)
  {
    AllListed();
    forall a, b | Name(a) == Name(b) ensures a == b {
      NameInjective(a, b);
    }
    Enums.ValueOfName(t, AllTypes, Name);
  }

  lemma SignedIntegerNames()
    ensures IsConstantName("BIT")
    ensures IsConstantName("INT")
    ensures IsConstantName("TINYINT")
    ensures IsConstantName("SMALLINT")
    ensures IsConstantName("BIGINT")
    ensures IsConstantName("MEDIUMINT")
  {
  }

  lemma UnsignedIntegerNames()
    ensures IsConstantName("INT_UNSIGNED")
    ensures IsConstantName("TINYINT_UNSIGNED")
    ensures IsConstantName("SMALLINT_UNSIGNED")
    ensures IsConstantName("BIGINT_UNSIGNED")
    ensures IsConstantName("MEDIUMINT_UNSIGNED")
  {
  }

  lemma DecimalAndTextNames()
    ensures IsConstantName("FLOAT")
    ensures IsConstantName("DOUBLE")
    ensures IsConstantName("DECIMAL")
    ensures IsConstantName("CHAR")
    ensures IsConstantName("VARCHAR")
    ensures IsConstantName("TEXT")
  {
  }

  lemma LongTextNames()
    ensures IsConstantName("TINYTEXT")
    ensures IsConstantName("MEDIUMTEXT")
    ensures IsConstantName("LONGTEXT")
    ensures IsConstantName("ENUM")
    ensures IsConstantName("DATE")
    ensures IsConstantName("DATETIME")
  {
  }

  lemma TemporalAndBlobNames()
    ensures IsConstantName("TIMESTAMP")
    ensures IsConstantName("TIME")
    ensures IsConstantName("YEAR")
    ensures IsConstantName("BLOB")
    ensures IsConstantName("TINYBLOB")
    ensures IsConstantName("MEDIUMBLOB")
    ensures IsConstantName("LONGBLOB")
  {
  }

  /** Every constant's name is made of upper-case letters and underscores. */
  lemma NameIsConstantName(t: SqlDataType)
    ensures IsConstantName(Name(t))
  {
    SignedIntegerNames();
    UnsignedIntegerNames();
    DecimalAndTextNames();
    LongTextNames();
    TemporalAndBlobNames();
  }

  /** Round trip: parsing a constant's own name gives that constant back. */
  lemma ParseName(t: SqlDataType)
    ensures Parse(Some(Name(t))) == Success(t)
  {
    NameIsConstantName(t);
    ReplaceSpaceFixesConstantName(Name(t));
    ToUpperFixesConstantName(Name(t));
    ValueOfName(t);
  }

  /**
   * Parsing ignores case and reads a space as an underscore: every constant's
   * name written in lower case with spaces ("int unsigned", "varchar") parses
   * to that constant.
   */
  lemma ParseLowerSpaced(t: SqlDataType)
    ensures Parse(Some(ReplaceChar(ToLower(Name(t)), '_', ' '))) == Success(t)
  {
    NameIsConstantName(t);
    NormalizeUndoesLowerSpaced(Name(t));
    ValueOfName(t);
  }

  /** The resolution table of the numeric family. */
  lemma NumericMapping()
    ensures ToNeo4j(BIT) == Some(Byte) && ToNeo4j(TINYINT) == Some(Byte)
    ensures ToNeo4j(INT) == Some(Int) && ToNeo4j(MEDIUMINT) == Some(Int)
    ensures ToNeo4j(SMALLINT) == Some(Short) && ToNeo4j(BIGINT) == Some(Long)
    ensures ToNeo4j(FLOAT) == Some(Float) && ToNeo4j(DECIMAL) == Some(Float)
    ensures ToNeo4j(DOUBLE) == Some(Double)
  {
  }

  /** The character-string column types. */
  predicate IsTextType(t: SqlDataType)
  {
    t == CHAR || t == VARCHAR || t == TEXT || t == TINYTEXT || t == MEDIUMTEXT || t == LONGTEXT || t == ENUM
  }

  /** The date and time column types. */
  predicate IsTemporalType(t: SqlDataType)
  {
    t == DATE || t == DATETIME || t == TIMESTAMP || t == TIME || t == YEAR
  }

  /** Character-string and date/time columns are exported as strings. */
  lemma TextAndTemporalMapping(t: SqlDataType)
    requires IsTextType(t) || IsTemporalType(t)
    ensures ToNeo4j(t) == Some(Neo4jDataType.String)
  {
  }

  /** A name that ends in "_UNSIGNED". */
  predicate EndsWithUnsigned(n: string)
  {
    |n| >= 9 && n[|n| - 9..] == "_UNSIGNED"
  }

  /** The signed constant an _UNSIGNED constant is the variant of. */
  function SignedCounterpart(u: SqlDataType): Option<SqlDataType>
  {
    match u
    case INT_UNSIGNED => Some(INT)
    case TINYINT_UNSIGNED => Some(TINYINT)
    case SMALLINT_UNSIGNED => Some(SMALLINT)
    case BIGINT_UNSIGNED => Some(BIGINT)
    case MEDIUMINT_UNSIGNED => Some(MEDIUMINT)
    case _ => None
  }

  /** Any name followed by "_UNSIGNED" ends with the suffix. */
  lemma SuffixEndsWithUnsigned(n: string)
    ensures EndsWithUnsigned(n + "_UNSIGNED")
  {
    assert (n + "_UNSIGNED")[|n|..] == "_UNSIGNED";
  }

  /** The five _UNSIGNED names spelled as their signed names and the suffix. */
  lemma UnsignedNameSpellings()
    ensures "INT_UNSIGNED" == "INT" + "_UNSIGNED"
    ensures "TINYINT_UNSIGNED" == "TINYINT" + "_UNSIGNED"
    ensures "SMALLINT_UNSIGNED" == "SMALLINT" + "_UNSIGNED"
    ensures "BIGINT_UNSIGNED" == "BIGINT" + "_UNSIGNED"
    ensures "MEDIUMINT_UNSIGNED" == "MEDIUMINT" + "_UNSIGNED"
  {
  }

  /** An _UNSIGNED constant is named after its signed counterpart and maps like it. */
  lemma UnsignedExtendsSigned(u: SqlDataType)
    requires SignedCounterpart(u).Some?
    ensures Name(u) == Name(SignedCounterpart(u).value) + "_UNSIGNED"
    ensures EndsWithUnsigned(Name(u))
    ensures ToNeo4j(u) == ToNeo4j(SignedCounterpart(u).value)
  {
    UnsignedNameSpellings();
    SuffixEndsWithUnsigned(Name(SignedCounterpart(u).value));
  }

  /** The names of at least nine characters without the suffix. */
  lemma LongSignedNames(t: SqlDataType)
    requires t == MEDIUMINT || t == TIMESTAMP || t == MEDIUMTEXT || t == MEDIUMBLOB
    ensures !EndsWithUnsigned(Name(t))
  {
    var n := Name(t);
    assert n[|n| - 9] != '_';
  }

  /** Every other constant is named with fewer than nine characters. */
  lemma ShortNames(t: SqlDataType)
    requires SignedCounterpart(t).None?
    requires t != MEDIUMINT && t != TIMESTAMP && t != MEDIUMTEXT && t != MEDIUMBLOB
    ensures |Name(t)| < 9
  {
  }

  /** The _UNSIGNED constants are exactly the ones with a signed counterpart. */
  lemma UnsignedResolvesLikeSigned(u: SqlDataType)
    ensures EndsWithUnsigned(Name(u)) <==> SignedCounterpart(u).Some?
    ensures SignedCounterpart(u).Some? ==>
              Name(u) == Name(SignedCounterpart(u).value) + "_UNSIGNED" &&
              ToNeo4j(u) == ToNeo4j(SignedCounterpart(u).value)
  {
    if SignedCounterpart(u).Some? {
      UnsignedExtendsSigned(u);
    } else if u == MEDIUMINT || u == TIMESTAMP || u == MEDIUMTEXT || u == MEDIUMBLOB {
      LongSignedNames(u);
    } else {
      ShortNames(u);
    }
  }

  /** Exactly the blob types are skipped, and they are exactly the types without a graph type. */
  lemma SkipExactlyBlobs()
    ensures forall t :: SkipImport(t) <==> t in {BLOB, TINYBLOB, MEDIUMBLOB, LONGBLOB}
    ensures forall t :: SkipImport(t) <==> ToNeo4j(t).None?
  {
  }

  /** The synthesized key, label and relationship-type columns are TEXT and so become strings. */
  lemma SynthesizedColumnsAreStrings()
    ensures CompositeKeyType == LabelDataType == RelationshipTypeDataType == KeyDataType == TEXT
    ensures ToNeo4j(CompositeKeyType) == Some(Neo4jDataType.String)
    ensures !SkipImport(KeyDataType)
  {
  }
}
