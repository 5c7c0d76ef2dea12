# neo4j-etl mapping core in Dafny

This project models the deterministic part of the neo4j-etl relational-to-graph
exporter:

- `SqlDataTypes` and `MySqlDataTypes` model the two enum tables from SQL column
  types to Neo4j property types. They include the `parse` functions (name
  normalization, then `Enum.valueOf`, with its exceptions as error values),
  `toNeo4jDataType`, `skipImport` and the TEXT constants used for synthesized
  columns.
- `IdField` models the `Id` CSV field. It covers the header token written for
  the import tool (`name:ID(space)`, `name:ID`, `:ID(space)`, `:ID`) and its
  JSON rendering, where absent parts become `""`.
- `Mapping` models `MetadataMapping`: its four slots, `toJson` and `fromJson`
  over a small JSON datatype (`Json`). `ColumnToCsvFieldMappings` stays abstract
  as a type parameter with a pair of encode/decode functions.
- `SchemaExport` models `validate` and `generateMetadataMappings`.
  - `validate` compares every table name of every join with the declared
    tables' descriptors, ignoring case, and reports the first miss.
  - `generateMetadataMappings` validates and then appends one mapping per table,
    then per join, then per join table, in three loops.
  - The `MetadataMappingProvider` becomes a record of three functions, one per
    entity kind.
- `JoinTables` models `JoinTableBuilder` as a class with one field per key, a
  `columns` sequence and a ghost stage that replaces the Java stage interfaces.
  Its methods change only `this`.
- `Enums` is `Enum.valueOf`, shared by both tables.
- `AsciiText` holds the string operations the core relies on:
  `toUpperCase`, `replaceAll(" ", "_")`, `ArrayUtils.containsIgnoreCase` and
  `Collectors.joining`.

Java `null` is `None` of `Option`. An exception is the `Failure` of a `Result`,
or the `Fail` of an `Outcome`, carrying the exception's cause and text.

The model follows the code on these points:

- `SchemaExport.validate` checks only the joins, not the join tables
  (SchemaExport.java lines 71-84).
- `MySqlDataType.parse` only upper-cases and does not rewrite spaces.
- A `null` passed to `MySqlDataType.parse` is not caught (a
  NullPointerException, `NullValue` here). In `SqlDataType.parse` the same
  `null` becomes the "Unrecognized SQL data type: null" IllegalArgumentException.
- A missing `name` or `sql` in a MetadataMapping document decodes to `null`. It
  does not fail, because `path(..).textValue()` returns `null`.

## Model

| member | source | states |
|---|---|---|
| Enums.ValueOf | neo4j-etl/src/main/java/org/neo4j/etl/sql/metadata/SqlDataType.java:52 | Enum.valueOf: a result is a listed constant with exactly that name; no result means no listed constant has it |
| Enums.ValueOfComplete | neo4j-etl/src/main/java/org/neo4j/etl/sql/metadata/SqlDataType.java:52 | when every constant is listed, valueOf fails only for a name that no constant has |
| Enums.ValueOfName | neo4j-etl/src/main/java/org/neo4j/etl/sql/metadata/SqlDataType.java:52 | when names are distinct, valueOf(t.name()) is t for every listed constant |
| SqlDataTypes.ToNeo4j | neo4j-etl/src/main/java/org/neo4j/etl/sql/metadata/SqlDataType.java:9-41 | a constant has no graph type (Java null) exactly when it is skipped on import |
| SqlDataTypes.SkipImport | neo4j-etl/src/main/java/org/neo4j/etl/sql/metadata/SqlDataType.java:73-76 | holds exactly for BLOB, TINYBLOB, MEDIUMBLOB and LONGBLOB (a predicate; its properties are in SqlDataTypes.SkipExactlyBlobs) |
| SqlDataTypes.Normalize | neo4j-etl/src/main/java/org/neo4j/etl/sql/metadata/SqlDataType.java:52 | keeps the length; each space becomes '_' and every other character is upper-cased on its own |
| SqlDataTypes.Message | neo4j-etl/src/main/java/org/neo4j/etl/sql/metadata/SqlDataType.java:56 | the exception texts: "Unrecognized SQL data type: null", and valueOf's "No enum constant org.neo4j.etl.sql.metadata.SqlDataType." followed by the normalized name |
| SqlDataTypes.Parse | neo4j-etl/src/main/java/org/neo4j/etl/sql/metadata/SqlDataType.java:48-58 | null fails with "Unrecognized SQL data type"; a success is the constant whose name is the input with spaces replaced by '_' and upper-cased; any other input fails with valueOf's error naming the normalized text, and then no constant has that name |
| SqlDataTypes.NameInjective | neo4j-etl/src/main/java/org/neo4j/etl/sql/metadata/SqlDataType.java:9-41 | no two constants share a name |
| SqlDataTypes.ValueOfName | neo4j-etl/src/main/java/org/neo4j/etl/sql/metadata/SqlDataType.java:9-41 | valueOf(t.name()) is t for every constant |
| SqlDataTypes.NameIsConstantName | neo4j-etl/src/main/java/org/neo4j/etl/sql/metadata/SqlDataType.java:9-41 | every constant's name is upper-case letters, digits and '_', so normalization leaves it unchanged |
| SqlDataTypes.ParseName | neo4j-etl/src/main/java/org/neo4j/etl/sql/metadata/SqlDataType.java:48-58 | round trip: parse(t.name()) is t for every constant |
| SqlDataTypes.ParseLowerSpaced | neo4j-etl/src/main/java/org/neo4j/etl/sql/metadata/SqlDataType.java:52 | a name written in lower case with spaces for underscores ("int unsigned", "varchar") parses to its constant |
| SqlDataTypes.NumericMapping | neo4j-etl/src/main/java/org/neo4j/etl/sql/metadata/SqlDataType.java:9-22 | BIT and TINYINT give Byte, INT and MEDIUMINT Int, SMALLINT Short, BIGINT Long, FLOAT and DECIMAL Float, DOUBLE Double |
| SqlDataTypes.TextAndTemporalMapping | neo4j-etl/src/main/java/org/neo4j/etl/sql/metadata/SqlDataType.java:24-36 | every character and temporal type (CHAR to ENUM, DATE to YEAR) gives String |
| SqlDataTypes.UnsignedExtendsSigned | neo4j-etl/src/main/java/org/neo4j/etl/sql/metadata/SqlDataType.java:10-22 | each _UNSIGNED constant is named as its signed counterpart plus "_UNSIGNED" and has the same graph type |
| SqlDataTypes.UnsignedResolvesLikeSigned | neo4j-etl/src/main/java/org/neo4j/etl/sql/metadata/SqlDataType.java:10-22 | a constant's name ends in "_UNSIGNED" exactly when it has a signed counterpart, whose name it extends and whose graph type it shares |
| SqlDataTypes.SkipExactlyBlobs | neo4j-etl/src/main/java/org/neo4j/etl/sql/metadata/SqlDataType.java:38-41 | skipImport holds exactly for BLOB, TINYBLOB, MEDIUMBLOB and LONGBLOB, and exactly for the constants with no graph type |
| SqlDataTypes.SynthesizedColumnsAreStrings | neo4j-etl/src/main/java/org/neo4j/etl/sql/metadata/SqlDataType.java:43-46 | the composite-key, label, relationship-type and key types are all TEXT, which gives String and is not skipped |
| MySqlDataTypes.ToNeo4j | neo-integration/src/main/java/org/neo4j/integration/sql/exportcsv/mysql/MySqlDataType.java:8-19 | every constant has a graph type (there is no skip case), and it is String exactly for TEXT, VARCHAR and CHAR |
| MySqlDataTypes.Parse | neo-integration/src/main/java/org/neo4j/integration/sql/exportcsv/mysql/MySqlDataType.java:28-31 | null fails (uncaught NullPointerException); a success is the constant named by the upper-cased input; any other input fails with valueOf's error naming the upper-cased text, and then no constant has that name |
| MySqlDataTypes.NameInjective | neo-integration/src/main/java/org/neo4j/integration/sql/exportcsv/mysql/MySqlDataType.java:8-19 | no two constants share a name |
| MySqlDataTypes.ValueOfName | neo-integration/src/main/java/org/neo4j/integration/sql/exportcsv/mysql/MySqlDataType.java:8-19 | valueOf(t.name()) is t for every constant |
| MySqlDataTypes.NameIsConstantName | neo-integration/src/main/java/org/neo4j/integration/sql/exportcsv/mysql/MySqlDataType.java:8-19 | every constant's name is upper-case letters, digits and '_' |
| MySqlDataTypes.ParseName | neo-integration/src/main/java/org/neo4j/integration/sql/exportcsv/mysql/MySqlDataType.java:28-31 | round trip: parse(t.name()) is t for every constant |
| MySqlDataTypes.ParseLowerCase | neo-integration/src/test/java/org/neo4j/integration/sql/exportcsv/mysql/MySqlDataTypeTest.java:13-20 | the lower-case name of every constant ("int" included) parses to that constant |
| MySqlDataTypes.ParseRejectsSpaces | neo-integration/src/main/java/org/neo4j/integration/sql/exportcsv/mysql/MySqlDataType.java:30 | spaces are not rewritten: any input containing a space fails |
| MySqlDataTypes.NumericMapping | neo-integration/src/test/java/org/neo4j/integration/sql/exportcsv/mysql/MySqlDataTypeTest.java:23-33 | INT and MEDIUMINT give Int, TINYINT Byte, SMALLINT Short, BIGINT Long, FLOAT and DECIMAL Float, DOUBLE Double |
| MySqlDataTypes.AgreesWithSqlDataType | neo-integration/src/main/java/org/neo4j/integration/sql/exportcsv/mysql/MySqlDataType.java:8-19 | every MySQL constant is also a constant of the newer SqlDataType table, and maps to the graph type of the same name |
| AsciiText.ToUpper | neo4j-etl/src/main/java/org/neo4j/etl/sql/metadata/SqlDataType.java:52 | upper-casing keeps the length and maps each character on its own |
| AsciiText.ReplaceChar | neo4j-etl/src/main/java/org/neo4j/etl/sql/metadata/SqlDataType.java:52 | replaceAll of one character keeps the length, replaces every occurrence and leaves every other character |
| AsciiText.ToUpperFixesConstantName | neo4j-etl/src/main/java/org/neo4j/etl/sql/metadata/SqlDataType.java:52 | upper-casing leaves a constant-style name unchanged |
| AsciiText.ReplaceSpaceFixesConstantName | neo4j-etl/src/main/java/org/neo4j/etl/sql/metadata/SqlDataType.java:52 | replacing spaces leaves a constant-style name unchanged |
| AsciiText.NormalizeUndoesLowerSpaced | neo4j-etl/src/main/java/org/neo4j/etl/sql/metadata/SqlDataType.java:52 | replacing spaces and upper-casing restores a constant-style name written in lower case with spaces for underscores |
| AsciiText.UpperUndoesLower | neo-integration/src/main/java/org/neo4j/integration/sql/exportcsv/mysql/MySqlDataType.java:30 | upper-casing restores a constant-style name written in lower case |
| AsciiText.SpaceSurvivesToUpper | neo-integration/src/main/java/org/neo4j/integration/sql/exportcsv/mysql/MySqlDataType.java:30 | a space survives upper-casing, so the result is no constant-style name |
| AsciiText.ContainsIgnoreCaseOfMember | neo4j-etl-cli/src/main/java/org/neo4j/etl/commands/SchemaExport.java:75 | a case-insensitive membership test finds every member of the list |
| Json.Path | neo4j-etl/src/main/java/org/neo4j/etl/sql/exportcsv/mapping/MetadataMapping.java:15-18 | path(key) is the field's value when the key is present, and otherwise the missing node |
| Json.TextValue | neo4j-etl/src/main/java/org/neo4j/etl/sql/exportcsv/mapping/MetadataMapping.java:15-17 | textValue() is non-null exactly on text nodes, and is their text |
| Json.TextOrNull | neo4j-etl/src/main/java/org/neo4j/etl/sql/exportcsv/mapping/MetadataMapping.java:61-63 | put(key, string) stores a node whose textValue() is the string, null included |
| IdField.OrNull | neo-integration/src/main/java/org/neo4j/integration/neo4j/importcsv/fields/Id.java:39 | a kept name is the given, non-blank name, and a non-blank name is always kept |
| IdField.NewId | neo-integration/src/main/java/org/neo4j/integration/neo4j/importcsv/fields/Id.java:37-41 | the constructor keeps the id-space and keeps the name only when it is not blank |
| IdField.NewNamedId | neo-integration/src/main/java/org/neo4j/integration/neo4j/importcsv/fields/Id.java:27-30 | Id(String): no id-space; the name is kept exactly when it is given and not blank |
| IdField.NewIdInSpace | neo-integration/src/main/java/org/neo4j/integration/neo4j/importcsv/fields/Id.java:32-35 | Id(IdSpace): no name, and the given id-space |
| IdField.NewAnonymousId | neo-integration/src/main/java/org/neo4j/integration/neo4j/importcsv/fields/Id.java:22-25 | the no-argument constructor has neither a name nor an id-space |
| IdField.Value | neo-integration/src/main/java/org/neo4j/integration/neo4j/importcsv/fields/Id.java:44-62 | the header is the name (or nothing), then ":ID", then "(space)" (or nothing) |
| IdField.ValueCases | neo-integration/src/main/java/org/neo4j/integration/neo4j/importcsv/fields/Id.java:46-61 | the four cases give name:ID(space), name:ID, :ID(space) and :ID |
| IdField.AnonymousIdValue | neo-integration/src/main/java/org/neo4j/integration/neo4j/importcsv/fields/Id.java:22-61 | the no-argument Id renders exactly ":ID" |
| IdField.ValueIgnoresFormatter | neo-integration/src/main/java/org/neo4j/integration/neo4j/importcsv/fields/Id.java:44-62 | the header does not depend on the formatter argument |
| IdField.ToJson | neo-integration/src/main/java/org/neo4j/integration/neo4j/importcsv/fields/Id.java:65-74 | the document has exactly the keys type, name and id-space; type is "Id"; an absent name or id-space is written as "" |
| IdField.ToJsonHasNoNull | neo-integration/src/main/java/org/neo4j/integration/neo4j/importcsv/fields/Id.java:69-71 | every value in the document is text, never null |
| IdField.NewIdHasNonEmptyParts | neo-integration/src/main/java/org/neo4j/integration/neo4j/importcsv/fields/Id.java:37-41 | when "" counts as blank and the id-space is not "", a constructed Id has no empty part |
| IdField.ToJsonInjective | neo-integration/src/main/java/org/neo4j/integration/neo4j/importcsv/fields/Id.java:67-73 | Ids without empty parts are told apart by their documents |
| IdField.EmptyNameLooksAbsent | neo-integration/src/main/java/org/neo4j/integration/neo4j/importcsv/fields/Id.java:70 | an empty name and an absent name give the same document |
| IdField.Equals | neo-integration/src/main/java/org/neo4j/integration/neo4j/importcsv/fields/Id.java:78-81 | reflection equality: the name optionals are equal and the id-space optionals are equal; its properties are in IdField.EqualsIsStructural |
| IdField.EqualsIsStructural | neo-integration/src/main/java/org/neo4j/integration/neo4j/importcsv/fields/Id.java:78-81 | reflection equality holds exactly when the name and id-space optionals are equal |
| Mapping.GraphObjectTypeValueOf | neo4j-etl/src/main/java/org/neo4j/etl/sql/exportcsv/mapping/MetadataMapping.java:16 | null fails with the NullPointerException; a success is the constant with that name; another name fails with valueOf's error, and then no constant has that name |
| Mapping.ToJson | neo4j-etl/src/main/java/org/neo4j/etl/sql/exportcsv/mapping/MetadataMapping.java:57-67 | the document has exactly the keys name, graph-object-type, sql and mappings; graph-object-type is the constant's name; name and sql read back as given (null included); mappings is the collaborator's document |
| Mapping.FromJson | neo4j-etl/src/main/java/org/neo4j/etl/sql/exportcsv/mapping/MetadataMapping.java:12-19 | a result holds the textValue of name and sql, the constant named by graph-object-type and the decoded mappings; it fails exactly when graph-object-type or the mappings fail, and a graph-object-type error is reported first |
| Mapping.RoundTrip | neo4j-etl/src/main/java/org/neo4j/etl/sql/exportcsv/mapping/MetadataMapping.java:12-67 | fromJson(toJson(m)) is m whenever the mappings collaborator round-trips |
| Mapping.ScalarSlotsRoundTrip | neo4j-etl/src/main/java/org/neo4j/etl/sql/exportcsv/mapping/MetadataMapping.java:14-18 | whatever the collaborator does, the round trip fails only when it does, and otherwise keeps name, graph-object-type and sql |
| Mapping.MissingGraphObjectTypeFails | neo4j-etl/src/main/java/org/neo4j/etl/sql/exportcsv/mapping/MetadataMapping.java:16 | a document without graph-object-type fails with the NullPointerException |
| Mapping.MissingNameIsNull | neo4j-etl/src/main/java/org/neo4j/etl/sql/exportcsv/mapping/MetadataMapping.java:15 | a document without name decodes, if at all, to a null name |
| SchemaExport.Descriptors | neo4j-etl-cli/src/main/java/org/neo4j/etl/commands/SchemaExport.java:69 | one descriptor per declared table, in order |
| SchemaExport.FirstUndeclared | neo4j-etl-cli/src/main/java/org/neo4j/etl/commands/SchemaExport.java:72-84 | the index of the first table name of a join that is not declared (ignoring case), or none when all are |
| SchemaExport.Message | neo4j-etl-cli/src/main/java/org/neo4j/etl/commands/SchemaExport.java:77-82 | "Config is missing table definition '<full name>' for join [<names joined by ' -> '>]"; a concrete case is SchemaExport.MissingTableMessageExample |
| SchemaExport.Validate | neo4j-etl-cli/src/main/java/org/neo4j/etl/commands/SchemaExport.java:67-86 | passes exactly when every table name of every join matches a declared table's descriptor, ignoring case; a failure names the first missing table name of the first join with one, together with that join's table names |
| SchemaExport.DeclaredNamesValidate | neo4j-etl-cli/src/main/java/org/neo4j/etl/commands/SchemaExport.java:69-75 | joins whose table names are all declared descriptors, spelled exactly, always validate |
| SchemaExport.CheckJoins | neo4j-etl-cli/src/main/java/org/neo4j/etl/commands/SchemaExport.java:71-84 | validation passes exactly when every table name of every join is declared, ignoring case; a failure names the first missing table name of the first join with one, together with that join's table names |
| SchemaExport.JoinsResolvedCons | neo4j-etl-cli/src/main/java/org/neo4j/etl/commands/SchemaExport.java:71-72 | the joins are resolved exactly when the first join's names and the remaining joins are |
| SchemaExport.MissingTableExample | neo4j-etl-cli/src/main/java/org/neo4j/etl/commands/SchemaExport.java:67-86 | with tables A and B, the join A -> C fails for C |
| SchemaExport.MissingTableMessageExample | neo4j-etl-cli/src/main/java/org/neo4j/etl/commands/SchemaExport.java:77-82 | that failure's message is "Config is missing table definition 'C' for join [A -> C]" |
| SchemaExport.CaseInsensitiveExample | neo4j-etl-cli/src/main/java/org/neo4j/etl/commands/SchemaExport.java:75 | with tables A and B, the join a -> b passes |
| SchemaExport.GenerateMetadataMappings | neo4j-etl-cli/src/main/java/org/neo4j/etl/commands/SchemaExport.java:34-50 | fails, with validate's error and no mappings, exactly when validation fails; otherwise returns one mapping per table, then per join, then per join table, each in input order, so the length is the sum |
| JoinTables.JoinTableBuilder.constructor | neo-integration/src/main/java/org/neo4j/integration/sql/metadata/JoinTableBuilder.java:13-17 | a fresh builder has no keys, no columns and waits for the start foreign key |
| JoinTables.JoinTableBuilder.StartForeignKey | neo-integration/src/main/java/org/neo4j/integration/sql/metadata/JoinTableBuilder.java:20-25 | sets only the start foreign key, returns the same builder, and moves on to the start primary key |
| JoinTables.JoinTableBuilder.ConnectsToStartTablePrimaryKey | neo-integration/src/main/java/org/neo4j/integration/sql/metadata/JoinTableBuilder.java:27-32 | sets only the start primary key, returns the same builder, and moves on to the end foreign key |
| JoinTables.JoinTableBuilder.EndForeignKey | neo-integration/src/main/java/org/neo4j/integration/sql/metadata/JoinTableBuilder.java:34-39 | sets only the end foreign key, returns the same builder, and moves on to the end primary key |
| JoinTables.JoinTableBuilder.ConnectsToEndTablePrimaryKey | neo-integration/src/main/java/org/neo4j/integration/sql/metadata/JoinTableBuilder.java:41-46 | sets only the end primary key, returns the same builder, and makes addColumn and build reachable |
| JoinTables.JoinTableBuilder.AddColumn | neo-integration/src/main/java/org/neo4j/integration/sql/metadata/JoinTableBuilder.java:48-53 | appends the column at the end of columns and changes nothing else |
| JoinTables.JoinTableBuilder.Build | neo-integration/src/main/java/org/neo4j/integration/sql/metadata/JoinTableBuilder.java:55-59 | the join table holds the four keys and the columns as currently set |
| JoinTables.BuildJoinTable | neo-integration/src/main/java/org/neo4j/integration/sql/metadata/JoinTableBuilder.java:6-11 | the staged chain of the four keys, two columns and build gives exactly those keys and columns in order |

## Left out

- AsciiText.ToUpper: models Java's `toUpperCase` on ASCII letters only. Locale rules and non-ASCII case mappings are not modelled, nor are mappings that change the length, such as 'ß' to "SS". `equalsIgnoreCase` in `ArrayUtils.containsIgnoreCase` is modelled the same way.
- Strings.orNull is not part of this model. The `Id` constructor takes its blank test as the parameter `blank`.
- The `Formatter` argument of `Id.value` is never used by the source. It is a type parameter here.
- `ColumnToCsvFieldMappings`, `Table`, `Join`, `TableName` and `MetadataMappingProvider` are not part of this model. They appear as type parameters and function parameters: the mappings' encode/decode pair, `Table::descriptor`, `Join.tableNames` with `fullName`, and one provider function per entity kind.
- `IdSpace` and `JoinTable` are not part of this model either. Each is a small concrete datatype here: `IdSpace` holds only the text of `value()`, and `JoinTable` holds the four keys and the columns that `build` hands over.
- IdField: `IdSpace.value()` is assumed non-null. A null value would make `toJson` store a JSON null under id-space (Id.java line 71) and make `value` render `(null)` (lines 48 and 56). IdField.ToJsonHasNoNull and IdField.ToJson rely on this assumption.
- `Id.hashCode` and the details of reflection equality are not modelled. Equality is the structural equality of the datatype.
- The JSON datatype has no key order, no numbers and no pretty-printing. Jackson's `ObjectNode` field order is left out.
- Mapping.ToJson: a `null` graph-object-type would throw in `toJson`, and the datatype cannot hold one.
- JoinTables.JoinTableBuilder.Build: the `JoinTable` constructor is not part of this model, so its copy of the fields is modelled as a value. Any aliasing between the builder's ArrayList and the built table is left out.
- JoinTables.JoinTableBuilder: the Java stage interfaces are compile-time types. They are modelled by the ghost `stage` field and the preconditions of the methods.
- `MetadataMappings` is modelled as a sequence of mappings.
- GraphTypes: SqlDataType and MySqlDataType use two distinct `Neo4jDataType` enums, one in package `org.neo4j.etl.neo4j.importcsv.fields` and one in `org.neo4j.integration.neo4j.importcsv.fields`. Neither enum's source is shown. Both are modelled as the one datatype `GraphTypes.Neo4jDataType`, with constants matched by name.
- SqlDataType's note that TINYINT should be resolved through `TinyIntResolver`: that class is not part of this model, so the tiny-int override is not modelled.
- SqlDataTypes.ParseLowerSpaced: the concrete inputs "int unsigned" and "varchar" appear only as cases of this general lemma over all constants, with no separate lemma per string.
- The JDBC client, the command-line commands and their event listeners: these are I/O, threads and option parsing.
