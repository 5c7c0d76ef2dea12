/**
 * The property types of the Neo4j bulk import tool that SQL column types
 * resolve to. The neo4j-etl and neo-integration modules each declare their
 * own Neo4jDataType enum; both are this one datatype, constants matched by name.
 */
module GraphTypes {

  datatype Neo4jDataType = Byte | Short | Int | Long | Float | Double | String
}
