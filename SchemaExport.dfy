/**
 * SchemaExport of neo4j-etl-cli: checks that every table a join names is
 * declared, then asks the mapping provider for one mapping per table, per
 * join and per join table, in that order.
 *
 * Table, Join and JoinTable are collaborators kept abstract as the type
 * parameters T, J and JT; the model sees a table only through Table.descriptor()
 * and a join only through the full names of its Join.tableNames().
 */
module SchemaExport {
  import opened Wrappers
  import opened AsciiText

  /**
   * MetadataMappingProvider: the visitor that turns each kind of schema
   * entity into a mapping. Its formatting, SQL supplier, relationship-name
   * and tiny-int resolvers are folded into these three functions.
   */
  datatype Provider<!T, !J, !JT, M> = Provider(forTable: T -> M, forJoin: J -> M, forJoinTable: JT -> M)

  /** The IllegalStateException validate throws: the missing full name and the join's table names. */
  datatype MissingTableDefinition = MissingTableDefinition(fullName: string, joinTableNames: seq<string>)

  /** The exception's message. */
  function Message(e: MissingTableDefinition): string
  {
    "Config is missing table definition '" + e.fullName + "' for join [" + Join(e.joinTableNames, " -> ") + "]"
  }

  /** tables.stream().map(Table::descriptor).collect(toList()). */
  function Descriptors<T>(tables: seq<T>, descriptor: T -> string): (r: seq<string>)
    ensures |r| == |tables|
    ensures forall i :: 0 <= i < |tables| ==> r[i] == descriptor(tables[i])
  {
    seq(|tables|, i requires 0 <= i < |tables| => descriptor(tables[i]))
  }

  /** Every table name of every join is among the declared names, ignoring case. */
  ghost predicate AllJoinsResolved<J>(declared: seq<string>, joins: seq<J>, tableNames: J -> seq<string>)
  {
    forall i, k :: 0 <= i < |joins| && 0 <= k < |tableNames(joins[i])| ==>
      ContainsIgnoreCase(declared, tableNames(joins[i])[k])
  }

  /**
   * Name k of join i is the first miss: it is not declared, while every name
   * of every earlier join and every earlier name of join i is.
   */
  ghost predicate IsFirstMiss<J>(declared: seq<string>, joins: seq<J>, tableNames: J -> seq<string>, i: int, k: int)
  {
    && 0 <= i < |joins| && 0 <= k < |tableNames(joins[i])|
    && !ContainsIgnoreCase(declared, tableNames(joins[i])[k])
    && AllJoinsResolved(declared, joins[..i], tableNames)
    && (forall k' :: 0 <= k' < k ==> ContainsIgnoreCase(declared, tableNames(joins[i])[k']))
  }

  /** The inner forEach: the first name of one join that is not declared. */
  function FirstUndeclared(declared: seq<string>, names: seq<string>): (r: Option<nat>)
    ensures r.None? ==> forall k :: 0 <= k < |names| ==> ContainsIgnoreCase(declared, names[k])
    ensures r.Some? ==>
              && r.value < |names|
              && !ContainsIgnoreCase(declared, names[r.value])
              && forall k :: 0 <= k < r.value ==> ContainsIgnoreCase(declared, names[k])
  {
    if names == [] then None
    else if !ContainsIgnoreCase(declared, names[0]) then Some(0)
    else match FirstUndeclared(declared, names[1..])
      case None => None
      case Some(k) => Some(k + 1)
  }

  /** The outer forEach over the joins, throwing for the first miss. */
  function CheckJoins<J>(declared: seq<string>, joins: seq<J>, tableNames: J -> seq<string>)
    : (r: Outcome<MissingTableDefinition>)
    ensures r.Pass? <==> AllJoinsResolved(declared, joins, tableNames)
    ensures r.Fail? ==>
              exists i, k :: IsFirstMiss(declared, joins, tableNames, i, k) &&
                r.error == MissingTableDefinition(tableNames(joins[i])[k], tableNames(joins[i]))
  {
    if joins == [] then Pass
    else
      var names := tableNames(joins[0]);
      match FirstUndeclared(declared, names)
      case Some(k) =>
        assert IsFirstMiss(declared, joins, tableNames, 0, k);
        Fail(MissingTableDefinition(names[k], names))
      case None =>
        var rest := CheckJoins(declared, joins[1..], tableNames);
        JoinsResolvedCons(declared, joins, tableNames);
        if rest.Fail? then
          assert exists i, k :: IsFirstMiss(declared, joins, tableNames, i, k) &&
                   rest.error == MissingTableDefinition(tableNames(joins[i])[k], tableNames(joins[i])) by {
            var i, k :| IsFirstMiss(declared, joins[1..], tableNames, i, k) &&
                        rest.error == MissingTableDefinition(tableNames(joins[1..][i])[k], tableNames(joins[1..][i]));
            assert joins[1..][..i] == joins[1..i + 1];
            JoinsResolvedCons(declared, joins[..i + 1], tableNames);
            assert joins[..i + 1][1..] == joins[1..i + 1];
            assert IsFirstMiss(declared, joins, tableNames, i + 1, k);
          }
          rest
        else rest
  }

  /** The joins are resolved exactly when the first one and the rest are. */
  lemma JoinsResolvedCons<J>(declared: seq<string>, joins: seq<J>, tableNames: J -> seq<string>)
    requires joins != []
    ensures AllJoinsResolved(declared, joins, tableNames) <==>
              (forall k :: 0 <= k < |tableNames(joins[0])| ==> ContainsIgnoreCase(declared, tableNames(joins[0])[k])) &&
              AllJoinsResolved(declared, joins[1..], tableNames)
  {
    if AllJoinsResolved(declared, joins[1..], tableNames) {
      forall i, k | 1 <= i < |joins| && 0 <= k < |tableNames(joins[i])|
        ensures ContainsIgnoreCase(declared, tableNames(joins[i])[k])
      {
        assert joins[i] == joins[1..][i - 1];
      }
    }
    if AllJoinsResolved(declared, joins, tableNames) {
      forall i, k | 0 <= i < |joins| - 1 && 0 <= k < |tableNames(joins[1..][i])|
        ensures ContainsIgnoreCase(declared, tableNames(joins[1..][i])[k])
      {
        assert joins[1..][i] == joins[i + 1];
      }
    }
  }

  /**
   * validate(): compares the full name of every table of every join with the
   * descriptors of the declared tables, ignoring case. Join tables are not
   * checked.
   */
  function Validate<T, J>(tables: seq<T>, joins: seq<J>, descriptor: T -> string, tableNames: J -> seq<string>)
    : (r: Outcome<MissingTableDefinition>)
    ensures r.Pass? <==> AllJoinsResolved(Descriptors(tables, descriptor), joins, tableNames)
    ensures r.Fail? ==>
              exists i, k :: IsFirstMiss(Descriptors(tables, descriptor), joins, tableNames, i, k) &&
                r.error == MissingTableDefinition(tableNames(joins[i])[k], tableNames(joins[i]))
  {
    CheckJoins(Descriptors(tables, descriptor), joins, tableNames)
  }

  /** Joins that name only declared descriptors, spelled exactly, always validate. */
  lemma DeclaredNamesValidate<T, J>(tables: seq<T>, joins: seq<J>, descriptor: T -> string, tableNames: J -> seq<string>)
    requires forall i, k :: 0 <= i < |joins| && 0 <= k < |tableNames(joins[i])| ==>
               tableNames(joins[i])[k] in Descriptors(tables, descriptor)
    ensures Validate(tables, joins, descriptor, tableNames) == Pass
  {
    var declared := Descriptors(tables, descriptor);
    forall i, k | 0 <= i < |joins| && 0 <= k < |tableNames(joins[i])|
      ensures ContainsIgnoreCase(declared, tableNames(joins[i])[k])
    {
      var j :| 0 <= j < |declared| && declared[j] == tableNames(joins[i])[k];
      ContainsIgnoreCaseOfMember(declared, j);
    }
  }

  /** A table given by its descriptor alone, and a join given by its table names alone. */
  function Itself<X>(x: X): X { x }

  /** With tables A and B declared, a join from A to C fails naming C and the join A -> C. */
  lemma MissingTableExample()
    ensures Validate(["A", "B"], [["A", "C"]], Itself, Itself) ==
              Fail(MissingTableDefinition("C", ["A", "C"]))
  {
    var declared := Descriptors(["A", "B"], Itself);
    assert declared == ["A", "B"];
    assert EqualsIgnoreCase(declared[0], "A");
    assert ToUpper("C") == "C" && ToUpper("A") == "A" && ToUpper("B") == "B";
    assert !ContainsIgnoreCase(declared, "C");
    assert FirstUndeclared(declared, ["C"]) == Some(0);
    assert ["A", "C"][1..] == ["C"];
    assert FirstUndeclared(declared, ["A", "C"]) == Some(1);
  }

  /** The message of that failure. */
  lemma MissingTableMessageExample()
    ensures Message(MissingTableDefinition("C", ["A", "C"])) ==
              "Config is missing table definition 'C' for join [A -> C]"
  {
    assert Join(["A", "C"], " -> ") == "A -> C";
  }

  /** Names are compared ignoring case: a join from "a" to "b" finds tables A and B. */
  lemma CaseInsensitiveExample()
    ensures Validate(["A", "B"], [["a", "b"]], Itself, Itself) == Pass
  {
    var declared := Descriptors(["A", "B"], Itself);
    assert declared == ["A", "B"];
    assert ToUpper("a") == "A" && ToUpper("b") == "B" && ToUpper("A") == "A" && ToUpper("B") == "B";
    assert EqualsIgnoreCase(declared[0], "a") && EqualsIgnoreCase(declared[1], "b");
    assert FirstUndeclared(declared, ["b"]) == None;
    assert ["a", "b"][1..] == ["b"];
    assert FirstUndeclared(declared, ["a", "b"]) == None;
  }

  /**
   * generateMetadataMappings(): validate first; on a miss nothing is
   * produced. Otherwise one mapping per table, then per join, then per join
   * table, each in input order.
   */
  method GenerateMetadataMappings<T, J, JT, M>(
    tables: seq<T>, joins: seq<J>, joinTables: seq<JT>,
    descriptor: T -> string, tableNames: J -> seq<string>,
    provider: Provider<T, J, JT, M>)
    returns (r: Result<seq<M>, MissingTableDefinition>)
    ensures r.Failure? <==> !AllJoinsResolved(Descriptors(tables, descriptor), joins, tableNames)
    ensures r.Failure? ==> Validate(tables, joins, descriptor, tableNames) == Fail(r.error)
    ensures r.Success? ==> |r.value| == |tables| + |joins| + |joinTables|
    ensures r.Success? ==> forall i :: 0 <= i < |tables| ==> r.value[i] == provider.forTable(tables[i])
    ensures r.Success? ==> forall i :: 0 <= i < |joins| ==> r.value[|tables| + i] == provider.forJoin(joins[i])
    ensures r.Success? ==> forall i :: 0 <= i < |joinTables| ==>
              r.value[|tables| + |joins| + i] == provider.forJoinTable(joinTables[i])
  {
    var outcome := Validate(tables, joins, descriptor, tableNames);
    if outcome.Fail? {
      return Failure(outcome.error);
    }
    var mappings: seq<M> := [];
    for i := 0 to |tables|
      invariant |mappings| == i
      invariant forall k :: 0 <= k < i ==> mappings[k] == provider.forTable(tables[k])
    {
      mappings := mappings + [provider.forTable(tables[i])];
    }
    for i := 0 to |joins|
      invariant |mappings| == |tables| + i
      invariant forall k :: 0 <= k < |tables| ==> mappings[k] == provider.forTable(tables[k])
      invariant forall k :: 0 <= k < i ==> mappings[|tables| + k] == provider.forJoin(joins[k])
    {
      mappings := mappings + [provider.forJoin(joins[i])];
    }
    for i := 0 to |joinTables|
      invariant |mappings| == |tables| + |joins| + i
      invariant forall k :: 0 <= k < |tables| ==> mappings[k] == provider.forTable(tables[k])
      invariant forall k :: 0 <= k < |joins| ==> mappings[|tables| + k] == provider.forJoin(joins[k])
      invariant forall k :: 0 <= k < i ==> mappings[|tables| + |joins| + k] == provider.forJoinTable(joinTables[k])
    {
      mappings := mappings + [provider.forJoinTable(joinTables[i])];
    }
    return Success(mappings);
  }
}
