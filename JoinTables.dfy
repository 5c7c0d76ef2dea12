/**
 * JoinTableBuilder of neo-integration: the staged builder of a JoinTable.
 * Its stage interfaces let a caller set the start foreign key, the start
 * table's primary key, the end foreign key and the end table's primary key
 * in that order, and only then add columns and build. The ghost field
 * `stage` stands for the interface type the caller currently holds.
 *
 * Column is a collaborator kept abstract as the type parameter C.
 */
module JoinTables {
  import opened Wrappers

  /** The stage interfaces, in the order the builder passes through them. */
  datatype Stage = SetStartForeignKey | SetStartPrimaryKey | SetEndForeignKey | SetEndPrimaryKey | Ready

  /** The position of a stage in that order. */
  function Rank(s: Stage): nat
  {
    match s
    case SetStartForeignKey => 0
    case SetStartPrimaryKey => 1
    case SetEndForeignKey => 2
    case SetEndPrimaryKey => 3
    case Ready => 4
  }

  /** What build() hands to the JoinTable constructor: the four keys and the extra columns. */
  datatype JoinTable<C> = JoinTable(
    startForeignKey: C, startPrimaryKey: C, endForeignKey: C, endPrimaryKey: C, columns: seq<C>)

  class JoinTableBuilder<C> {
    var startForeignKey: Option<C>
    var startPrimaryKey: Option<C>
    var endPrimaryKey: Option<C>
    var endForeignKey: Option<C>
    var columns: seq<C>
    ghost var stage: Stage

    /** A key is set exactly when its stage has been passed; columns come only after all four. */
    ghost predicate Valid()
      reads this
    {
      && (startForeignKey.Some? <==> Rank(stage) > 0)
      && (startPrimaryKey.Some? <==> Rank(stage) > 1)
      && (endForeignKey.Some? <==> Rank(stage) > 2)
      && (endPrimaryKey.Some? <==> Rank(stage) > 3)
      && (columns != [] ==> stage == Ready)
    }

    /** A fresh builder: no key set and an empty column list. */
    constructor ()
      ensures Valid() && stage == SetStartForeignKey
      ensures startForeignKey == None && startPrimaryKey == None
      ensures endForeignKey == None && endPrimaryKey == None
      ensures columns == []
    {
      startForeignKey, startPrimaryKey, endPrimaryKey, endForeignKey := None, None, None, None;
      columns := [];
      stage := SetStartForeignKey;
    }

    /** startForeignKey(column): sets only the start foreign key and returns this builder. */
    method StartForeignKey(column: C) returns (next: JoinTableBuilder<C>)
      requires Valid() && stage == SetStartForeignKey
      modifies this
      ensures Valid() && stage == SetStartPrimaryKey && next == this
      ensures startForeignKey == Some(column)
      ensures startPrimaryKey == old(startPrimaryKey) && endForeignKey == old(endForeignKey)
      ensures endPrimaryKey == old(endPrimaryKey) && columns == old(columns)
    {
      startForeignKey := Some(column);
      stage := SetStartPrimaryKey;
      next := this;
    }

    /** connectsToStartTablePrimaryKey(column): sets only the start table's primary key. */
    method ConnectsToStartTablePrimaryKey(column: C) returns (next: JoinTableBuilder<C>)
      requires Valid() && stage == SetStartPrimaryKey
      modifies this
      ensures Valid() && stage == SetEndForeignKey && next == this
      ensures startPrimaryKey == Some(column)
      ensures startForeignKey == old(startForeignKey) && endForeignKey == old(endForeignKey)
      ensures endPrimaryKey == old(endPrimaryKey) && columns == old(columns)
    {
      startPrimaryKey := Some(column);
      stage := SetEndForeignKey;
      next := this;
    }

    /** endForeignKey(column): sets only the end foreign key. */
    method EndForeignKey(column: C) returns (next: JoinTableBuilder<C>)
      requires Valid() && stage == SetEndForeignKey
      modifies this
      ensures Valid() && stage == SetEndPrimaryKey && next == this
      ensures endForeignKey == Some(column)
      ensures startForeignKey == old(startForeignKey) && startPrimaryKey == old(startPrimaryKey)
      ensures endPrimaryKey == old(endPrimaryKey) && columns == old(columns)
    {
      endForeignKey := Some(column);
      stage := SetEndPrimaryKey;
      next := this;
    }

    /** connectsToEndTablePrimaryKey(column): sets only the end table's primary key; columns and build become available. */
    method ConnectsToEndTablePrimaryKey(column: C) returns (next: JoinTableBuilder<C>)
      requires Valid() && stage == SetEndPrimaryKey
      modifies this
      ensures Valid() && stage == Ready && next == this
      ensures endPrimaryKey == Some(column)
      ensures startForeignKey == old(startForeignKey) && startPrimaryKey == old(startPrimaryKey)
      ensures endForeignKey == old(endForeignKey) && columns == old(columns)
    {
      endPrimaryKey := Some(column);
      stage := Ready;
      next := this;
    }

    /** addColumn(column): appends the column at the end and changes nothing else. */
    method AddColumn(column: C) returns (next: JoinTableBuilder<C>)
      requires Valid() && stage == Ready
      modifies this
      ensures Valid() && stage == Ready && next == this
      ensures columns == old(columns) + [column]
      ensures startForeignKey == old(startForeignKey) && startPrimaryKey == old(startPrimaryKey)
      ensures endForeignKey == old(endForeignKey) && endPrimaryKey == old(endPrimaryKey)
    {
      columns := columns + [column];
      next := this;
    }

    /** build(): a join table with the four keys and the columns as they are now. */
    method Build() returns (table: JoinTable<C>)
      requires Valid() && stage == Ready
      ensures Some(table.startForeignKey) == startForeignKey
      ensures Some(table.startPrimaryKey) == startPrimaryKey
      ensures Some(table.endForeignKey) == endForeignKey
      ensures Some(table.endPrimaryKey) == endPrimaryKey
      ensures table.columns == columns
    {
      table := JoinTable(startForeignKey.value, startPrimaryKey.value, endForeignKey.value,
                         endPrimaryKey.value, columns);
    }
  }

  /**
   * The one order the stage interfaces allow: four keys, then columns, then
   * build. The result holds every argument in its own slot and the columns
   * in the order they were added.
   */
  method BuildJoinTable<C>(startFk: C, startPk: C, endFk: C, endPk: C, first: C, second: C)
    returns (table: JoinTable<C>)
    ensures table == JoinTable(startFk, startPk, endFk, endPk, [first, second])
  {
    var builder := new JoinTableBuilder<C>();
    var b := builder.StartForeignKey(startFk);
    b := b.ConnectsToStartTablePrimaryKey(startPk);
    b := b.EndForeignKey(endFk);
    b := b.ConnectsToEndTablePrimaryKey(endPk);
    b := b.AddColumn(first);
    b := b.AddColumn(second);
    table := b.Build();
  }
}
