/**
  The physical model: schemas of tables, each table with ordered columns, a
  primary key and foreign keys; and the full type text a column is declared
  with in generated DDL.
 */
module PhysicalDomain {
  import opened Wrappers
  import opened Decimal

  /** `length` and `scale` are absent (`None`) unless given. */
  datatype Column = Column(
    name: string,
    dataType: string,
    nullable: bool,
    length: Option<int>,
    scale: Option<int>)

  datatype PrimaryKeyConstraint = PrimaryKeyConstraint(name: string, columnNames: seq<string>)

  datatype ForeignKeyConstraint = ForeignKeyConstraint(
    name: string,
    foreignSchemaName: string,
    foreignTableName: string,
    columnNames: seq<string>,
    foreignColumnNames: seq<string>)

  datatype Table = Table(
    name: string,
    primaryKeyConstraint: PrimaryKeyConstraint,
    columns: seq<Column>,
    foreignKeyConstraints: seq<ForeignKeyConstraint>)

  datatype Schema = Schema(name: string, tables: seq<Table>)

  datatype PhysicalModel = PhysicalModel(schemas: seq<Schema>)

  // Record construction with the optional fields left out.

  function NewColumn(name: string, dataType: string, nullable: bool): Column {
    Column(name, dataType, nullable, None, None)
  }

  function NewPrimaryKeyConstraint(name: string): PrimaryKeyConstraint {
    PrimaryKeyConstraint(name, [])
  }

  function NewForeignKeyConstraint(name: string, foreignSchemaName: string, foreignTableName: string): ForeignKeyConstraint {
    ForeignKeyConstraint(name, foreignSchemaName, foreignTableName, [], [])
  }

  function NewTable(name: string, primaryKeyConstraint: PrimaryKeyConstraint): Table {
    Table(name, primaryKeyConstraint, [], [])
  }

  function NewSchema(name: string): Schema {
    Schema(name, [])
  }

  function NewPhysicalModel(): PhysicalModel {
    PhysicalModel([])
  }

  /** Omitted lengths and scales are absent and omitted child lists are empty. */
  lemma Defaults(name: string, dataType: string, nullable: bool, other: string, third: string, pk: PrimaryKeyConstraint)
    ensures NewColumn(name, dataType, nullable).length.None? && NewColumn(name, dataType, nullable).scale.None?
    ensures NewPrimaryKeyConstraint(name).columnNames == []
    ensures NewForeignKeyConstraint(name, other, third).columnNames == []
    ensures NewForeignKeyConstraint(name, other, third).foreignColumnNames == []
    ensures NewTable(name, pk).columns == [] && NewTable(name, pk).foreignKeyConstraints == []
    ensures NewSchema(name).tables == []
    ensures NewPhysicalModel().schemas == []
  {
  }

  // ---------------------------------------------------------------------------
  // Well-formedness of a table

  /** The names of the given columns, in order. */
  function ColumnNames(columns: seq<Column>): (names: seq<string>)
    ensures |names| == |columns|
    ensures forall i :: 0 <= i < |columns| ==> names[i] == columns[i].name
  {
    seq(|columns|, i requires 0 <= i < |columns| => columns[i].name)
  }

  /** Every primary-key column name is the name of a column of the table. */
  predicate PrimaryKeyCovered(t: Table) {
    forall n :: n in t.primaryKeyConstraint.columnNames ==> n in ColumnNames(t.columns)
  }

  /** Every foreign-key column name is the name of a column of the table. */
  predicate ForeignKeysCovered(t: Table) {
    forall fk, n :: fk in t.foreignKeyConstraints && n in fk.columnNames ==> n in ColumnNames(t.columns)
  }

  /** Local and referenced column lists of every foreign key have equal length. */
  predicate ForeignKeysParallel(t: Table) {
    forall fk :: fk in t.foreignKeyConstraints ==> |fk.columnNames| == |fk.foreignColumnNames|
  }

  /** Foreign-key coverage, checked foreign key by foreign key. */
  lemma ForeignKeysCoveredByPosition(t: Table)
    requires forall j :: 0 <= j < |t.foreignKeyConstraints| ==>
               forall n :: n in t.foreignKeyConstraints[j].columnNames ==> n in ColumnNames(t.columns)
    ensures ForeignKeysCovered(t)
  {
  }

  predicate WellFormedTable(t: Table) {
    PrimaryKeyCovered(t) && ForeignKeysCovered(t) && ForeignKeysParallel(t)
  }

  // ---------------------------------------------------------------------------
  // Full type

  predicate EndsWith(s: string, suffix: string) {
    |suffix| <= |s| && s[|s| - |suffix|..] == suffix
  }

  lemma ConcatAssociative(a: string, b: string, c: string)
    ensures a + b + c == a + (b + c)
  {
  }

  /** `a` is a prefix of `a + b`, and `b` starts right after it. */
  lemma PrefixOfConcat(a: string, b: string)
    ensures a <= a + b
    ensures |b| > 0 ==> (a + b)[|a|] == b[0]
  {
  }

  lemma EndsWithConcat(a: string, b: string)
    ensures EndsWith(a + b, b)
  {
    assert (a + b)[|a|..] == b;
  }

  function NullText(nullable: bool): string {
    if nullable then "NULL" else "NOT NULL"
  }

  /**
    What follows the datatype in the type text: `(length, scale)` when both
    are present, `(length)` when only the length is, and nothing otherwise.
   */
  function Parameters(c: Column): string {
    if c.length.Some? && c.scale.Some? then
      "(" + IntToString(c.length.value) + ", " + IntToString(c.scale.value) + ")"
    else if c.length.Some? then
      "(" + IntToString(c.length.value) + ")"
    else
      ""
  }

  /** The type a column is declared with: datatype, parameters, then ` NULL` or ` NOT NULL`. */
  function FullType(c: Column): (r: string)
    ensures c.dataType <= r
    ensures EndsWith(r, " " + NullText(c.nullable))
    ensures |r| > |c.dataType|
    ensures r[|c.dataType|] == '(' <==> c.length.Some?
    ensures c.length.None? ==> |r| == |c.dataType| + 1 + |NullText(c.nullable)|
  {
    var suffix := " " + NullText(c.nullable);
    var typeText := c.dataType + Parameters(c);
    var r := typeText + suffix;
    assert r == c.dataType + (Parameters(c) + suffix) by {
      ConcatAssociative(c.dataType, Parameters(c), suffix);
    }
    assert c.dataType <= r && r[|c.dataType|] == (Parameters(c) + suffix)[0] by {
      PrefixOfConcat(c.dataType, Parameters(c) + suffix);
    }
    assert EndsWith(r, suffix) by {
      EndsWithConcat(typeText, suffix);
    }
    r
  }

  lemma FullTypeParts(c: Column)
    ensures FullType(c) == c.dataType + (Parameters(c) + " " + NullText(c.nullable))
  {
  }

  /** Without a length the scale is not rendered, whatever it is. */
  lemma FullTypeIgnoresScaleWithoutLength(c: Column, scale: Option<int>)
    requires c.length.None?
    ensures FullType(c.(scale := scale)) == FullType(c)
  {
  }

  /** Characters that end the rendering of an integer inside the parameters. */
  predicate IsStop(ch: char) {
    ch == ',' || ch == ')'
  }

  predicate NoStop(s: string) {
    forall k :: 0 <= k < |s| ==> !IsStop(s[k])
  }

  /** In `a + [d] + x` the first stop character is the one at position `|a|`. */
  lemma FirstStopAt(a: string, d: char, x: string)
    requires NoStop(a) && IsStop(d)
    ensures IsStop((a + [d] + x)[|a|])
    ensures forall k :: 0 <= k < |a| ==> !IsStop((a + [d] + x)[k])
  {
  }

  /** A concatenation split at the first stop character splits in one way only. */
  lemma SplitAtStop(a: string, d1: char, x: string, b: string, d2: char, y: string)
    requires NoStop(a) && NoStop(b) && IsStop(d1) && IsStop(d2)
    requires a + [d1] + x == b + [d2] + y
    ensures a == b && d1 == d2 && x == y
  {
    FirstStopAt(a, d1, x);
    FirstStopAt(b, d2, y);
    var s := a + [d1] + x;
    assert |a| == |b|;
    assert a == s[..|a|] == b;
    assert x == s[|a| + 1..] == y;
  }

  lemma IntTextNoStop(i: int)
    ensures NoStop(IntToString(i))
  {
    IntToStringChars(i);
  }

  lemma NullTextInjective(n1: bool, n2: bool)
    requires NullText(n1) == NullText(n2)
    ensures n1 == n2
  {
    assert |NullText(true)| != |NullText(false)|;
  }

  /** The text after the datatype opens a parenthesis exactly when a length is present. */
  lemma TailStart(c: Column)
    ensures |Parameters(c) + " " + NullText(c.nullable)| > 0
    ensures (Parameters(c) + " " + NullText(c.nullable))[0] == '(' <==> c.length.Some?
  {
  }

  /** The stop character that follows the rendered length. */
  function StopAfterLength(c: Column): char {
    if c.scale.Some? then ',' else ')'
  }

  /** What follows that stop character. */
  function AfterLength(c: Column): string {
    if c.scale.Some? then " " + (IntToString(c.scale.value) + [')'] + (" " + NullText(c.nullable)))
    else " " + NullText(c.nullable)
  }

  lemma TailWithLength(c: Column)
    requires c.length.Some?
    ensures Parameters(c) + " " + NullText(c.nullable)
         == "(" + (IntToString(c.length.value) + [StopAfterLength(c)] + AfterLength(c))
  {
    if c.scale.Some? {
      ScaledRegroup(IntToString(c.length.value), IntToString(c.scale.value), NullText(c.nullable));
    } else {
      UnscaledRegroup(IntToString(c.length.value), NullText(c.nullable));
    }
  }

  lemma ScaledRegroup(l: string, s: string, n: string)
    ensures "(" + l + ", " + s + ")" + " " + n == "(" + (l + [','] + (" " + (s + [')'] + (" " + n))))
  {
  }

  lemma UnscaledRegroup(l: string, n: string)
    ensures "(" + l + ")" + " " + n == "(" + (l + [')'] + (" " + n))
  {
  }

  /** The text after a rendered length determines the scale and the nullability. */
  lemma AfterLengthDetermines(c1: Column, c2: Column)
    requires StopAfterLength(c1) == StopAfterLength(c2)
    requires AfterLength(c1) == AfterLength(c2)
    ensures c1.nullable == c2.nullable && c1.scale == c2.scale
  {
    if c1.scale.Some? {
      ScaleTailDetermines(c1, c2);
    } else {
      assert NullText(c1.nullable) == AfterLength(c1)[1..] == NullText(c2.nullable);
      NullTextInjective(c1.nullable, c2.nullable);
    }
  }

  lemma DropFirst(ch: char, a: string)
    ensures ([ch] + a)[1..] == a
  {
  }

  /** With a scale, `" " + scale + ")" + " " + nullability` determines both. */
  lemma ScaleTailDetermines(c1: Column, c2: Column)
    requires c1.scale.Some? && c2.scale.Some?
    requires AfterLength(c1) == AfterLength(c2)
    ensures c1.nullable == c2.nullable && c1.scale == c2.scale
  {
    var s1, s2 := IntToString(c1.scale.value), IntToString(c2.scale.value);
    var n1, n2 := " " + NullText(c1.nullable), " " + NullText(c2.nullable);
    IntTextNoStop(c1.scale.value);
    IntTextNoStop(c2.scale.value);
    DropFirst(' ', s1 + [')'] + n1);
    DropFirst(' ', s2 + [')'] + n2);
    SplitAtStop(s1, ')', n1, s2, ')', n2);
    IntToStringInjective(c1.scale.value, c2.scale.value);
    assert NullText(c1.nullable) == n1[1..] == NullText(c2.nullable);
    NullTextInjective(c1.nullable, c2.nullable);
  }

  /**
    For a given datatype the full type determines the nullability, the
    length, and the scale whenever a length is present: no information the
    DDL relies on is lost in the rendering.
   */
  lemma FullTypeDetermines(c1: Column, c2: Column)
    requires c1.dataType == c2.dataType
    requires FullType(c1) == FullType(c2)
    ensures c1.nullable == c2.nullable
    ensures c1.length == c2.length
    ensures c1.length.Some? ==> c1.scale == c2.scale
  {
    FullTypeParts(c1);
    FullTypeParts(c2);
    var n := |c1.dataType|;
    var t1 := Parameters(c1) + " " + NullText(c1.nullable);
    var t2 := Parameters(c2) + " " + NullText(c2.nullable);
    assert t1 == FullType(c1)[n..] == t2;
    TailStart(c1);
    TailStart(c2);
    assert c1.length.Some? == c2.length.Some?;
    if c1.length.Some? {
      var l1, l2 := IntToString(c1.length.value), IntToString(c2.length.value);
      IntTextNoStop(c1.length.value);
      IntTextNoStop(c2.length.value);
      TailWithLength(c1);
      TailWithLength(c2);
      assert l1 + [StopAfterLength(c1)] + AfterLength(c1) == t1[1..] == l2 + [StopAfterLength(c2)] + AfterLength(c2);
      SplitAtStop(l1, StopAfterLength(c1), AfterLength(c1), l2, StopAfterLength(c2), AfterLength(c2));
      IntToStringInjective(c1.length.value, c2.length.value);
      AfterLengthDetermines(c1, c2);
    } else {
      assert NullText(c1.nullable) == t1[1..] == NullText(c2.nullable);
      NullTextInjective(c1.nullable, c2.nullable);
    }
  }

  /**
    The datatype is copied verbatim, so across datatypes the full type is
    ambiguous: a nullable `x NOT` and a non-nullable `x` render alike.
   */
  lemma FullTypeAmbiguousAcrossDatatypes()
    ensures FullType(NewColumn("a", "x NOT", true)) == FullType(NewColumn("a", "x", false)) == "x NOT NULL"
  {
    assert Parameters(NewColumn("a", "x NOT", true)) == "";
    assert Parameters(NewColumn("a", "x", false)) == "";
  }

  /** The nullability suffixes spelled out. */
  lemma NullTextSuffixes()
    ensures " " + NullText(true) == " NULL"
    ensures " " + NullText(false) == " NOT NULL"
  {
  }

  /** A column without length renders as its datatype and nullability. */
  lemma FullTypePlainExample()
    ensures FullType(NewColumn("id", "int", true)) == "int NULL"
  {
    var c := NewColumn("id", "int", true);
    assert Parameters(c) == "";
  }

  /** The length every string column gets. */
  lemma IntToString255()
    ensures IntToString(255) == "255"
  {
    assert NatToString(25) == "25" by {
      assert NatToString(2) == "2";
    }
  }

  lemma FullTypeLengthExample()
    ensures FullType(Column("name", "nvarchar", false, Some(255), None)) == "nvarchar(255) NOT NULL"
  {
    var c := Column("name", "nvarchar", false, Some(255), None);
    IntToString255();
    assert Parameters(c) == "(255)";
  }

  /** A nullable `nvarchar` of length 255, as every string property becomes. */
  lemma FullTypeStringExample()
    ensures FullType(Column("address", "nvarchar", true, Some(255), None)) == "nvarchar(255) NULL"
  {
    var c := Column("address", "nvarchar", true, Some(255), None);
    IntToString255();
    assert Parameters(c) == "(255)";
  }

  /** Length and scale are separated by a comma and a space. */
  lemma FullTypeScaleExample()
    ensures FullType(Column("amount", "numeric", true, Some(10), Some(3))) == "numeric(10, 3) NULL"
  {
    var c := Column("amount", "numeric", true, Some(10), Some(3));
    assert IntToString(10) == "10" by {
      assert NatToString(1) == "1";
    }
    assert IntToString(3) == "3";
    assert Parameters(c) == "(10, 3)";
  }
}
