/**
 * The schema section of the system prompt (`generateSchemaPrompt`): a header
 * followed by one block per table listing its columns, each with its data
 * type and a nullability marker. The same function body appears in both the
 * full and the simple query service.
 */
module SchemaPrompt {
  import opened Wrappers
  import opened Text

  /** One row of `information_schema.columns` as read by `getTableSchema`. */
  datatype Column = Column(name: string, dataType: string, isNullable: string, columnDefault: Option<string>)

  /** A table and its columns in ordinal position order. */
  datatype Table = Table(name: string, columns: seq<Column>)

  /** The schema object in the order `Object.entries` yields its tables. */
  type Schema = seq<Table>

  const Header: string := "Database Schema:\n\n"
  const NullableMarker: string := ", nullable"

  /** `- name (type)` or `- name (type, nullable)`, newline-terminated. */
  function ColumnLine(c: Column): string {
    "- " + c.name + " (" + c.dataType + (if c.isNullable == "YES" then NullableMarker else "") + ")\n"
  }

  /** The column lines of `cols`, in order. */
  function ColumnLines(cols: seq<Column>): string {
    if |cols| == 0 then "" else ColumnLines(cols[..|cols| - 1]) + ColumnLine(cols[|cols| - 1])
  }

  function TableHeading(t: Table): string {
    "Table: " + t.name + "\n" + "Columns:\n"
  }

  /** A table's block: heading, column lines, and a blank line. */
  function TableBlock(t: Table): string {
    TableHeading(t) + ColumnLines(t.columns) + "\n"
  }

  /** The blocks of all tables, in schema order. */
  function Blocks(schema: Schema): string {
    if |schema| == 0 then "" else Blocks(schema[..|schema| - 1]) + TableBlock(schema[|schema| - 1])
  }

  /** The reference rendering: the header followed by every table's block. */
  function Render(schema: Schema): string {
    Header + Blocks(schema)
  }

  /**
   * The source's accumulating loops: start from the header, then for each
   * table append its heading, one line per column and a blank line. The
   * result is the reference rendering; in particular an empty schema renders
   * exactly the header, and every prompt starts with it.
   */
  method GenerateSchemaPrompt(schema: Schema) returns (prompt: string)
    ensures prompt == Render(schema)
    ensures StartsWith(prompt, Header)
    ensures |schema| == 0 ==> prompt == Header
  {
    prompt := Header;
    var i := 0;
    while i < |schema|
      invariant 0 <= i <= |schema|
      invariant prompt == Header + Blocks(schema[..i])
    {
      prompt := AppendTable(prompt, schema[i]);
      BlocksStep(schema, i);
      i := i + 1;
    }
    assert schema[..i] == schema;
  }

  /** The body of the outer loop: append one table's heading, column lines and blank line. */
  method AppendTable(prompt: string, t: Table) returns (r: string)
    ensures r == prompt + TableBlock(t)
  {
    r := prompt + "Table: " + t.name + "\n";
    r := r + "Columns:\n";
    var j := 0;
    while j < |t.columns|
      invariant 0 <= j <= |t.columns|
      invariant r == prompt + TableHeading(t) + ColumnLines(t.columns[..j])
    {
      ColumnLinesStep(t.columns, j);
      r := r + ColumnLine(t.columns[j]);
      j := j + 1;
    }
    assert t.columns[..j] == t.columns;
    r := r + "\n";
  }

  lemma ColumnLinesStep(cols: seq<Column>, j: nat)
    requires j < |cols|
    ensures ColumnLines(cols[..j + 1]) == ColumnLines(cols[..j]) + ColumnLine(cols[j])
  {
    assert cols[..j + 1][..j] == cols[..j];
  }

  lemma BlocksStep(schema: Schema, i: nat)
    requires i < |schema|
    ensures Blocks(schema[..i + 1]) == Blocks(schema[..i]) + TableBlock(schema[i])
  {
    assert schema[..i + 1][..i] == schema[..i];
  }

  /**
   * A column line carries the nullable marker exactly when `is_nullable` is
   * the string "YES"; otherwise it is the bare `- name (type)` line.
   */
  lemma NullableMarkerIff(c: Column)
    ensures ColumnLine(c) == "- " + c.name + " (" + c.dataType + NullableMarker + ")\n" <==> c.isNullable == "YES"
    ensures c.isNullable != "YES" ==> ColumnLine(c) == "- " + c.name + " (" + c.dataType + ")\n"
  {
    if c.isNullable != "YES" {
      assert |ColumnLine(c)| == 6 + |c.name| + |c.dataType|;
    }
  }

  /** Two schemas that differ only in their columns' defaults. */
  predicate SameButDefaults(a: Schema, b: Schema) {
    && |a| == |b|
    && forall i :: 0 <= i < |a| ==>
         && a[i].name == b[i].name
         && |a[i].columns| == |b[i].columns|
         && forall j :: 0 <= j < |a[i].columns| ==>
              a[i].columns[j].(columnDefault := None) == b[i].columns[j].(columnDefault := None)
  }

  /** `column_default` never influences the prompt. */
  lemma {:induction false} DefaultsIgnored(a: Schema, b: Schema)
    requires SameButDefaults(a, b)
    ensures Render(a) == Render(b)
  {
    BlocksIgnoreDefaults(a, b);
  }

  lemma {:induction false} BlocksIgnoreDefaults(a: Schema, b: Schema)
    requires SameButDefaults(a, b)
    ensures Blocks(a) == Blocks(b)
  {
    if |a| > 0 {
      var n := |a| - 1;
      assert SameButDefaults(a[..n], b[..n]);
      BlocksIgnoreDefaults(a[..n], b[..n]);
      ColumnLinesIgnoreDefaults(a[n].columns, b[n].columns);
    }
  }

  lemma {:induction false} ColumnLinesIgnoreDefaults(a: seq<Column>, b: seq<Column>)
    requires |a| == |b|
    requires forall j :: 0 <= j < |a| ==> a[j].(columnDefault := None) == b[j].(columnDefault := None)
    ensures ColumnLines(a) == ColumnLines(b)
  {
    if |a| > 0 {
      var n := |a| - 1;
      ColumnLinesIgnoreDefaults(a[..n], b[..n]);
      assert a[n].(columnDefault := None) == b[n].(columnDefault := None);
    }
  }

  /**
   * Adding a table appends exactly that table's block (its heading, one line
   * per column in the given order, and a blank line) and leaves the text
   * rendered for the earlier tables untouched.
   */
  lemma {:induction false} RenderAddTable(schema: Schema, t: Table)
    ensures Render(schema + [t]) == Render(schema) + TableBlock(t)
  {
    var s := schema + [t];
    BlocksStep(s, |schema|);
    assert s[..|schema|] == schema && s[..|schema| + 1] == s;
  }
}
