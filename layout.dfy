/**
 The emitted text described line by line. `BlockLines` lists the lines of
 one table block and `OutputLines` those of the whole module; the lemmas
 here prove that the text `GenerateCode` and `Main` assemble is exactly
 those lines joined with newlines, and, when no collaborator result holds a
 newline, that splitting the text at newlines gives them back, so each
 line stated below is a line of the generated file.
 */
module Layout {
  import opened Text
  import opened Codegen

  function MemberLine<O>(g: GeneratedField<O>): (line: string)
  {
    "  " + g.jsName + ": " + g.jsType + ","
  }

  function MappingLine<O>(h: Collaborators<O>, g: GeneratedField<O>): (line: string)
  {
    "    " + g.jsName + ": '" + h.escapeString(g.field.id) + "',"
  }

  function SchemaLine<O>(h: Collaborators<O>, g: GeneratedField<O>): (line: string)
  {
    "    " + g.jsName + ": '" + h.escapeString(g.jsType) + "',"
  }

  function MemberLines<O>(fields: seq<GeneratedField<O>>): (r: seq<string>)
    ensures |r| == |fields|
  {
    seq(|fields|, i requires 0 <= i < |fields| => MemberLine(fields[i]))
  }

  function MappingLines<O>(h: Collaborators<O>, fields: seq<GeneratedField<O>>): (r: seq<string>)
    ensures |r| == |fields|
  {
    seq(|fields|, i requires 0 <= i < |fields| => MappingLine(h, fields[i]))
  }

  function SchemaLines<O>(h: Collaborators<O>, fields: seq<GeneratedField<O>>): (r: seq<string>)
    ensures |r| == |fields|
  {
    seq(|fields|, i requires 0 <= i < |fields| => SchemaLine(h, fields[i]))
  }

  function InterfaceHead<O>(h: Collaborators<O>, t: TableSchema<O>): (line: string)
  {
    "export interface " + ItemName(h, t) + " extends Item {"
  }

  function BindingHead<O>(h: Collaborators<O>, t: TableSchema<O>): (line: string)
  {
    "export const " + TableBindingName(h, t) + ": Table<" + ItemName(h, t) + "> = {"
  }

  function NameLine<O>(h: Collaborators<O>, t: TableSchema<O>): (line: string)
  {
    "  name: '" + h.escapeString(t.name) + "',"
  }

  function BaseIdLine<O>(h: Collaborators<O>, config: Config): (line: string)
  {
    "  baseId: '" + h.escapeString(config.baseId) + "',"
  }

  function TableIdLine<O>(h: Collaborators<O>, t: TableSchema<O>): (line: string)
  {
    "  tableId: '" + h.escapeString(t.id) + "',"
  }

  /** The lines of one table block: 13 fixed lines and three per field. */
  function BlockLines<O>(h: Collaborators<O>, config: Config, t: TableSchema<O>): (lines: seq<string>)
    ensures |lines| == 3 * |t.fields| + 13
  {
    var fields := AnnotateFields(h, t.fields);
    [InterfaceHead(h, t)] + ["  id: string,"] + MemberLines(fields)
    + ["}"] + [""] + [BindingHead(h, t)] + [NameLine(h, t)] + [BaseIdLine(h, config)] + [TableIdLine(h, t)]
    + ["  mappings: {"] + MappingLines(h, fields)
    + ["  },"] + ["  schema: {"] + SchemaLines(h, fields)
    + ["  },"] + ["};"]
  }

  const HeaderLines: seq<string> := [Banner, LintSwitch, ImportLine, ""]

  /** The line lists of the tables' blocks, in schema order. */
  function AllBlockLines<O>(h: Collaborators<O>, config: Config, schema: BaseSchema<O>): (r: seq<seq<string>>)
    ensures |r| == |schema|
  {
    seq(|schema|, i requires 0 <= i < |schema| => BlockLines(h, config, schema[i]))
  }

  /** The blocks in schema order with an empty line between neighbours; [""] for no tables. */
  function BodyLines<O>(h: Collaborators<O>, config: Config, schema: BaseSchema<O>): (lines: seq<string>)
  {
    Interleave(AllBlockLines(h, config, schema))
  }

  function OutputLines<O>(h: Collaborators<O>, config: Config, schema: BaseSchema<O>): (lines: seq<string>)
  {
    HeaderLines + BodyLines(h, config, schema)
  }

  /** The index in `BodyLines` of the first line of table `k`'s block. */
  function BlockStart<O>(schema: BaseSchema<O>, k: nat): (start: nat)
    requires k <= |schema|
    decreases k
  {
    if k == 0 then 0 else 3 * |schema[0].fields| + 14 + BlockStart(schema[1..], k - 1)
  }

  // ---------------------------------------------------------------------------
  // The text is the lines joined with newlines
  // ---------------------------------------------------------------------------

  lemma PrefixedLines<O>(h: Collaborators<O>, fields: seq<GeneratedField<O>>)
    ensures NewlinePrefixed(MemberLines(fields)) == MemberPieces(fields)
    ensures NewlinePrefixed(MappingLines(h, fields)) == MappingPieces(h, fields)
    ensures NewlinePrefixed(SchemaLines(h, fields)) == SchemaPieces(h, fields)
  {
    forall i | 0 <= i < |fields|
      ensures NewlinePrefixed(MemberLines(fields))[i] == MemberPieces(fields)[i]
      ensures NewlinePrefixed(MappingLines(h, fields))[i] == MappingPieces(h, fields)[i]
      ensures NewlinePrefixed(SchemaLines(h, fields))[i] == SchemaPieces(h, fields)[i]
    {
      var g := fields[i];
      assert "\n" + ("  " + g.jsName + ": " + g.jsType + ",") == "\n  " + g.jsName + ": " + g.jsType + ",";
      assert "\n" + ("    " + g.jsName + ": '" + h.escapeString(g.field.id) + "',")
          == "\n    " + g.jsName + ": '" + h.escapeString(g.field.id) + "',";
      assert "\n" + ("    " + g.jsName + ": '" + h.escapeString(g.jsType) + "',")
          == "\n    " + g.jsName + ": '" + h.escapeString(g.jsType) + "',";
    }
  }

  lemma Regroup3(j: string, p: string, q: string, r: string)
    ensures j + (p + q + r) == j + p + q + r
  {
  }

  lemma Regroup5(j: string, p: string, q: string, r: string, u: string, v: string)
    ensures j + (p + q + r + u + v) == j + p + q + r + u + v
  {
  }

  /** A line of three pieces ends a joined text the way the template writes it. */
  lemma JoinSnoc3(xs: seq<string>, p: string, q: string, r: string)
    requires |xs| >= 1
    ensures Join(xs + [p + q + r], "\n") == Join(xs, "\n") + "\n" + p + q + r
  {
    JoinSnoc(xs, p + q + r);
    Regroup3(Join(xs, "\n") + "\n", p, q, r);
  }

  lemma JoinSnoc5(xs: seq<string>, p: string, q: string, r: string, u: string, v: string)
    requires |xs| >= 1
    ensures Join(xs + [p + q + r + u + v], "\n") == Join(xs, "\n") + "\n" + p + q + r + u + v
  {
    JoinSnoc(xs, p + q + r + u + v);
    Regroup5(Join(xs, "\n") + "\n", p, q, r, u, v);
  }

  /** A line followed by newline-prefixed pieces: `line${ms.map(m => "\n" + m).join('')}`. */
  lemma JoinSnocPrefixed(xs: seq<string>, line: string, ms: seq<string>)
    requires |xs| >= 1
    ensures Join(xs + [line] + ms, "\n") == Join(xs, "\n") + "\n" + line + Join(NewlinePrefixed(ms), "")
  {
    JoinAppend(xs, [line], "\n");
    JoinNewlinePrefixed(xs + [line], ms);
  }

  /** A single-piece line. */
  lemma JoinSnoc(xs: seq<string>, line: string)
    requires |xs| >= 1
    ensures Join(xs + [line], "\n") == Join(xs, "\n") + "\n" + line
  {
    JoinAppend(xs, [line], "\n");
  }

  /** The template of one block, over its interpolated values, is its lines joined with newlines. */
  lemma TemplateLines(item: string, table: string, name: string, baseId: string, tableId: string,
                      ms: seq<string>, mp: seq<string>, sc: seq<string>)
    ensures "export interface " + item + " extends Item {"
            + "\n" + "  id: string," + Join(NewlinePrefixed(ms), "")
            + "\n" + "}"
            + "\n" + ""
            + "\n" + "export const " + table + ": Table<" + item + "> = {"
            + "\n" + "  name: '" + name + "',"
            + "\n" + "  baseId: '" + baseId + "',"
            + "\n" + "  tableId: '" + tableId + "',"
            + "\n" + "  mappings: {" + Join(NewlinePrefixed(mp), "")
            + "\n" + "  },"
            + "\n" + "  schema: {" + Join(NewlinePrefixed(sc), "")
            + "\n" + "  },"
            + "\n" + "};"
         == Join(
              ["export interface " + item + " extends Item {"] + ["  id: string,"] + ms
              + ["}"] + [""] + ["export const " + table + ": Table<" + item + "> = {"] + ["  name: '" + name + "',"]
              + ["  baseId: '" + baseId + "',"] + ["  tableId: '" + tableId + "',"]
              + ["  mappings: {"] + mp
              + ["  },"] + ["  schema: {"] + sc
              + ["  },"] + ["};"], "\n")
  {
    var l0 := ["export interface " + item + " extends Item {"];
    var s0 := "export interface " + item + " extends Item {";
    assert Join(l0, "\n") == s0;

    var l1 := l0 + ["  id: string,"] + ms;
    var s1 := s0 + "\n" + "  id: string," + Join(NewlinePrefixed(ms), "");
    JoinSnocPrefixed(l0, "  id: string,", ms);

    var l2 := l1 + ["}"];
    var s2 := s1 + "\n" + "}";
    JoinSnoc(l1, "}");

    var l3 := l2 + [""];
    var s3 := s2 + "\n" + "";
    JoinSnoc(l2, "");

    var l4 := l3 + ["export const " + table + ": Table<" + item + "> = {"];
    var s4 := s3 + "\n" + "export const " + table + ": Table<" + item + "> = {";
    JoinSnoc5(l3, "export const ", table, ": Table<", item, "> = {");

    var l5 := l4 + ["  name: '" + name + "',"];
    var s5 := s4 + "\n" + "  name: '" + name + "',";
    JoinSnoc3(l4, "  name: '", name, "',");

    var l6 := l5 + ["  baseId: '" + baseId + "',"];
    var s6 := s5 + "\n" + "  baseId: '" + baseId + "',";
    JoinSnoc3(l5, "  baseId: '", baseId, "',");

    var l7 := l6 + ["  tableId: '" + tableId + "',"];
    var s7 := s6 + "\n" + "  tableId: '" + tableId + "',";
    JoinSnoc3(l6, "  tableId: '", tableId, "',");

    var l8 := l7 + ["  mappings: {"] + mp;
    var s8 := s7 + "\n" + "  mappings: {" + Join(NewlinePrefixed(mp), "");
    JoinSnocPrefixed(l7, "  mappings: {", mp);

    var l9 := l8 + ["  },"];
    var s9 := s8 + "\n" + "  },";
    JoinSnoc(l8, "  },");

    var l10 := l9 + ["  schema: {"] + sc;
    var s10 := s9 + "\n" + "  schema: {" + Join(NewlinePrefixed(sc), "");
    JoinSnocPrefixed(l9, "  schema: {", sc);

    var l11 := l10 + ["  },"];
    var s11 := s10 + "\n" + "  },";
    JoinSnoc(l10, "  },");

    var l12 := l11 + ["};"];
    var s12 := s11 + "\n" + "};";
    JoinSnoc(l11, "};");

  }

  /** `GenerateCode` writes exactly the lines of `BlockLines`, joined with newlines. */
  lemma GenerateCodeLines<O>(h: Collaborators<O>, config: Config, t: TableSchema<O>)
    ensures GenerateCode(h, config, t) == Join(BlockLines(h, config, t), "\n")
  {
    var fields := AnnotateFields(h, t.fields);
    PrefixedLines(h, fields);
    TemplateLines(ItemName(h, t), TableBindingName(h, t), h.escapeString(t.name), h.escapeString(config.baseId),
                  h.escapeString(t.id), MemberLines(fields), MappingLines(h, fields), SchemaLines(h, fields));
  }

  lemma {:induction false} BodyJoin<O>(h: Collaborators<O>, config: Config, schema: BaseSchema<O>)
    ensures Join(GenerateBlocks(h, config, schema), "\n\n") == Join(BodyLines(h, config, schema), "\n")
  {
    var blocks := AllBlockLines(h, config, schema);
    forall i | 0 <= i < |blocks|
      ensures |blocks[i]| >= 1 && GenerateBlocks(h, config, schema)[i] == Join(blocks[i], "\n")
    {
      GenerateBlocksAt(h, config, schema, i);
      GenerateCodeLines(h, config, schema[i]);
    }
    JoinInterleave(GenerateBlocks(h, config, schema), blocks);
  }

  /** The fixed header is its four lines, the last one empty, each ended by a newline. */
  lemma HeaderIsLines()
    ensures Header == Join(HeaderLines, "\n") + "\n"
  {
    var l0, l1, l2 := HeaderLines[0], HeaderLines[1], HeaderLines[2];
    JoinCons(l2, [""], "\n");
    JoinCons(l1, [l2, ""], "\n");
    JoinCons(l0, [l1, l2, ""], "\n");
    assert HeaderLines == [l0] + [l1, l2, ""];
  }

  /** `Main` writes exactly the lines of `OutputLines`, joined with newlines. */
  lemma MainLines<O>(h: Collaborators<O>, config: Config, schema: BaseSchema<O>)
    ensures Main(h, config, schema) == Join(OutputLines(h, config, schema), "\n")
  {
    BodyJoin(h, config, schema);
    HeaderIsLines();
    JoinAppend(HeaderLines, BodyLines(h, config, schema), "\n");
  }
}

/**
 What the generated text looks like line by line, for collaborators whose
 results hold no newline.
 */
module LayoutProperties {
  import opened Text
  import opened Codegen
  import opened Layout

  /** No text the field contributes to its three lines holds a newline. */
  predicate FieldNewlineFree<O>(h: Collaborators<O>, f: FieldSchema<O>)
  {
    && NewlineFree(JsName(h, f))
    && NewlineFree(h.jsTypeForAirtableType(f))
    && NewlineFree(h.escapeString(f.id))
    && NewlineFree(h.escapeString(h.jsTypeForAirtableType(f)))
  }

  /** No collaborator result that a table's block interpolates holds a newline. */
  predicate TableNewlineFree<O>(h: Collaborators<O>, config: Config, t: TableSchema<O>)
  {
    && NewlineFree(h.escapeIdentifier(h.recase(Pascal, t.name)))
    && NewlineFree(TableBindingName(h, t))
    && NewlineFree(h.escapeString(t.name))
    && NewlineFree(h.escapeString(config.baseId))
    && NewlineFree(h.escapeString(t.id))
    && forall i :: 0 <= i < |t.fields| ==> FieldNewlineFree(h, t.fields[i])
  }

  predicate SchemaNewlineFree<O>(h: Collaborators<O>, config: Config, schema: BaseSchema<O>)
  {
    forall k :: 0 <= k < |schema| ==> TableNewlineFree(h, config, schema[k])
  }

  lemma FieldLinesNewlineFree<O>(h: Collaborators<O>, fields: seq<FieldSchema<O>>)
    requires forall i :: 0 <= i < |fields| ==> FieldNewlineFree(h, fields[i])
    ensures AllNewlineFree(MemberLines(AnnotateFields(h, fields)))
    ensures AllNewlineFree(MappingLines(h, AnnotateFields(h, fields)))
    ensures AllNewlineFree(SchemaLines(h, AnnotateFields(h, fields)))
  {
    var gs := AnnotateFields(h, fields);
    forall i | 0 <= i < |fields|
      ensures NewlineFree(MemberLines(gs)[i])
      ensures NewlineFree(MappingLines(h, gs)[i])
      ensures NewlineFree(SchemaLines(h, gs)[i])
    {
      assert FieldNewlineFree(h, fields[i]);
      assert gs[i] == AnnotateField(h, fields[i]);
    }
  }

  lemma PrefixNewlineFree(a: string, b: string)
    requires a <= b && NewlineFree(b)
    ensures NewlineFree(a)
  {
    forall i | 0 <= i < |a| ensures a[i] != '\n' {
      assert a[i] == b[i];
    }
  }

  lemma HeadLinesNewlineFree<O>(h: Collaborators<O>, t: TableSchema<O>)
    requires NewlineFree(h.escapeIdentifier(h.recase(Pascal, t.name)))
    requires NewlineFree(TableBindingName(h, t))
    ensures NewlineFree(InterfaceHead(h, t)) && NewlineFree(BindingHead(h, t))
  {
    PrefixNewlineFree(ItemName(h, t), h.escapeIdentifier(h.recase(Pascal, t.name)));
  }

  lemma IdentityLinesNewlineFree<O>(h: Collaborators<O>, config: Config, t: TableSchema<O>)
    requires TableNewlineFree(h, config, t)
    ensures NewlineFree(NameLine(h, t)) && NewlineFree(BaseIdLine(h, config)) && NewlineFree(TableIdLine(h, t))
  {
  }

  lemma FixedLinesNewlineFree()
    ensures NewlineFree("  id: string,") && NewlineFree("}") && NewlineFree("")
    ensures NewlineFree("  mappings: {") && NewlineFree("  },") && NewlineFree("  schema: {") && NewlineFree("};")
  {
  }

  lemma SnocNewlineFree(xs: seq<string>, line: string)
    requires AllNewlineFree(xs) && NewlineFree(line)
    ensures AllNewlineFree(xs + [line])
  {
    AllNewlineFreeAppend(xs, [line]);
  }

  lemma BlockLinesNewlineFree<O>(h: Collaborators<O>, config: Config, t: TableSchema<O>)
    requires TableNewlineFree(h, config, t)
    ensures AllNewlineFree(BlockLines(h, config, t))
  {
    var gs := AnnotateFields(h, t.fields);
    HeadLinesNewlineFree(h, t);
    IdentityLinesNewlineFree(h, config, t);
    FixedLinesNewlineFree();
    FieldLinesNewlineFree(h, t.fields);
    var x := [InterfaceHead(h, t)];
    SnocNewlineFree(x, "  id: string,");
    x := x + ["  id: string,"];
    AllNewlineFreeAppend(x, MemberLines(gs));
    x := x + MemberLines(gs);
    SnocNewlineFree(x, "}");
    x := x + ["}"];
    SnocNewlineFree(x, "");
    x := x + [""];
    SnocNewlineFree(x, BindingHead(h, t));
    x := x + [BindingHead(h, t)];
    SnocNewlineFree(x, NameLine(h, t));
    x := x + [NameLine(h, t)];
    SnocNewlineFree(x, BaseIdLine(h, config));
    x := x + [BaseIdLine(h, config)];
    SnocNewlineFree(x, TableIdLine(h, t));
    x := x + [TableIdLine(h, t)];
    SnocNewlineFree(x, "  mappings: {");
    x := x + ["  mappings: {"];
    AllNewlineFreeAppend(x, MappingLines(h, gs));
    x := x + MappingLines(h, gs);
    SnocNewlineFree(x, "  },");
    x := x + ["  },"];
    SnocNewlineFree(x, "  schema: {");
    x := x + ["  schema: {"];
    AllNewlineFreeAppend(x, SchemaLines(h, gs));
    x := x + SchemaLines(h, gs);
    SnocNewlineFree(x, "  },");
    x := x + ["  },"];
    SnocNewlineFree(x, "};");
  }

  /** Split at newlines, a table's block is exactly `BlockLines`. */
  lemma SplitGenerateCode<O>(h: Collaborators<O>, config: Config, t: TableSchema<O>)
    requires TableNewlineFree(h, config, t)
    ensures SplitLines(GenerateCode(h, config, t)) == BlockLines(h, config, t)
  {
    GenerateCodeLines(h, config, t);
    BlockLinesNewlineFree(h, config, t);
    SplitJoin(BlockLines(h, config, t));
  }

  /** Where the interface sits in the block's lines. */
  lemma InterfaceLinesAt<O>(h: Collaborators<O>, config: Config, t: TableSchema<O>)
    ensures BlockLines(h, config, t)[0] == "export interface " + ItemName(h, t) + " extends Item {"
    ensures BlockLines(h, config, t)[1] == "  id: string,"
    ensures forall k :: 0 <= k < |t.fields| ==>
      BlockLines(h, config, t)[2 + k]
        == "  " + JsName(h, t.fields[k]) + ": " + h.jsTypeForAirtableType(t.fields[k]) + ","
    ensures BlockLines(h, config, t)[|t.fields| + 2] == "}"
    ensures BlockLines(h, config, t)[|t.fields| + 3] == ""
  {
    var gs := AnnotateFields(h, t.fields);
    forall k | 0 <= k < |t.fields|
      ensures BlockLines(h, config, t)[2 + k]
        == "  " + JsName(h, t.fields[k]) + ": " + h.jsTypeForAirtableType(t.fields[k]) + ","
    {
      assert BlockLines(h, config, t)[2 + k] == MemberLines(gs)[k];
    }
  }

  /**
   The interface: its head, the `id: string,` member first, then one
   `jsName: jsType,` member per field in field order, then the closing brace.
   */
  lemma InterfaceLayout<O>(h: Collaborators<O>, config: Config, t: TableSchema<O>)
    requires TableNewlineFree(h, config, t)
    ensures |SplitLines(GenerateCode(h, config, t))| == 3 * |t.fields| + 13
    ensures SplitLines(GenerateCode(h, config, t))[0] == "export interface " + ItemName(h, t) + " extends Item {"
    ensures SplitLines(GenerateCode(h, config, t))[1] == "  id: string,"
    ensures forall k :: 0 <= k < |t.fields| ==>
      SplitLines(GenerateCode(h, config, t))[2 + k]
        == "  " + JsName(h, t.fields[k]) + ": " + h.jsTypeForAirtableType(t.fields[k]) + ","
    ensures SplitLines(GenerateCode(h, config, t))[|t.fields| + 2] == "}"
    ensures SplitLines(GenerateCode(h, config, t))[|t.fields| + 3] == ""
  {
    SplitGenerateCode(h, config, t);
    InterfaceLinesAt(h, config, t);
  }

  /** Where the table constant's head and identity properties sit in the block's lines. */
  lemma BindingLinesAt<O>(h: Collaborators<O>, config: Config, t: TableSchema<O>)
    ensures BlockLines(h, config, t)[|t.fields| + 4]
      == "export const " + h.escapeIdentifier(h.recase(Camel, t.name) + "Table") + ": Table<" + ItemName(h, t) + "> = {"
    ensures BlockLines(h, config, t)[|t.fields| + 5] == "  name: '" + h.escapeString(t.name) + "',"
    ensures BlockLines(h, config, t)[|t.fields| + 6] == "  baseId: '" + h.escapeString(config.baseId) + "',"
    ensures BlockLines(h, config, t)[|t.fields| + 7] == "  tableId: '" + h.escapeString(t.id) + "',"
  {
  }

  /**
   The table constant's head and its `name`, `baseId` and `tableId`
   properties, holding the escaped table name, base id and table id.
   */
  lemma BindingLayout<O>(h: Collaborators<O>, config: Config, t: TableSchema<O>)
    requires TableNewlineFree(h, config, t)
    ensures |SplitLines(GenerateCode(h, config, t))| == 3 * |t.fields| + 13
    ensures SplitLines(GenerateCode(h, config, t))[|t.fields| + 4]
      == "export const " + h.escapeIdentifier(h.recase(Camel, t.name) + "Table") + ": Table<" + ItemName(h, t) + "> = {"
    ensures SplitLines(GenerateCode(h, config, t))[|t.fields| + 5] == "  name: '" + h.escapeString(t.name) + "',"
    ensures SplitLines(GenerateCode(h, config, t))[|t.fields| + 6] == "  baseId: '" + h.escapeString(config.baseId) + "',"
    ensures SplitLines(GenerateCode(h, config, t))[|t.fields| + 7] == "  tableId: '" + h.escapeString(t.id) + "',"
  {
    SplitGenerateCode(h, config, t);
    BindingLinesAt(h, config, t);
  }

  /** Indexing into the middle of a concatenation of lines. */
  lemma IndexAfter(pre: seq<string>, mid: seq<string>, post: seq<string>, k: nat)
    requires k < |mid|
    ensures (pre + mid + post)[|pre| + k] == mid[k]
  {
  }

  lemma RegroupTail(x: seq<string>, a: seq<string>, b: seq<string>, c: seq<string>, d: seq<string>, e: seq<string>)
    ensures x + a + b + c + d + e == x + (a + b + c + d + e)
  {
  }

  lemma RegroupPair(x: seq<string>, a: seq<string>, b: seq<string>)
    ensures x + a + b == x + (a + b)
  {
  }

  /** Where the `mappings` object sits in the block's lines. */
  lemma MappingLinesAt<O>(h: Collaborators<O>, config: Config, t: TableSchema<O>)
    ensures BlockLines(h, config, t)[|t.fields| + 8] == "  mappings: {"
    ensures forall k :: 0 <= k < |t.fields| ==>
      BlockLines(h, config, t)[|t.fields| + 9 + k]
        == "    " + JsName(h, t.fields[k]) + ": '" + h.escapeString(t.fields[k].id) + "',"
    ensures BlockLines(h, config, t)[2 * |t.fields| + 9] == "  },"
  {
    var gs := AnnotateFields(h, t.fields);
    var n := |t.fields|;
    var pre := [InterfaceHead(h, t)] + ["  id: string,"] + MemberLines(gs)
      + ["}"] + [""] + [BindingHead(h, t)] + [NameLine(h, t)] + [BaseIdLine(h, config)] + [TableIdLine(h, t)]
      + ["  mappings: {"];
    var post := ["  },"] + ["  schema: {"] + SchemaLines(h, gs) + ["  },"] + ["};"];
    RegroupTail(pre + MappingLines(h, gs), ["  },"], ["  schema: {"], SchemaLines(h, gs), ["  },"], ["};"]);
    assert BlockLines(h, config, t) == pre + MappingLines(h, gs) + post;
    forall k | 0 <= k < n
      ensures BlockLines(h, config, t)[n + 9 + k]
        == "    " + JsName(h, t.fields[k]) + ": '" + h.escapeString(t.fields[k].id) + "',"
    {
      IndexAfter(pre, MappingLines(h, gs), post, k);
    }
  }

  /**
   The `mappings` object: one line per field in field order, keyed by the
   same identifiers as the interface members, holding the escaped field id.
   */
  lemma MappingsLayout<O>(h: Collaborators<O>, config: Config, t: TableSchema<O>)
    requires TableNewlineFree(h, config, t)
    ensures |SplitLines(GenerateCode(h, config, t))| == 3 * |t.fields| + 13
    ensures SplitLines(GenerateCode(h, config, t))[|t.fields| + 8] == "  mappings: {"
    ensures forall k :: 0 <= k < |t.fields| ==>
      SplitLines(GenerateCode(h, config, t))[|t.fields| + 9 + k]
        == "    " + JsName(h, t.fields[k]) + ": '" + h.escapeString(t.fields[k].id) + "',"
    ensures SplitLines(GenerateCode(h, config, t))[2 * |t.fields| + 9] == "  },"
  {
    SplitGenerateCode(h, config, t);
    MappingLinesAt(h, config, t);
  }

  /** Where the `schema` object and the end of the block sit in the block's lines. */
  lemma SchemaLinesAt<O>(h: Collaborators<O>, config: Config, t: TableSchema<O>)
    ensures BlockLines(h, config, t)[2 * |t.fields| + 10] == "  schema: {"
    ensures forall k :: 0 <= k < |t.fields| ==>
      BlockLines(h, config, t)[2 * |t.fields| + 11 + k]
        == "    " + JsName(h, t.fields[k]) + ": '" + h.escapeString(h.jsTypeForAirtableType(t.fields[k])) + "',"
    ensures BlockLines(h, config, t)[3 * |t.fields| + 11] == "  },"
    ensures BlockLines(h, config, t)[3 * |t.fields| + 12] == "};"
  {
    var gs := AnnotateFields(h, t.fields);
    var n := |t.fields|;
    var pre := [InterfaceHead(h, t)] + ["  id: string,"] + MemberLines(gs)
      + ["}"] + [""] + [BindingHead(h, t)] + [NameLine(h, t)] + [BaseIdLine(h, config)] + [TableIdLine(h, t)]
      + ["  mappings: {"] + MappingLines(h, gs) + ["  },"] + ["  schema: {"];
    var post := ["  },"] + ["};"];
    RegroupPair(pre + SchemaLines(h, gs), ["  },"], ["};"]);
    assert BlockLines(h, config, t) == pre + SchemaLines(h, gs) + post;
    forall k | 0 <= k < n
      ensures BlockLines(h, config, t)[2 * n + 11 + k]
        == "    " + JsName(h, t.fields[k]) + ": '" + h.escapeString(h.jsTypeForAirtableType(t.fields[k])) + "',"
    {
      IndexAfter(pre, SchemaLines(h, gs), post, k);
    }
  }

  /**
   The `schema` object: one line per field in field order, keyed by the
   same identifiers as the interface members, holding the escaped
   TypeScript type; then the end of the block.
   */
  lemma SchemaLayout<O>(h: Collaborators<O>, config: Config, t: TableSchema<O>)
    requires TableNewlineFree(h, config, t)
    ensures |SplitLines(GenerateCode(h, config, t))| == 3 * |t.fields| + 13
    ensures SplitLines(GenerateCode(h, config, t))[2 * |t.fields| + 10] == "  schema: {"
    ensures forall k :: 0 <= k < |t.fields| ==>
      SplitLines(GenerateCode(h, config, t))[2 * |t.fields| + 11 + k]
        == "    " + JsName(h, t.fields[k]) + ": '" + h.escapeString(h.jsTypeForAirtableType(t.fields[k])) + "',"
    ensures SplitLines(GenerateCode(h, config, t))[3 * |t.fields| + 11] == "  },"
    ensures SplitLines(GenerateCode(h, config, t))[3 * |t.fields| + 12] == "};"
  {
    SplitGenerateCode(h, config, t);
    SchemaLinesAt(h, config, t);
  }
}
