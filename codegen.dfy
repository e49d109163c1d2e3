/**
 The schema-to-source emitter of airtable-ts-codegen (src/index.ts): from
 the schema of an Airtable base it writes a TypeScript module holding, for
 every table, an item interface and a `Table<...>` constant for the
 airtable-ts data-access layer.

 The four helpers the emitter calls live in files outside this model
 (`recase`, `escapeIdentifier`, `escapeString`, `jsTypeForAirtableType`);
 they are fields of a `Collaborators` value, so every result here holds for
 any implementation of them.
 */
module Codegen {
  import opened Text
  import opened Regex

  datatype Option<T> = None | Some(value: T)

  /** A custom HTTP header value: string, number or boolean. */
  datatype HeaderValue = StringValue(s: string) | NumberValue(n: real) | BooleanValue(b: bool)

  /** The run configuration; only `baseId` reaches the emitted code, the rest is for the schema fetch. */
  datatype Config = Config(
    apiKey: string,
    baseId: string,
    endpointUrl: Option<string>,
    requestTimeout: Option<real>,
    customHeaders: Option<map<string, HeaderValue>>)

  /** One field of a table; `O` is the type-specific options, read only by the type mapper. */
  datatype FieldSchema<O> = FieldSchema(id: string, name: string, fieldType: string, options: Option<O>)

  datatype TableSchema<O> = TableSchema(id: string, name: string, fields: seq<FieldSchema<O>>)

  /** The base's tables, in the order the schema provider returned them. */
  type BaseSchema<O> = seq<TableSchema<O>>

  /** A field together with the identifier and the TypeScript type the emitter gives it. */
  datatype GeneratedField<O> = GeneratedField(field: FieldSchema<O>, jsName: string, jsType: string)

  /** The case conventions the emitter asks `recase` for. */
  datatype CaseStyle = Pascal | Camel

  /** The emitter's collaborators, whose definitions are not part of this model. */
  datatype Collaborators<!O> = Collaborators(
    recase: (CaseStyle, string) -> string,
    escapeIdentifier: string -> string,
    escapeString: string -> string,
    jsTypeForAirtableType: FieldSchema<O> -> string)

  // ---------------------------------------------------------------------------
  // Naming
  // ---------------------------------------------------------------------------

  /** The condition under which the item name loses its last character. */
  predicate EndsInStrippableS(raw: string)
  {
    |raw| >= 2 && raw[|raw| - 1] == 's' && !IsLineTerminator(raw[|raw| - 2])
  }

  /**
   The trailing-"s" heuristic: drop the last character when `/.s$/` matches.
   It is not pluralisation-aware ("Status" becomes "Statu").
   */
  function Singularise(raw: string): (r: string)
    ensures EndsInStrippableS(raw) ==> r == raw[..|raw| - 1]
    ensures !EndsInStrippableS(raw) ==> r == raw
    ensures r <= raw && |r| >= |raw| - 1
    ensures raw != [] ==> r != []
  {
    TrailingSTest(raw);
    if Test(TrailingS, raw) then raw[..|raw| - 1] else raw
  }

  /**
   The heuristic on sample names: a trailing lower-case `s` goes, whatever
   comes before it, unless it is the only character or follows a line break.
   */
  lemma SingularisationExamples()
    ensures Singularise("Invoices") == "Invoice"
    ensures Singularise("Status") == "Statu"
    ensures Singularise("SS") == "SS"
    ensures Singularise("s") == "s"
    ensures Singularise("") == ""
    ensures Singularise("a\ns") == "a\ns"
    ensures Singularise("\U{1F600}s") == "\U{1F600}"
  {
    assert EndsInStrippableS("Invoices");
    assert "Invoices"[..7] == "Invoice";
    assert EndsInStrippableS("Status");
    assert "Status"[..5] == "Statu";
  }

  /** The item interface's name: the Pascal-cased table name, escaped, then singularised. */
  function ItemName<O>(h: Collaborators<O>, t: TableSchema<O>): (r: string)
    ensures var raw := h.escapeIdentifier(h.recase(Pascal, t.name));
      if |raw| >= 2 && raw[|raw| - 1] == 's' && !IsLineTerminator(raw[|raw| - 2]) then r == raw[..|raw| - 1] else r == raw
  {
    Singularise(h.escapeIdentifier(h.recase(Pascal, t.name)))
  }

  /** The table constant's name: the camel-cased table name with `Table` appended, then escaped. */
  function TableBindingName<O>(h: Collaborators<O>, t: TableSchema<O>): (r: string)
  {
    h.escapeIdentifier(h.recase(Camel, t.name) + "Table")
  }

  /** A field's identifier: the escaped name, camel-cased, escaped again. */
  function JsName<O>(h: Collaborators<O>, f: FieldSchema<O>): (r: string)
  {
    h.escapeIdentifier(h.recase(Camel, h.escapeIdentifier(f.name)))
  }

  /** The field with its identifier and type: the `{ ...f, jsName, jsType }` of the emitter. */
  function AnnotateField<O>(h: Collaborators<O>, f: FieldSchema<O>): (g: GeneratedField<O>)
  {
    GeneratedField(f, JsName(h, f), h.jsTypeForAirtableType(f))
  }

  /** The annotated fields keep the schema's fields, one for one and in order. */
  function AnnotateFields<O>(h: Collaborators<O>, fields: seq<FieldSchema<O>>): (r: seq<GeneratedField<O>>)
    ensures |r| == |fields|
    ensures forall i :: 0 <= i < |fields| ==> r[i].field == fields[i]
  {
    seq(|fields|, i requires 0 <= i < |fields| => AnnotateField(h, fields[i]))
  }

  /**
   Field `i` is annotated with the identifier derived from its name (escaped,
   camel-cased, escaped again) and the type the type mapper gives it.
   */
  lemma AnnotatedNames<O>(h: Collaborators<O>, fields: seq<FieldSchema<O>>, i: nat)
    requires i < |fields|
    ensures AnnotateFields(h, fields)[i].field == fields[i]
    ensures AnnotateFields(h, fields)[i].jsName == h.escapeIdentifier(h.recase(Camel, h.escapeIdentifier(fields[i].name)))
    ensures AnnotateFields(h, fields)[i].jsType == h.jsTypeForAirtableType(fields[i])
  {
  }

  // ---------------------------------------------------------------------------
  // Emission, written as the source writes it
  // ---------------------------------------------------------------------------

  function MemberPieces<O>(fields: seq<GeneratedField<O>>): (r: seq<string>)
  {
    seq(|fields|, i requires 0 <= i < |fields| => "\n  " + fields[i].jsName + ": " + fields[i].jsType + ",")
  }

  function MappingPieces<O>(h: Collaborators<O>, fields: seq<GeneratedField<O>>): (r: seq<string>)
  {
    seq(|fields|, i requires 0 <= i < |fields| => "\n    " + fields[i].jsName + ": '" + h.escapeString(fields[i].field.id) + "',")
  }

  function SchemaPieces<O>(h: Collaborators<O>, fields: seq<GeneratedField<O>>): (r: seq<string>)
  {
    seq(|fields|, i requires 0 <= i < |fields| => "\n    " + fields[i].jsName + ": '" + h.escapeString(fields[i].jsType) + "',")
  }

  /**
   The source block of one table. The template spans several source lines;
   each is written here behind the line break that precedes it.
   */
  function GenerateCode<O>(h: Collaborators<O>, config: Config, t: TableSchema<O>): (code: string)
  {
    var itemName := ItemName(h, t);
    var tableName := TableBindingName(h, t);
    var fields := AnnotateFields(h, t.fields);
    "export interface " + itemName + " extends Item {"
    + "\n" + "  id: string," + Join(MemberPieces(fields), "")
    + "\n" + "}"
    + "\n" + ""
    + "\n" + "export const " + tableName + ": Table<" + itemName + "> = {"
    + "\n" + "  name: '" + h.escapeString(t.name) + "',"
    + "\n" + "  baseId: '" + h.escapeString(config.baseId) + "',"
    + "\n" + "  tableId: '" + h.escapeString(t.id) + "',"
    + "\n" + "  mappings: {" + Join(MappingPieces(h, fields), "")
    + "\n" + "  },"
    + "\n" + "  schema: {" + Join(SchemaPieces(h, fields), "")
    + "\n" + "  },"
    + "\n" + "};"
  }

  /** The three lines of the fixed file header: a do-not-edit banner, a lint switch and the import. */
  const Banner: string := "/* DO NOT EDIT: " + "this file was automatically " + "generated by airtable-ts-codegen */"
  const LintSwitch: string := "/* eslint-disable */"
  const ImportLine: string := "import { Item, Table } from 'airtable-ts';"

  /** The fixed file header: its three lines, each ended by a newline, then an empty line. */
  const Header: string := Banner + "\n" + LintSwitch + "\n" + ImportLine + "\n" + "\n"

  /** `baseSchema.map((tableSchema) => generateCode(config, tableSchema))`. */
  function GenerateBlocks<O>(h: Collaborators<O>, config: Config, schema: BaseSchema<O>): (blocks: seq<string>)
    ensures |blocks| == |schema|
    decreases |schema|
  {
    if schema == [] then [] else [GenerateCode(h, config, schema[0])] + GenerateBlocks(h, config, schema[1..])
  }

  /** The blocks are the tables' blocks, one by one. */
  lemma {:induction false} GenerateBlocksAt<O>(h: Collaborators<O>, config: Config, schema: BaseSchema<O>, i: nat)
    requires i < |schema|
    ensures GenerateBlocks(h, config, schema)[i] == GenerateCode(h, config, schema[i])
    decreases i
  {
    if i > 0 {
      GenerateBlocksAt(h, config, schema[1..], i - 1);
      assert schema[1..][i - 1] == schema[i];
    }
  }

  /** The generated module for an already fetched schema. */
  function Main<O>(h: Collaborators<O>, config: Config, schema: BaseSchema<O>): (text: string)
  {
    Header + Join(GenerateBlocks(h, config, schema), "\n\n")
  }
}
