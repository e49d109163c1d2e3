# airtable-ts-codegen: the schema-to-source emitter, modelled in Dafny

airtable-ts-codegen reads the schema of an Airtable base and writes a
TypeScript module for the airtable-ts data-access layer. For every table the
module holds an item interface (an `id: string` member and one member per
field) and a `Table<...>` constant. The constant carries the escaped table
name, base id and table id, a `mappings` object (field identifier to field
id) and a `schema` object (field identifier to TypeScript type). A fixed
do-not-edit banner, a lint switch and the import come first. The blocks
follow in schema order, separated by a blank line.

This project models that emitter, `generateCode` and the text assembly of
`main` in `src/index.ts`, as pure Dafny functions. It proves what the
generated text looks like.

- `text.dfy` (module `Text`): JavaScript's `Array.prototype.join`, and
  `split("\n")` as `SplitLines`.
  - `SplitJoin`: splitting undoes joining when no line holds a newline.
  - `Interleave`/`Offset`: blocks of lines with one empty line between
    neighbours.
- `regex.dfy` (module `Regex`): the fragment of JavaScript regular
  expressions that `/.s$/` uses, with `RegExp.prototype.test`.
  - `.` does not match the four line terminators (`\n`, `\r`, U+2028,
    U+2029).
  - `$` is end of input, since the pattern has no `m` flag.
- `codegen.dfy` (module `Codegen`): the data model and the emitter, written
  as the source writes it.
  - `Singularise` is the item-name rule.
  - `GenerateCode` is the template, line by line.
  - `Main` is the header plus the blocks joined with `"\n\n"`.
- `layout.dfy`: two modules.
  - `Layout` defines an independent reference for the text, `BlockLines`
    and `OutputLines`, as lists of lines. It proves that the emitter's text
    is exactly those lines joined with newlines.
  - `LayoutProperties` states, line by line, where each part of a table's
    block sits.
- `output.dfy` (module `OutputProperties`): the whole module's lines.
  - The header, the blocks in schema order, the separators and the shared
    `baseId` line.
  - Appending a table, the empty schema, and independence from the
    transport settings.

The four helpers the emitter calls are defined outside `src/index.ts`:
`recase`, `escapeIdentifier`, `escapeString` and `jsTypeForAirtableType`. They
are fields of a `Collaborators` value, so every result holds for any
implementation of them.

Statements about the text's lines (`SplitLines`) need the collaborators'
results to hold no newline (`TableNewlineFree`, `SchemaNewlineFree`). A
collaborator that returns a newline would move every later line. Without
that condition, `GenerateCodeLines` and `MainLines` still give the exact
text.

The item-name rule in the code is narrower than "strip a trailing `s`":
`/.s$/` needs a character before the final `s`, and that character must not
be a line terminator. So `"s"` and `"a\ns"` are kept, and an upper-case final
`S` is never stripped. The model follows the code.

## Model

| member | source | states |
|---|---|---|
| `Codegen.Singularise` | src/index.ts:25 | the last character goes exactly when the name has at least two characters, ends in a lower-case `s` and the one before it is not a line terminator, and otherwise the name is unchanged; the result is a prefix of the name at most one shorter, and non-empty for a non-empty name |
| `Regex.TrailingSTest` | src/index.ts:25 | `/.s$/.test(s)` holds if and only if `s` has at least two characters, ends in `s`, and its second-to-last character is not a line terminator |
| `Codegen.SingularisationExamples` | src/index.ts:25 | "Invoices" becomes "Invoice" and "Status" becomes "Statu"; "\U{1F600}s" loses its `s`; "SS", "s", "" and "a\ns" are kept |
| `Codegen.ItemName` | src/index.ts:24-25 | the item name is the escaped Pascal-cased table name, without its last character exactly when that name has at least two characters, ends in a lower-case `s` and the one before it is not a line terminator |
| `Codegen.AnnotateFields` | src/index.ts:28-29 | one annotated entry per field, in field order, each carrying its field (the object spread) |
| `Codegen.AnnotatedNames` | src/index.ts:30-31 | field `i`'s entry carries `escapeIdentifier(recase(camel, escapeIdentifier(name)))` as its identifier (`JsName`) and the type mapper's result as its type |
| `Codegen.GenerateBlocksAt` | src/index.ts:20 | the blocks `main` joins are, position by position, the blocks of the schema's tables |
| `Layout.GenerateCodeLines` | src/index.ts:23-47 | `generateCode`'s result, a table's block, is exactly the reference lines joined with newlines, for any collaborators |
| `Layout.MainLines` | src/index.ts:18-21 | for the fetched schema, `main`'s result, the whole module, is exactly the reference module lines joined with newlines, for any collaborators |
| `LayoutProperties.SplitGenerateCode` | src/index.ts:34-46 | when no collaborator result the block interpolates holds a newline, the block split at newlines is its reference lines (`3 * fields + 13` of them) |
| `LayoutProperties.BindingLinesAt` | src/index.ts:26 | the constant's head line names the binding `escapeIdentifier(recase(camel, name) + "Table")`, the suffix appended before escaping, typed `Table<item name>` |
| `LayoutProperties.InterfaceLayout` | src/index.ts:34-36 | the block starts with `export interface <item name> extends Item {`, then `  id: string,`, then one `  jsName: jsType,` line per field in field order, then `}` and an empty line |
| `LayoutProperties.BindingLayout` | src/index.ts:38-41 | next come the head `export const <escapeIdentifier(camel name + "Table")>: Table<item name> = {` and the `name`, `baseId`, `tableId` lines holding the escaped table name, base id and table id |
| `LayoutProperties.MappingsLayout` | src/index.ts:42-43 | `  mappings: {`, one `    jsName: '<escaped field id>',` line per field in field order with the interface's identifiers, then `  },` |
| `LayoutProperties.SchemaLayout` | src/index.ts:44-46 | `  schema: {`, one `    jsName: '<escaped jsType>',` line per field in field order with the interface's identifiers, then `  },` and `};` ending the block |
| `OutputProperties.SplitMain` | src/index.ts:20 | when no collaborator result holds a newline, the module split at newlines is its reference lines |
| `OutputProperties.ModuleHeader` | src/index.ts:20 | the module's first four lines are the banner, `/* eslint-disable */`, the import and an empty line |
| `OutputProperties.ModuleWithoutTables` | src/index.ts:20 | with no tables the module's lines are the header lines and one empty line |
| `OutputProperties.ModuleBlocks` | src/index.ts:20 | every table's block appears, in schema order, at the line its predecessors' field counts determine |
| `OutputProperties.ModuleSeparators` | src/index.ts:20 | every block but the first is preceded by exactly one empty line |
| `OutputProperties.ModuleEnd` | src/index.ts:20 | the last table's block ends the module |
| `OutputProperties.ModuleBlockAt` | src/index.ts:20 | when no collaborator result holds a newline, in the split text of the module each table's block sits at its line and is followed by an empty line unless it is the last |
| `OutputProperties.EveryBlockSharesBaseId` | src/index.ts:40 | every table's block holds the same `baseId` line, the escaped base id of the configuration |
| `OutputProperties.MainEmptySchema` | src/index.ts:20 | an empty schema yields only the header |
| `OutputProperties.MainAppend` | src/index.ts:20 | appending a table to the schema appends its block to the module, after `"\n\n"` unless it is the first |
| `OutputProperties.OutputIgnoresTransport` | src/index.ts:18-20 | two configurations with the same `baseId` give the same module: the API key, endpoint, timeout and custom headers never reach the output |

## Left out

- The schema fetch (`getBaseSchema`) and the `await` in `main`: network I/O. The schema is an input value of `Main`.
- The bodies of `recase`, `escapeIdentifier`, `escapeString` and `jsTypeForAirtableType`: they are defined in other files and are abstract here. Escaping round-trips, identifier validity and type-mapping totality are not claimed.
- Distinctness of field identifiers: the emitter does not de-duplicate them, and the model does not claim they differ.
- The transport options of `Config` (`endpointUrl`, `requestTimeout`, `customHeaders`, `apiKey`): modelled as data that only the fetch uses. `OutputIgnoresTransport` shows that they do not reach the output.
- Strings are sequences of Unicode scalar values, not of UTF-16 code units. For every well-formed string the item-name rule gives the same result either way: a name ending in a surrogate pair does not end in `s`, and a low surrogate before a final `s` is not a line terminator. A string holding an unpaired surrogate cannot be written as a Dafny string and is not modelled.
- The four collaborators are total functions here. If one of them throws, the promise `main` returns rejects; the model does not capture that.
- Field `options` is an opaque type parameter, read only by the type mapper. Number values of custom headers are `real`, not IEEE doubles.
- The line-by-line lemmas (`LayoutProperties.SplitGenerateCode`, `LayoutProperties.*Layout`, `OutputProperties.SplitMain`, `OutputProperties.ModuleBlockAt`) require the collaborators' results to hold no newline. Otherwise the line positions shift. The text itself is given without that condition by `Layout.GenerateCodeLines` and `Layout.MainLines`.
