/**
 Properties of the whole generated module: the fixed header, the table
 blocks in schema order with one empty line between neighbours, the base id
 shared by every block, and independence from the transport settings.
 */
module OutputProperties {
  import opened Text
  import opened Codegen
  import opened Layout
  import opened LayoutProperties

  /** The number of lines of a table's block. */
  function BlockSize<O>(t: TableSchema<O>): (size: nat)
  {
    3 * |t.fields| + 13
  }

  /** The next block starts after this block and its separating empty line. */
  lemma {:induction false} BlockStartNext<O>(schema: BaseSchema<O>, k: nat)
    requires k < |schema|
    ensures BlockStart(schema, k + 1) == BlockStart(schema, k) + BlockSize(schema[k]) + 1
    decreases k
  {
    if k > 0 {
      BlockStartNext(schema[1..], k - 1);
      assert schema[1..][k - 1] == schema[k];
    }
  }

  /** Block positions depend only on the blocks' lengths. */
  lemma {:induction false} OffsetBySize<O>(blocks: seq<seq<string>>, schema: BaseSchema<O>, k: nat)
    requires |blocks| == |schema| && k <= |schema|
    requires forall j :: 0 <= j < |schema| ==> |blocks[j]| == BlockSize(schema[j])
    ensures BlockStart(schema, k) == Offset(blocks, k)
    decreases k
  {
    if k > 0 {
      assert |blocks[0]| == BlockSize(schema[0]);
      assert forall j :: 0 <= j < |schema[1..]| ==> |blocks[1..][j]| == BlockSize(schema[1..][j]) by {
        forall j | 0 <= j < |schema[1..]| ensures |blocks[1..][j]| == BlockSize(schema[1..][j]) {
          assert blocks[1..][j] == blocks[j + 1] && schema[1..][j] == schema[j + 1];
        }
      }
      OffsetBySize(blocks[1..], schema[1..], k - 1);
    }
  }

  /** `BlockStart`, computed from field counts alone, is where `Interleave` puts block `k`. */
  lemma BlockStartIsOffset<O>(h: Collaborators<O>, config: Config, schema: BaseSchema<O>, k: nat)
    requires k <= |schema|
    ensures BlockStart(schema, k) == Offset(AllBlockLines(h, config, schema), k)
  {
    var blocks := AllBlockLines(h, config, schema);
    forall j | 0 <= j < |schema| ensures |blocks[j]| == BlockSize(schema[j]) {
      assert blocks[j] == BlockLines(h, config, schema[j]);
    }
    OffsetBySize(blocks, schema, k);
  }

  lemma BlocksNewlineFree<O>(h: Collaborators<O>, config: Config, schema: BaseSchema<O>)
    requires SchemaNewlineFree(h, config, schema)
    ensures forall i :: 0 <= i < |schema| ==> AllNewlineFree(AllBlockLines(h, config, schema)[i])
  {
    forall i | 0 <= i < |schema| ensures AllNewlineFree(AllBlockLines(h, config, schema)[i]) {
      assert TableNewlineFree(h, config, schema[i]);
      BlockLinesNewlineFree(h, config, schema[i]);
    }
  }

  lemma NewlineFreeAppend(a: string, b: string)
    requires NewlineFree(a) && NewlineFree(b)
    ensures NewlineFree(a + b)
  {
  }

  lemma BannerStartNewlineFree()
    ensures NewlineFree("/* DO NOT EDIT: ")
  {
  }

  lemma BannerMiddleNewlineFree()
    ensures NewlineFree("this file was automatically ")
  {
  }

  lemma BannerEndNewlineFree()
    ensures NewlineFree("generated by airtable-ts-codegen */")
  {
  }

  lemma BannerNewlineFree()
    ensures NewlineFree(Banner)
  {
    BannerStartNewlineFree();
    BannerMiddleNewlineFree();
    BannerEndNewlineFree();
    NewlineFreeAppend("/* DO NOT EDIT: ", "this file was automatically ");
    NewlineFreeAppend("/* DO NOT EDIT: " + "this file was automatically ", "generated by airtable-ts-codegen */");
  }

  lemma LintSwitchNewlineFree()
    ensures NewlineFree(LintSwitch)
  {
  }

  lemma ImportLineNewlineFree()
    ensures NewlineFree(ImportLine)
  {
  }

  lemma HeaderLinesNewlineFree()
    ensures AllNewlineFree(HeaderLines)
  {
    BannerNewlineFree();
    LintSwitchNewlineFree();
    ImportLineNewlineFree();
    assert NewlineFree("");
  }

  lemma OutputLinesNewlineFree<O>(h: Collaborators<O>, config: Config, schema: BaseSchema<O>)
    requires SchemaNewlineFree(h, config, schema)
    ensures AllNewlineFree(OutputLines(h, config, schema))
  {
    BlocksNewlineFree(h, config, schema);
    InterleaveNewlineFree(AllBlockLines(h, config, schema));
    HeaderLinesNewlineFree();
    AllNewlineFreeAppend(HeaderLines, BodyLines(h, config, schema));
  }

  /** Split at newlines, the generated module is exactly `OutputLines`. */
  lemma SplitMain<O>(h: Collaborators<O>, config: Config, schema: BaseSchema<O>)
    requires SchemaNewlineFree(h, config, schema)
    ensures SplitLines(Main(h, config, schema)) == OutputLines(h, config, schema)
  {
    MainLines(h, config, schema);
    OutputLinesNewlineFree(h, config, schema);
    SplitJoin(OutputLines(h, config, schema));
  }

  lemma SliceIndex(xs: seq<string>, a: nat, b: nat, j: nat)
    requires a <= b <= |xs| && j < b - a
    ensures xs[a..b][j] == xs[a + j]
  {
  }

  lemma OutputLinesInterleaved<O>(h: Collaborators<O>, config: Config, schema: BaseSchema<O>)
    ensures OutputLines(h, config, schema) == HeaderLines + Interleave(AllBlockLines(h, config, schema))
    ensures |HeaderLines| == 4
  {
  }

  lemma BlockAt<O>(h: Collaborators<O>, config: Config, schema: BaseSchema<O>, k: nat)
    requires k < |schema|
    ensures AllBlockLines(h, config, schema)[k] == BlockLines(h, config, schema[k])
    ensures |AllBlockLines(h, config, schema)[k]| == BlockSize(schema[k])
  {
  }

  /** Block `k` in the module's lines, behind the four header lines. */
  lemma OutputBlockAt<O>(h: Collaborators<O>, config: Config, schema: BaseSchema<O>, k: nat)
    requires k < |schema|
    ensures 4 + BlockStart(schema, k) + BlockSize(schema[k]) <= |OutputLines(h, config, schema)|
    ensures k + 1 < |schema| ==> 4 + BlockStart(schema, k) + BlockSize(schema[k]) < |OutputLines(h, config, schema)|
    ensures OutputLines(h, config, schema)[4 + BlockStart(schema, k) .. 4 + BlockStart(schema, k) +BlockSize(schema[k])]
         == BlockLines(h, config, schema[k])
    ensures k + 1 < |schema| ==> OutputLines(h, config, schema)[4 + BlockStart(schema, k) + BlockSize(schema[k])] == ""
    ensures k + 1 == |schema| ==> |OutputLines(h, config, schema)| == 4 + BlockStart(schema, k) + BlockSize(schema[k])
  {
    var lines, blocks := OutputLines(h, config, schema), AllBlockLines(h, config, schema);
    OutputLinesInterleaved(h, config, schema);
    BlockAt(h, config, schema, k);
    BlockStartIsOffset(h, config, schema, k);
    PlacedBlock(lines, HeaderLines, blocks, k, 4, BlockStart(schema, k), BlockSize(schema[k]));
  }

  /** Block `k` in the split text of the module. */
  lemma ModuleBlockAt<O>(h: Collaborators<O>, config: Config, schema: BaseSchema<O>, k: nat)
    requires SchemaNewlineFree(h, config, schema) && k < |schema|
    ensures 4 + BlockStart(schema, k) + BlockSize(schema[k]) <= |SplitLines(Main(h, config, schema))|
    ensures k + 1 < |schema| ==> 4 + BlockStart(schema, k) + BlockSize(schema[k]) < |SplitLines(Main(h, config, schema))|
    ensures SplitLines(Main(h, config, schema))[4 + BlockStart(schema, k) .. 4 + BlockStart(schema, k) + BlockSize(schema[k])]
         == SplitLines(GenerateCode(h, config, schema[k]))
    ensures k + 1 < |schema| ==> SplitLines(Main(h, config, schema))[4 + BlockStart(schema, k) + BlockSize(schema[k])] == ""
    ensures k + 1 == |schema| ==> |SplitLines(Main(h, config, schema))| == 4 + BlockStart(schema, k) + BlockSize(schema[k])
  {
    SplitMain(h, config, schema);
    OutputBlockAt(h, config, schema, k);
    assert TableNewlineFree(h, config, schema[k]);
    SplitGenerateCode(h, config, schema[k]);
  }

  /** The module opens with the three header lines and an empty line. */
  lemma ModuleHeader<O>(h: Collaborators<O>, config: Config, schema: BaseSchema<O>)
    ensures |OutputLines(h, config, schema)| >= 5
    ensures OutputLines(h, config, schema)[..4] == [Banner, LintSwitch, ImportLine, ""]
  {
    PrefixSlice(HeaderLines, BodyLines(h, config, schema), 0, 0);
    if schema != [] {
      OutputBlockAt(h, config, schema, 0);
    }
  }

  /** For an empty schema one empty line follows the header and nothing else. */
  lemma ModuleWithoutTables<O>(h: Collaborators<O>, config: Config)
    ensures OutputLines(h, config, []) == [Banner, LintSwitch, ImportLine, "", ""]
  {
    assert BodyLines(h, config, []) == [""];
  }

  /** Every table's block, in schema order, at the position its predecessors' field counts fix. */
  lemma ModuleBlocks<O>(h: Collaborators<O>, config: Config, schema: BaseSchema<O>)
    ensures forall k :: 0 <= k < |schema| ==>
      && 4 + BlockStart(schema, k) + BlockSize(schema[k]) <= |OutputLines(h, config, schema)|
      && OutputLines(h, config, schema)[4 + BlockStart(schema, k) .. 4 + BlockStart(schema, k) + BlockSize(schema[k])]
         == BlockLines(h, config, schema[k])
  {
    forall k | 0 <= k < |schema|
      ensures 4 + BlockStart(schema, k) + BlockSize(schema[k]) <= |OutputLines(h, config, schema)|
      ensures OutputLines(h, config, schema)[4 + BlockStart(schema, k) .. 4 + BlockStart(schema, k) + BlockSize(schema[k])]
         == BlockLines(h, config, schema[k])
    {
      OutputBlockAt(h, config, schema, k);
    }
  }

  /** Each block but the first is preceded by one empty line. */
  lemma ModuleSeparators<O>(h: Collaborators<O>, config: Config, schema: BaseSchema<O>)
    ensures forall k :: 1 <= k < |schema| ==>
      && 3 + BlockStart(schema, k) < |OutputLines(h, config, schema)|
      && OutputLines(h, config, schema)[3 + BlockStart(schema, k)] == ""
  {
    forall k | 1 <= k < |schema|
      ensures 3 + BlockStart(schema, k) < |OutputLines(h, config, schema)|
      ensures OutputLines(h, config, schema)[3 + BlockStart(schema, k)] == ""
    {
      OutputBlockAt(h, config, schema, k - 1);
      BlockStartNext(schema, k - 1);
    }
  }

  /** The last block ends the module. */
  lemma ModuleEnd<O>(h: Collaborators<O>, config: Config, schema: BaseSchema<O>)
    requires |schema| >= 1
    ensures |OutputLines(h, config, schema)| == 4 + BlockStart(schema, |schema| - 1) + BlockSize(schema[|schema| - 1])
  {
    OutputBlockAt(h, config, schema, |schema| - 1);
  }

  /** Table `k`'s `baseId` line in the module's lines. */
  lemma BaseIdAt<O>(h: Collaborators<O>, config: Config, schema: BaseSchema<O>, k: nat)
    requires k < |schema|
    ensures 4 + BlockStart(schema, k) + |schema[k].fields| + 6 < |OutputLines(h, config, schema)|
    ensures OutputLines(h, config, schema)[4 + BlockStart(schema, k) + |schema[k].fields| + 6]
         == "  baseId: '" + h.escapeString(config.baseId) + "',"
  {
    var start, size := 4 + BlockStart(schema, k), BlockSize(schema[k]);
    OutputBlockAt(h, config, schema, k);
    BindingLinesAt(h, config, schema[k]);
    SliceIndex(OutputLines(h, config, schema), start, start + size, |schema[k].fields| + 6);
  }

  /** Every table's block carries the same `baseId` line, the escaped base id of the configuration. */
  lemma EveryBlockSharesBaseId<O>(h: Collaborators<O>, config: Config, schema: BaseSchema<O>)
    ensures forall k :: 0 <= k < |schema| ==>
      && 4 + BlockStart(schema, k) + |schema[k].fields| + 6 < |OutputLines(h, config, schema)|
      && OutputLines(h, config, schema)[4 + BlockStart(schema, k) + |schema[k].fields| + 6]
         == "  baseId: '" + h.escapeString(config.baseId) + "',"
  {
    forall k | 0 <= k < |schema|
      ensures 4 + BlockStart(schema, k) + |schema[k].fields| + 6 < |OutputLines(h, config, schema)|
      ensures OutputLines(h, config, schema)[4 + BlockStart(schema, k) + |schema[k].fields| + 6]
         == "  baseId: '" + h.escapeString(config.baseId) + "',"
    {
      BaseIdAt(h, config, schema, k);
    }
  }

  /** With no tables the module is the header alone. */
  lemma MainEmptySchema<O>(h: Collaborators<O>, config: Config)
    ensures Main(h, config, []) == Header
  {
  }

  lemma {:induction false} GenerateBlocksAppend<O>(h: Collaborators<O>, config: Config, schema: BaseSchema<O>, t: TableSchema<O>)
    ensures GenerateBlocks(h, config, schema + [t]) == GenerateBlocks(h, config, schema) + [GenerateCode(h, config, t)]
    decreases |schema|
  {
    if schema == [] {
      assert [] + [t] == [t];
      assert [t][1..] == [];
    } else {
      assert (schema + [t])[1..] == schema[1..] + [t];
      GenerateBlocksAppend(h, config, schema[1..], t);
    }
  }

  /** Associativity over abstract strings, so that the solver need not unfold the blocks. */
  lemma Regroup(x: string, y: string, z: string, w: string)
    ensures x + (y + z + w) == x + y + z + w
  {
  }

  /**
   Appending a table to the schema appends its block to the module, after a
   blank line unless it is the first: blocks appear in schema order.
   */
  lemma MainAppend<O>(h: Collaborators<O>, config: Config, schema: BaseSchema<O>, t: TableSchema<O>)
    ensures Main(h, config, schema + [t])
         == if schema == [] then Header + GenerateCode(h, config, t)
            else Main(h, config, schema) + "\n\n" + GenerateCode(h, config, t)
  {
    var blocks := GenerateBlocks(h, config, schema);
    var block := GenerateCode(h, config, t);
    GenerateBlocksAppend(h, config, schema, t);
    if schema == [] {
      assert blocks + [block] == [block];
    } else {
      JoinAppend(blocks, [block], "\n\n");
      assert Join([block], "\n\n") == block;
      Regroup(Header, Join(blocks, "\n\n"), "\n\n", block);
    }
  }

  lemma {:induction false} BlocksIgnoreTransport<O>(h: Collaborators<O>, c1: Config, c2: Config, schema: BaseSchema<O>)
    requires c1.baseId == c2.baseId
    ensures GenerateBlocks(h, c1, schema) == GenerateBlocks(h, c2, schema)
    decreases |schema|
  {
    if schema != [] {
      BlocksIgnoreTransport(h, c1, c2, schema[1..]);
    }
  }

  /**
   The module depends on the configuration only through `baseId`: the API
   key, endpoint, timeout and custom headers never reach the output.
   */
  lemma OutputIgnoresTransport<O>(h: Collaborators<O>, c1: Config, c2: Config, schema: BaseSchema<O>)
    requires c1.baseId == c2.baseId
    ensures Main(h, c1, schema) == Main(h, c2, schema)
  {
    BlocksIgnoreTransport(h, c1, c2, schema);
  }
}
