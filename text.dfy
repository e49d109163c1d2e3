/**
 Text helpers for the code emitter: JavaScript's `Array.prototype.join` on
 strings, and splitting a text into its newline-separated lines (the
 behaviour of `text.split("\n")`).
 */
module Text {

  /** `xs.join(sep)`: the elements in order with `sep` between neighbours; `[].join(sep)` is "". */
  function Join(xs: seq<string>, sep: string): (r: string)
  {
    if |xs| == 0 then ""
    else if |xs| == 1 then xs[0]
    else xs[0] + sep + Join(xs[1..], sep)
  }

  /** `s.split("\n")`: the maximal newline-free pieces of `s`, in order; "" splits to [""]. */
  function SplitLines(s: string): (lines: seq<string>)
    ensures |lines| >= 1
    decreases |s|
  {
    if s == [] then [[]]
    else
      var rest := SplitLines(s[1..]);
      if s[0] == '\n' then [[]] + rest
      else [[s[0]] + rest[0]] + rest[1..]
  }

  predicate NewlineFree(s: string)
  {
    '\n' !in s
  }

  predicate AllNewlineFree(lines: seq<string>)
  {
    forall i :: 0 <= i < |lines| ==> NewlineFree(lines[i])
  }

  /** Joining two non-empty lists is joining their joins. */
  lemma {:induction false} JoinAppend(xs: seq<string>, ys: seq<string>, sep: string)
    requires |xs| >= 1 && |ys| >= 1
    ensures Join(xs + ys, sep) == Join(xs, sep) + sep + Join(ys, sep)
  {
    if |xs| == 1 {
      assert xs + ys == [xs[0]] + ys;
      assert (xs + ys)[1..] == ys;
    } else {
      assert (xs + ys)[1..] == xs[1..] + ys;
      JoinAppend(xs[1..], ys, sep);
    }
  }

  /** Joining a list of at least two elements puts the separator after its first. */
  lemma JoinCons(x: string, xs: seq<string>, sep: string)
    requires |xs| >= 1
    ensures Join([x] + xs, sep) == x + sep + Join(xs, sep)
  {
    assert ([x] + xs)[1..] == xs;
  }

  /** Adding an element in front of a `join('')` prepends it. */
  lemma JoinEmptyCons(x: string, xs: seq<string>)
    ensures Join([x] + xs, "") == x + Join(xs, "")
  {
    if |xs| == 0 {
      assert [x] + xs == [x];
    } else {
      assert ([x] + xs)[1..] == xs;
    }
  }

  /** Each element written with a leading newline: `ms.map(m => "\n" + m)`. */
  function NewlinePrefixed(ms: seq<string>): (r: seq<string>)
    ensures |r| == |ms|
    ensures forall i :: 0 <= i < |ms| ==> r[i] == "\n" + ms[i]
  {
    seq(|ms|, i requires 0 <= i < |ms| => "\n" + ms[i])
  }

  /**
   Writing each of `ms` behind a newline and concatenating, after a text
   that is itself lines `xs`, gives the lines `xs + ms`.
   */
  lemma {:induction false} JoinNewlinePrefixed(xs: seq<string>, ms: seq<string>)
    requires |xs| >= 1
    ensures Join(xs + ms, "\n") == Join(xs, "\n") + Join(NewlinePrefixed(ms), "")
    decreases |ms|
  {
    if |ms| == 0 {
      assert xs + ms == xs;
    } else {
      var m0, rest := ms[0], ms[1..];
      assert xs + ms == (xs + [m0]) + rest;
      JoinNewlinePrefixed(xs + [m0], rest);
      JoinAppend(xs, [m0], "\n");
      assert NewlinePrefixed(ms) == ["\n" + m0] + NewlinePrefixed(rest);
      JoinEmptyCons("\n" + m0, NewlinePrefixed(rest));
    }
  }

  /** A newline-free text is a single line. */
  lemma {:induction false} SplitNewlineFree(s: string)
    requires NewlineFree(s)
    ensures SplitLines(s) == [s]
    decreases |s|
  {
    if s != [] {
      SplitNewlineFree(s[1..]);
      assert [s[0]] + s[1..] == s;
    }
  }

  /** A newline ends the newline-free line in front of it. */
  lemma {:induction false} SplitAtNewline(a: string, b: string)
    requires NewlineFree(a)
    ensures SplitLines(a + "\n" + b) == [a] + SplitLines(b)
    decreases |a|
  {
    if a == [] {
      assert a + "\n" + b == "\n" + b;
      assert ("\n" + b)[1..] == b;
    } else {
      var s := a + "\n" + b;
      assert s[0] == a[0];
      assert s[1..] == a[1..] + "\n" + b;
      SplitAtNewline(a[1..], b);
      assert [a[0]] + a[1..] == a;
    }
  }

  /** Splitting undoes joining with newlines, when no line holds a newline. */
  lemma {:induction false} SplitJoin(lines: seq<string>)
    requires |lines| >= 1 && AllNewlineFree(lines)
    ensures SplitLines(Join(lines, "\n")) == lines
    decreases |lines|
  {
    if |lines| == 1 {
      SplitNewlineFree(lines[0]);
    } else {
      assert NewlineFree(lines[0]);
      SplitAtNewline(lines[0], Join(lines[1..], "\n"));
      assert AllNewlineFree(lines[1..]) by {
        forall i | 0 <= i < |lines[1..]| ensures NewlineFree(lines[1..][i]) {
          assert lines[1..][i] == lines[i + 1];
        }
      }
      SplitJoin(lines[1..]);
      assert [lines[0]] + lines[1..] == lines;
    }
  }

  /** Blocks of lines with one empty line between neighbours; `[""]` when there are none. */
  function Interleave(blocks: seq<seq<string>>): (lines: seq<string>)
    decreases |blocks|
  {
    if |blocks| == 0 then [""]
    else if |blocks| == 1 then blocks[0]
    else blocks[0] + [""] + Interleave(blocks[1..])
  }

  /** The index in `Interleave(blocks)` of the first line of block `k`. */
  function Offset(blocks: seq<seq<string>>, k: nat): (start: nat)
    requires k <= |blocks|
    decreases k
  {
    if k == 0 then 0 else |blocks[0]| + 1 + Offset(blocks[1..], k - 1)
  }

  /** Where the first block and its separator sit in front of the rest. */
  lemma FrontSlices(first: seq<string>, rest: seq<string>)
    ensures (first + [""] + rest)[..|first|] == first
    ensures (first + [""] + rest)[|first|] == ""
  {
  }

  /** A slice of the rest, seen from in front of the first block and its separator. */
  lemma RestSlice(first: seq<string>, rest: seq<string>, a: nat, b: nat)
    requires a <= b <= |rest|
    ensures (first + [""] + rest)[|first| + 1 + a .. |first| + 1 + b] == rest[a..b]
  {
  }

  lemma RestIndex(first: seq<string>, rest: seq<string>, a: nat)
    requires a < |rest|
    ensures (first + [""] + rest)[|first| + 1 + a] == rest[a]
  {
  }

  /**
   Block `k` sits in the interleaving from `Offset(blocks, k)` on, followed
   by an empty line unless it is the last, which ends the interleaving.
   */
  lemma {:induction false} InterleaveAt(blocks: seq<seq<string>>, k: nat)
    requires k < |blocks|
    ensures k + 1 < |blocks| ==> Offset(blocks, k) + |blocks[k]| < |Interleave(blocks)|
    ensures k + 1 == |blocks| ==> |Interleave(blocks)| == Offset(blocks, k) + |blocks[k]|
    ensures Interleave(blocks)[Offset(blocks, k) .. Offset(blocks, k) + |blocks[k]|] == blocks[k]
    ensures k + 1 < |blocks| ==> Interleave(blocks)[Offset(blocks, k) + |blocks[k]|] == ""
    decreases k
  {
    if |blocks| == 1 {
      assert blocks[0][..] == blocks[0];
    } else {
      var first, rest := blocks[0], Interleave(blocks[1..]);
      assert Interleave(blocks) == first + [""] + rest;
      if k == 0 {
        FrontSlices(first, rest);
      } else {
        InterleaveAt(blocks[1..], k - 1);
        assert blocks[1..][k - 1] == blocks[k];
        var start := Offset(blocks[1..], k - 1);
        RestSlice(first, rest, start, start + |blocks[k]|);
        if k + 1 < |blocks| {
          RestIndex(first, rest, start + |blocks[k]|);
        }
      }
    }
  }

  /** The next block starts after this one and the empty line that follows it. */
  lemma {:induction false} OffsetNext(blocks: seq<seq<string>>, k: nat)
    requires k < |blocks|
    ensures Offset(blocks, k + 1) == Offset(blocks, k) + |blocks[k]| + 1
    decreases k
  {
    if k > 0 {
      OffsetNext(blocks[1..], k - 1);
      assert blocks[1..][k - 1] == blocks[k];
    }
  }

  /** Texts joined with blank lines are their line lists interleaved and joined with newlines. */
  lemma {:induction false} JoinInterleave(texts: seq<string>, blocks: seq<seq<string>>)
    requires |texts| == |blocks|
    requires forall i :: 0 <= i < |blocks| ==> |blocks[i]| >= 1 && texts[i] == Join(blocks[i], "\n")
    ensures Join(texts, "\n\n") == Join(Interleave(blocks), "\n")
    decreases |blocks|
  {
    if |blocks| > 1 {
      var first, rest := blocks[0], Interleave(blocks[1..]);
      JoinInterleave(texts[1..], blocks[1..]);
      JoinCons(texts[0], texts[1..], "\n\n");
      assert texts == [texts[0]] + texts[1..];
      JoinAppend(first, [""], "\n");
      JoinAppend(first + [""], rest, "\n");
      assert Join([""], "\n") == "";
      assert texts[0] + "\n\n" == texts[0] + "\n" + "" + "\n";
    }
  }

  lemma {:induction false} InterleaveNewlineFree(blocks: seq<seq<string>>)
    requires forall i :: 0 <= i < |blocks| ==> AllNewlineFree(blocks[i])
    ensures AllNewlineFree(Interleave(blocks))
    decreases |blocks|
  {
    if |blocks| == 0 {
      assert NewlineFree("");
    } else if |blocks| > 1 {
      assert AllNewlineFree(blocks[0]);
      InterleaveNewlineFree(blocks[1..]);
      assert AllNewlineFree([""]);
      AllNewlineFreeAppend(blocks[0], [""]);
      AllNewlineFreeAppend(blocks[0] + [""], Interleave(blocks[1..]));
    }
  }

  lemma AllNewlineFreeAppend(xs: seq<string>, ys: seq<string>)
    requires AllNewlineFree(xs) && AllNewlineFree(ys)
    ensures AllNewlineFree(xs + ys)
  {
    forall i | 0 <= i < |xs + ys| ensures NewlineFree((xs + ys)[i]) {
      if i < |xs| { assert (xs + ys)[i] == xs[i]; } else { assert (xs + ys)[i] == ys[i - |xs|]; }
    }
  }

  lemma PrefixSlice(pre: seq<string>, body: seq<string>, a: nat, b: nat)
    requires a <= b <= |body|
    ensures (pre + body)[..|pre|] == pre
    ensures (pre + body)[|pre| + a .. |pre| + b] == body[a..b]
  {
  }

  lemma PrefixIndex(pre: seq<string>, body: seq<string>, a: nat)
    requires a < |body|
    ensures (pre + body)[|pre| + a] == body[a]
  {
  }

  /** `InterleaveAt` behind a prefix of lines. */
  lemma InterleaveAfter(pre: seq<string>, blocks: seq<seq<string>>, k: nat)
    requires k < |blocks|
    ensures |pre| + Offset(blocks, k) + |blocks[k]| <= |pre + Interleave(blocks)|
    ensures k + 1 < |blocks| ==> |pre| + Offset(blocks, k) + |blocks[k]| < |pre + Interleave(blocks)|
    ensures k + 1 == |blocks| ==> |pre + Interleave(blocks)| == |pre| + Offset(blocks, k) + |blocks[k]|
    ensures (pre + Interleave(blocks))[|pre| + Offset(blocks, k) .. |pre| + Offset(blocks, k) + |blocks[k]|] == blocks[k]
    ensures k + 1 < |blocks| ==> (pre + Interleave(blocks))[|pre| + Offset(blocks, k) + |blocks[k]|] == ""
  {
    var body, start := Interleave(blocks), Offset(blocks, k);
    InterleaveAt(blocks, k);
    PrefixSlice(pre, body, start, start + |blocks[k]|);
    if k + 1 < |blocks| {
      PrefixIndex(pre, body, start + |blocks[k]|);
    }
  }

  /** InterleaveAfter, restated over names for the lines, the prefix length, the start and the size. */
  lemma PlacedBlock(lines: seq<string>, pre: seq<string>, blocks: seq<seq<string>>, k: nat, n: nat, start: nat, size: nat)
    requires k < |blocks| && lines == pre + Interleave(blocks)
    requires n == |pre| && start == Offset(blocks, k) && size == |blocks[k]|
    ensures n + start + size <= |lines|
    ensures k + 1 < |blocks| ==> n + start + size < |lines|
    ensures k + 1 == |blocks| ==> |lines| == n + start + size
    ensures lines[n + start .. n + start + size] == blocks[k]
    ensures k + 1 < |blocks| ==> lines[n + start + size] == ""
  {
    InterleaveAfter(pre, blocks, k);
  }
}
