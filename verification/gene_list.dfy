/**
 Reading the gene list: the part of `read_gene_list` that runs after the
 file has been opened. The file arrives as its sequence of lines (each may
 still carry its line terminator); every line is stripped, blank lines and
 `#` comment lines are dropped, and every other line is kept as one whole
 gene identifier, in file order.
 */
module GeneList {
  import opened AsciiText

  /** A stripped line names a gene when it is neither empty nor a comment. */
  predicate IsGeneLine(s: string) {
    s != [] && s[0] != '#'
  }

  /** The gene identifiers of a file, one per non-blank, non-comment line.
      Each one is already stripped, non-empty and not a comment. */
  function ReadGeneList(lines: seq<string>): (genes: seq<string>)
    ensures |genes| <= |lines|
    ensures forall k :: 0 <= k < |genes| ==>
              IsGeneLine(genes[k]) && Strip(genes[k]) == genes[k]
  {
    if lines == [] then []
    else
      var genes := ReadGeneList(lines[..|lines| - 1]);
      var s := Strip(lines[|lines| - 1]);
      if IsGeneLine(s) then
        StripIdempotent(lines[|lines| - 1]);
        genes + [s]
      else genes
  }

  /** Reading a file split in two reads each part and concatenates. */
  lemma {:induction false} ReadGeneListAppend(a: seq<string>, b: seq<string>)
    ensures ReadGeneList(a + b) == ReadGeneList(a) + ReadGeneList(b)
    decreases |b|
  {
    if b == [] {
      assert a + b == a;
    } else {
      var b' := b[..|b| - 1];
      assert (a + b)[..|a + b| - 1] == a + b';
      assert (a + b)[|a + b| - 1] == b[|b| - 1];
      ReadGeneListAppend(a, b');
    }
  }

  /** `idx` lists, in increasing order, the positions of exactly those lines
      that name a gene, and `genes` holds the stripped text of those lines. */
  ghost predicate IsSelection(lines: seq<string>, genes: seq<string>, idx: seq<nat>) {
    && |idx| == |genes|
    && (forall k :: 0 <= k < |idx| ==> idx[k] < |lines| && genes[k] == Strip(lines[idx[k]]))
    && (forall k, k' :: 0 <= k < k' < |idx| ==> idx[k] < idx[k'])
    && (forall j :: 0 <= j < |lines| ==> (j in idx <==> IsGeneLine(Strip(lines[j]))))
  }

  /** The gene list is the order-preserving selection of the gene lines:
      every gene line contributes exactly one entry (no deduplication),
      every other line contributes nothing, and file order is kept. */
  lemma {:induction false} ReadGeneListSelection(lines: seq<string>) returns (idx: seq<nat>)
    ensures IsSelection(lines, ReadGeneList(lines), idx)
  {
    if lines == [] {
      idx := [];
    } else {
      var n := |lines| - 1;
      var idx' := ReadGeneListSelection(lines[..n]);
      if IsGeneLine(Strip(lines[n])) {
        idx := idx' + [n];
        SelectionExtend(lines, ReadGeneList(lines[..n]), idx', Strip(lines[n]));
      } else {
        idx := idx';
        SelectionSkip(lines, ReadGeneList(lines[..n]), idx');
      }
    }
  }

  /** One step of the selection proof: a gene line at the end extends both
      the gene list and the index list. */
  lemma SelectionExtend(lines: seq<string>, genes: seq<string>, idx: seq<nat>, s: string)
    requires |lines| > 0 && s == Strip(lines[|lines| - 1]) && IsGeneLine(s)
    requires IsSelection(lines[..|lines| - 1], genes, idx)
    ensures IsSelection(lines, genes + [s], idx + [|lines| - 1])
  {
    ExtendEntries(lines, genes, idx, s);
    ExtendMembership(lines, genes, idx, s);
  }

  lemma ExtendEntries(lines: seq<string>, genes: seq<string>, idx: seq<nat>, s: string)
    requires |lines| > 0 && s == Strip(lines[|lines| - 1])
    requires IsSelection(lines[..|lines| - 1], genes, idx)
    ensures var idx2, genes2 := idx + [|lines| - 1], genes + [s];
            forall k :: 0 <= k < |idx2| ==> idx2[k] < |lines| && genes2[k] == Strip(lines[idx2[k]])
  {
    var n := |lines| - 1;
    var idx2, genes2 := idx + [n], genes + [s];
    forall k | 0 <= k < |idx2|
      ensures idx2[k] < |lines| && genes2[k] == Strip(lines[idx2[k]])
    {
      if k < |idx| {
        assert lines[..n][idx[k]] == lines[idx[k]];
      }
    }
  }

  lemma ExtendMembership(lines: seq<string>, genes: seq<string>, idx: seq<nat>, s: string)
    requires |lines| > 0 && s == Strip(lines[|lines| - 1]) && IsGeneLine(s)
    requires IsSelection(lines[..|lines| - 1], genes, idx)
    ensures var idx2 := idx + [|lines| - 1];
            forall j :: 0 <= j < |lines| ==> (j in idx2 <==> IsGeneLine(Strip(lines[j])))
  {
    var n := |lines| - 1;
    var idx2 := idx + [n];
    forall j | 0 <= j < |lines|
      ensures j in idx2 <==> IsGeneLine(Strip(lines[j]))
    {
      if j < n {
        assert lines[..n][j] == lines[j];
        assert j in idx2 <==> j in idx;
      }
    }
  }

  /** One step of the selection proof: a blank or comment line at the end
      changes neither list. */
  lemma SelectionSkip(lines: seq<string>, genes: seq<string>, idx: seq<nat>)
    requires |lines| > 0 && !IsGeneLine(Strip(lines[|lines| - 1]))
    requires IsSelection(lines[..|lines| - 1], genes, idx)
    ensures IsSelection(lines, genes, idx)
  {
    var n := |lines| - 1;
    forall k | 0 <= k < |idx|
      ensures idx[k] < |lines| && genes[k] == Strip(lines[idx[k]])
    {
      assert lines[..n][idx[k]] == lines[idx[k]];
    }
    forall j | 0 <= j < |lines|
      ensures j in idx <==> IsGeneLine(Strip(lines[j]))
    {
      if j < n {
        assert lines[..n][j] == lines[j];
      } else {
        assert j !in idx;
      }
    }
  }

  /** A line is never split into several genes, not at commas and not at
      inner whitespace: a line holding the trimmed text `g` (say
      "ND1, CO1  ATP6") between any surrounding whitespace, its terminator
      included, yields exactly the one identifier `g`. */
  lemma ReadGeneListKeepsWholeLine(a: string, g: string, b: string)
    requires AllSpace(a) && AllSpace(b) && IsTrimmed(g) && IsGeneLine(g)
    ensures ReadGeneList([a + g + b]) == [g]
  {
    StripUnique(a + g + b, a, g, b);
    ReadGeneListOneLine(a + g + b);
  }

  /** A line is dropped exactly when it is blank or, once stripped, starts
      with `#`. */
  lemma ReadGeneListDropsBlankAndComment(line: string)
    ensures ReadGeneList([line]) == [] <==>
              AllSpace(line) || (Strip(line) != [] && Strip(line)[0] == '#')
  {
    ReadGeneListOneLine(line);
  }

  /** A one-line file yields that line, stripped, if it names a gene. */
  lemma ReadGeneListOneLine(line: string)
    ensures ReadGeneList([line]) == (if IsGeneLine(Strip(line)) then [Strip(line)] else [])
  {
    assert [line][..0] == [];
  }
}
