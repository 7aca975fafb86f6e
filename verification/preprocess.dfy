/**
 The preprocessing step of the command-line tool (`main`): read the gene
 list, stop with an error when it holds no gene, otherwise normalize it and
 build the two-column clean table `gene_input` / `gene_normalized`.
 */
module Preprocess {
  import opened AsciiText
  import opened GeneList
  import opened MitoSymbols
  import opened OutputName

  /** One row of the clean table: an identifier as read from the file and
      its normalized form. */
  datatype CleanRow = CleanRow(geneInput: string, geneNormalized: string)

  /** The one fatal condition once the file has been read. */
  datatype PreprocessError = NoValidGenes

  /** Either the clean table together with the name of the file the tool
      writes it to, or the error. */
  datatype Outcome = Success(path: string, rows: seq<CleanRow>) | Failure(error: PreprocessError)

  /** The table built from two equally long columns, row by row. */
  function Table(inputs: seq<string>, normalized: seq<string>): seq<CleanRow>
    requires |inputs| == |normalized|
  {
    seq(|inputs|, i requires 0 <= i < |inputs| => CleanRow(inputs[i], normalized[i]))
  }

  function InputColumn(rows: seq<CleanRow>): (col: seq<string>)
    ensures |col| == |rows|
  {
    seq(|rows|, i requires 0 <= i < |rows| => rows[i].geneInput)
  }

  function NormalizedColumn(rows: seq<CleanRow>): (col: seq<string>)
    ensures |col| == |rows|
  {
    seq(|rows|, i requires 0 <= i < |rows| => rows[i].geneNormalized)
  }

  /** Building the table and reading its columns back gives the columns
      it was built from, each in its original order. */
  lemma TableColumns(inputs: seq<string>, normalized: seq<string>)
    requires |inputs| == |normalized|
    ensures InputColumn(Table(inputs, normalized)) == inputs
    ensures NormalizedColumn(Table(inputs, normalized)) == normalized
  {
  }

  /** The output prefix and the file lines in, the clean table or the error
      out. The error is reported exactly when no line names a gene;
      otherwise there is one row per gene line, in file order, pairing the
      identifier with its own normalization, bound for the file name the
      tool builds from the prefix. */
  function Preprocess(prefix: string, lines: seq<string>): (r: Outcome)
    ensures r.Failure? <==> ReadGeneList(lines) == []
    ensures r.Success? ==> r.path == CleanTableNameAsWritten(prefix)
    ensures r.Success? ==>
              && |r.rows| == |ReadGeneList(lines)| > 0
              && (forall i :: 0 <= i < |r.rows| ==>
                    && r.rows[i].geneInput == ReadGeneList(lines)[i]
                    && r.rows[i].geneNormalized == FixSymbol(MitoSynonyms, r.rows[i].geneInput))
  {
    var genes := ReadGeneList(lines);
    if genes == [] then Failure(NoValidGenes)
    else
      NormalizedRows(genes);
      Success(CleanTableNameAsWritten(prefix), Table(genes, FixMitoSymbols(genes)))
  }

  /** The table of a gene list pairs each gene with its own normalization. */
  lemma NormalizedRows(genes: seq<string>)
    ensures var rows := Table(genes, FixMitoSymbols(genes));
            && |rows| == |genes|
            && forall i :: 0 <= i < |rows| ==>
                 rows[i].geneInput == genes[i]
                 && rows[i].geneNormalized == FixSymbol(MitoSynonyms, rows[i].geneInput)
  {
  }

  /** In a successful table every input cell is a stripped gene line, and
      the normalized column is already normalized: normalizing it again
      changes nothing. */
  lemma PreprocessTableSettled(prefix: string, lines: seq<string>)
    requires Preprocess(prefix, lines).Success?
    ensures var rows := Preprocess(prefix, lines).rows;
            && (forall i :: 0 <= i < |rows| ==>
                  IsGeneLine(rows[i].geneInput) && Strip(rows[i].geneInput) == rows[i].geneInput)
            && FixMitoSymbols(NormalizedColumn(rows)) == NormalizedColumn(rows)
  {
    var genes := ReadGeneList(lines);
    TableColumns(genes, FixMitoSymbols(genes));
    FixMitoSymbolsIdempotent(genes);
  }

  /** The file "ND1\nCO1\n# comment\n\nATP6" with prefix "out" gives three
      rows, normalized to MT-ND1, MT-CO1 and MT-ATP6, bound for the file
      "out_genes_clean_tsv". */
  lemma PreprocessExample()
    ensures Preprocess("out", ["ND1\n", "CO1\n", "# comment\n", "\n", "ATP6"])
            == Success("out_genes_clean_tsv",
                       [CleanRow("ND1", "MT-ND1"),
                        CleanRow("CO1", "MT-CO1"),
                        CleanRow("ATP6", "MT-ATP6")])
  {
    ExampleName();
    ExampleGeneList();
    ExampleNormalized();
    ExampleTable();
  }

  lemma ExampleName()
    ensures CleanTableNameAsWritten("out") == "out_genes_clean_tsv"
  {
  }

  /** The example's two columns, zipped into rows. */
  lemma ExampleTable()
    ensures Table(["ND1", "CO1", "ATP6"], ["MT-ND1", "MT-CO1", "MT-ATP6"])
            == [CleanRow("ND1", "MT-ND1"), CleanRow("CO1", "MT-CO1"), CleanRow("ATP6", "MT-ATP6")]
  {
  }

  /** The gene lines of the example file. */
  lemma ExampleGeneList()
    ensures ReadGeneList(["ND1\n", "CO1\n", "# comment\n", "\n", "ATP6"]) == ["ND1", "CO1", "ATP6"]
  {
    ExampleLiterals();
    ExampleGenesKept();
    ExampleOthersDropped();
    ReadGeneListKeepsWholeLine("", "ATP6", "");
    ExampleJoin(["ND1\n", "CO1\n"], ["# comment\n", "\n"], ["ATP6"]);
  }

  lemma ExampleJoin(a: seq<string>, b: seq<string>, c: seq<string>)
    requires ReadGeneList(a) == ["ND1", "CO1"]
    requires ReadGeneList(b) == []
    requires ReadGeneList(c) == ["ATP6"]
    ensures ReadGeneList(a + b + c) == ["ND1", "CO1", "ATP6"]
  {
    ReadGeneListAppend(a, b);
    ReadGeneListAppend(a + b, c);
  }

  lemma ExampleGenesKept()
    ensures ReadGeneList(["ND1\n", "CO1\n"]) == ["ND1", "CO1"]
  {
    ExampleLiterals();
    ReadGeneListKeepsWholeLine("", "ND1", "\n");
    ReadGeneListKeepsWholeLine("", "CO1", "\n");
    ReadGeneListAppend(["ND1\n"], ["CO1\n"]);
  }

  lemma ExampleOthersDropped()
    ensures ReadGeneList(["# comment\n", "\n"]) == []
  {
    ExampleLiterals();
    StripUnique("# comment\n", "", "# comment", "\n");
    ReadGeneListOneLine("# comment\n");
    ReadGeneListOneLine("\n");
    ReadGeneListAppend(["# comment\n"], ["\n"]);
  }

  /** How the example's lines and identifiers decompose. These equalities
      are kept in a lemma of their own: proved in the same context as the
      unfolded `ReadGeneList` of the example file, they exhaust the
      verifier's resource budget. */
  lemma ExampleLiterals()
    ensures "" + "ND1" + "\n" == "ND1\n"
    ensures "" + "CO1" + "\n" == "CO1\n"
    ensures "" + "# comment" + "\n" == "# comment\n"
    ensures "" + "ATP6" + "" == "ATP6"
    ensures ["ND1\n"] + ["CO1\n"] == ["ND1\n", "CO1\n"]
    ensures ["# comment\n"] + ["\n"] == ["# comment\n", "\n"]
    ensures ["ND1\n", "CO1\n"] + ["# comment\n", "\n"] + ["ATP6"]
            == ["ND1\n", "CO1\n", "# comment\n", "\n", "ATP6"]
  {
  }

  /** The normalization of the example's genes. */
  lemma ExampleNormalized()
    ensures FixMitoSymbols(["ND1", "CO1", "ATP6"]) == ["MT-ND1", "MT-CO1", "MT-ATP6"]
  {
    ExampleGenesUpper();
  }

  lemma ExampleGenesUpper()
    ensures Upper("ND1") == "ND1" && Upper("CO1") == "CO1" && Upper("ATP6") == "ATP6"
  {
  }
}
