/**
 Heuristic normalization of mitochondrial gene symbols
 (`heuristics_fix_mito_symbols` over the `MITO_SYNONYMS` table).

 Each identifier is upper-cased and looked up in the synonym table; a hit is
 replaced by the canonical `MT-` symbol, a miss is passed through exactly as
 written, in its original casing. The table is a parameter of the general
 functions, so that any table can be substituted; the tool itself uses
 `MitoSynonyms`.
 */
module MitoSymbols {
  import opened AsciiText

  /** The fifteen bare mitochondrial symbols and their canonical names. */
  const MitoSynonyms: map<string, string> := map[
    "ND1"  := "MT-ND1",
    "ND2"  := "MT-ND2",
    "ND3"  := "MT-ND3",
    "ND4"  := "MT-ND4",
    "ND4L" := "MT-ND4L",
    "ND5"  := "MT-ND5",
    "ND6"  := "MT-ND6",
    "CYB"  := "MT-CYB",
    "CO1"  := "MT-CO1",
    "CO2"  := "MT-CO2",
    "CO3"  := "MT-CO3",
    "ATP6" := "MT-ATP6",
    "ATP8" := "MT-ATP8",
    "RNR1" := "MT-RNR1",
    "RNR2" := "MT-RNR2"
  ]

  /** A table is settled when no upper-cased value is itself a key, so a
      value that comes out of the table is never rewritten again. */
  ghost predicate Settled(table: map<string, string>) {
    forall k :: k in table ==> Upper(table[k]) !in table
  }

  /** Normalization of one identifier against `table`: a hit on the
      upper-cased identifier gives the table value, a miss gives the
      identifier back as written. */
  function FixSymbol(table: map<string, string>, g: string): (r: string)
    ensures Upper(g) in table ==> r == table[Upper(g)]
    ensures Upper(g) !in table ==> r == g
  {
    var u := Upper(g);
    if u in table then table[u] else g
  }

  /** Normalization of a list: same length, and entry `i` of the result is
      the normalization of entry `i` of the input alone. */
  function FixSymbols(table: map<string, string>, genes: seq<string>): (fixed: seq<string>)
    ensures |fixed| == |genes|
    ensures forall i :: 0 <= i < |genes| ==> fixed[i] == FixSymbol(table, genes[i])
  {
    if genes == [] then []
    else FixSymbols(table, genes[..|genes| - 1]) + [FixSymbol(table, genes[|genes| - 1])]
  }

  /** Every canonical name is the bare key behind the prefix `MT-`. */
  lemma MitoSynonymsPrefixed()
    ensures forall k :: k in MitoSynonyms ==> MitoSynonyms[k] == "MT-" + k
  {
  }

  /** The table's keys are exactly the fifteen bare symbols. */
  lemma MitoSynonymsKeys()
    ensures MitoSynonyms.Keys == {"ND1", "ND2", "ND3", "ND4", "ND4L", "ND5", "ND6", "CYB",
                                  "CO1", "CO2", "CO3", "ATP6", "ATP8", "RNR1", "RNR2"}
  {
  }

  /** No key of the mitochondrial table contains a hyphen. */
  lemma MitoKeysHaveNoHyphen()
    ensures forall k :: k in MitoSynonyms ==> '-' !in k
  {
  }

  /** The tool's normalization: a hit becomes `MT-` followed by the
      upper-cased identifier; a miss is returned unchanged, not upper-cased. */
  function FixMitoSymbols(genes: seq<string>): (fixed: seq<string>)
    ensures |fixed| == |genes|
    ensures forall i :: 0 <= i < |genes| ==>
              fixed[i] == (if Upper(genes[i]) in MitoSynonyms
                           then "MT-" + Upper(genes[i])
                           else genes[i])
  {
    MitoSynonymsPrefixed();
    FixSymbols(MitoSynonyms, genes)
  }

  /** Lookup ignores case: identifiers that agree once upper-cased and are
      in the table normalize to the same table value. */
  lemma FixSymbolCaseInsensitive(table: map<string, string>, a: string, b: string)
    requires Upper(a) == Upper(b) && Upper(a) in table
    ensures FixSymbol(table, a) == table[Upper(a)]
    ensures FixSymbol(table, b) == table[Upper(a)]
  {
  }

  /** A miss leaves the identifier exactly as written. */
  lemma FixSymbolPassThrough(table: map<string, string>, g: string)
    requires Upper(g) !in table
    ensures FixSymbol(table, g) == g
  {
  }

  /** "nd1", "ND1" and "Nd1" all become "MT-ND1"; "tp53" is not a
      mitochondrial alias and keeps its lower case. */
  lemma FixMitoSymbolExamples()
    ensures FixMitoSymbols(["nd1", "ND1", "Nd1", "tp53"]) == ["MT-ND1", "MT-ND1", "MT-ND1", "tp53"]
  {
    ExampleUpper();
  }

  lemma ExampleUpper()
    ensures Upper("nd1") == "ND1" && Upper("ND1") == "ND1" && Upper("Nd1") == "ND1"
    ensures Upper("tp53") == "TP53"
  {
  }

  /** The mitochondrial table is settled: every value carries a hyphen,
      upper-casing keeps it, and no key has one. */
  lemma MitoSynonymsSettled()
    ensures Settled(MitoSynonyms)
  {
    MitoSynonymsPrefixed();
    MitoKeysHaveNoHyphen();
    forall k | k in MitoSynonyms
      ensures Upper(MitoSynonyms[k]) !in MitoSynonyms
    {
      assert Upper(MitoSynonyms[k])[2] == '-';
    }
  }

  /** With a settled table, normalizing twice is normalizing once. */
  lemma FixSymbolIdempotent(table: map<string, string>, g: string)
    requires Settled(table)
    ensures FixSymbol(table, FixSymbol(table, g)) == FixSymbol(table, g)
  {
  }

  /** With a settled table, list normalization is idempotent. */
  lemma FixSymbolsIdempotent(table: map<string, string>, genes: seq<string>)
    requires Settled(table)
    ensures FixSymbols(table, FixSymbols(table, genes)) == FixSymbols(table, genes)
  {
    var once := FixSymbols(table, genes);
    forall i | 0 <= i < |genes|
      ensures FixSymbols(table, once)[i] == once[i]
    {
      FixSymbolIdempotent(table, genes[i]);
    }
  }

  /** The tool's normalization is idempotent. */
  lemma FixMitoSymbolsIdempotent(genes: seq<string>)
    ensures FixMitoSymbols(FixMitoSymbols(genes)) == FixMitoSymbols(genes)
  {
    MitoSynonymsSettled();
    FixSymbolsIdempotent(MitoSynonyms, genes);
  }

  /** With the mitochondrial table an identifier is rewritten exactly when
      its upper-cased form is a bare mitochondrial symbol: a canonical name
      is three characters longer than the identifier it replaces. */
  lemma FixMitoSymbolChangesExactlyOnHit(g: string)
    ensures FixSymbol(MitoSynonyms, g) != g <==> Upper(g) in MitoSynonyms
  {
    MitoSynonymsPrefixed();
    if Upper(g) in MitoSynonyms {
      assert |FixSymbol(MitoSynonyms, g)| == |g| + 3;
    }
  }
}
