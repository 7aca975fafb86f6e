/**
 The name of the clean-table file written under the output prefix.
 The tool writes it as `<prefix>_genes_clean_tsv`, without the dot that
 would make it a `.tsv` file; the corrected name is `<prefix>_genes_clean.tsv`.
 */
module OutputName {

  predicate EndsWith(s: string, suffix: string) {
    |suffix| <= |s| && s[|s| - |suffix|..] == suffix
  }

  /** `name` is a `.tsv` file name that starts with `prefix`. */
  predicate IsTsvFileFor(prefix: string, name: string) {
    |prefix| <= |name| && name[..|prefix|] == prefix && EndsWith(name, ".tsv")
  }

  /** The file name as the tool builds it: the prefix followed by the
      sixteen characters of `_genes_clean_tsv`. */
  function CleanTableNameAsWritten(prefix: string): (name: string)
    ensures |name| == |prefix| + 16 && name[..|prefix|] == prefix
    ensures name[|prefix|..] == "_genes_clean_tsv"
  {
    prefix + "_genes_clean_tsv"
  }

  /** The name the tool evidently means: a tab-separated file with the
      `.tsv` extension. */
  function CleanTableName(prefix: string): string {
    prefix + "_genes_clean.tsv"
  }

  /** Whatever the prefix, the name as written never carries the `.tsv`
      extension. */
  lemma AsWrittenLacksExtension(prefix: string)
    ensures !EndsWith(CleanTableNameAsWritten(prefix), ".tsv")
  {
    var name := CleanTableNameAsWritten(prefix);
    assert name[|name| - 4] == '_';
  }

  /** The corrected name always carries the `.tsv` extension, and the
      prefix can be read back from it. */
  lemma CleanTableNameHasExtension(prefix: string)
    ensures IsTsvFileFor(prefix, CleanTableName(prefix))
  {
    var name := CleanTableName(prefix);
    assert name[|name| - 4..] == ".tsv";
  }
}
