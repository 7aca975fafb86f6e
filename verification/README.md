# Gene-list preprocessing, modelled in Dafny

This project models the preprocessing step of a small gene-list tool
(`scripts/mi_script.py`). The step reads a text file of gene identifiers,
one per line, and skips blank lines and `#` comment lines. It rewrites the
common bare mitochondrial symbols (`ND1`, `CO1`, `ATP6`, …) to their
canonical `MT-` names using a fixed fifteen-entry synonym table. It stops
with an error when the file holds no gene. Otherwise it produces a
two-column table, `gene_input` / `gene_normalized`, with one row per gene.

Modules, one per concern of the script:

- `AsciiText` (`ascii_text.dfy`): `str.strip()` and `str.upper()`, restricted to ASCII.
- `GeneList` (`gene_list.dfy`): the line filter of `read_gene_list`.
- `MitoSymbols` (`mito_symbols.dfy`): `MITO_SYNONYMS` and `heuristics_fix_mito_symbols`.
  The table is a parameter of `FixSymbol` / `FixSymbols`, so any table can be
  substituted. Idempotence is proved for every *settled* table, meaning one
  where no upper-cased value is again a key. It is then proved that the
  mitochondrial table is settled.
- `OutputName` (`output_name.dfy`): the clean-table file name (see Findings).
- `Preprocess` (`preprocess.dfy`): the part of `main` that checks for an
  empty list and builds the table.

The input file reaches the model as its sequence of lines, as Python's
file iteration delivers them, line terminators included. Opening and
reading the file is not modelled.

Each stripped line is kept whole as one identifier; lines are not split
at commas or whitespace: `"ND1, CO1  ATP6"` is one identifier
(`GeneList.ReadGeneListKeepsWholeLine`). The clean table's file name is the
one the code builds, `<prefix>_genes_clean_tsv` (`OutputName.CleanTableNameAsWritten`);
the name with a `.tsv` extension is defined alongside it as the corrected
half of the finding below and is not used by `Preprocess`.

## Model

| member | source | states |
|---|---|---|
| AsciiText.Strip | scripts/mi_script.py:35-36 | the stripped line has no whitespace at either end, and it is empty exactly when the line is blank (the `not s` test) |
| AsciiText.StripSlice | scripts/mi_script.py:35 | `strip` only removes characters: the result is a contiguous slice of the line with nothing but whitespace before and after it |
| AsciiText.StripUnique | scripts/mi_script.py:35 | independent characterisation of `strip`: for any split of a line into whitespace, a trimmed middle and more whitespace, `strip` returns that middle |
| AsciiText.StripIdempotent | scripts/mi_script.py:35 | stripping twice is stripping once |
| AsciiText.Upper | scripts/mi_script.py:49 | `upper` keeps the length, shifts each lower-case letter to its capital, changes nothing else, and so leaves no lower-case letter |
| AsciiText.UpperIdempotent | scripts/mi_script.py:49 | upper-casing twice is upper-casing once |
| GeneList.ReadGeneList | scripts/mi_script.py:31-39 | every returned identifier is stripped, non-empty and does not start with `#`; there are never more identifiers than lines |
| GeneList.ReadGeneListSelection | scripts/mi_script.py:34-38 | the result is exactly the stripped text of the gene lines, one entry per gene line (no deduplication), in file order: a strictly increasing index list picks out precisely the lines that are neither blank nor comments |
| GeneList.ReadGeneListAppend | scripts/mi_script.py:34-38 | reading two consecutive parts of a file is reading each part and concatenating, so the filter is line-by-line and order-preserving |
| GeneList.ReadGeneListDropsBlankAndComment | scripts/mi_script.py:35-37 | a line contributes nothing exactly when it is blank or its stripped text starts with `#` |
| GeneList.ReadGeneListOneLine | scripts/mi_script.py:35-38 | a single line contributes its stripped text when it names a gene and nothing otherwise |
| GeneList.ReadGeneListKeepsWholeLine | scripts/mi_script.py:35-38 | a line is never split at commas or inner whitespace: a trimmed gene line with any surrounding whitespace yields exactly that one identifier |
| MitoSymbols.FixSymbol | scripts/mi_script.py:49 | the identifier is upper-cased for the lookup; a hit gives the table value, a miss gives the identifier back in its original casing |
| MitoSymbols.FixSymbols | scripts/mi_script.py:47-50 | the normalized list has the input's length, and entry i is the normalization of input entry i alone |
| MitoSymbols.FixSymbolCaseInsensitive | scripts/mi_script.py:49 | identifiers that agree after upper-casing and hit the table both yield the table value, so lookup ignores case |
| MitoSymbols.FixSymbolPassThrough | scripts/mi_script.py:44-49 | on a miss the identifier comes back exactly as written, not upper-cased |
| MitoSymbols.MitoSynonymsKeys | scripts/mi_script.py:9-25 | the table's keys are exactly the fifteen bare symbols `ND1`-`ND6`, `ND4L`, `CYB`, `CO1`-`CO3`, `ATP6`, `ATP8`, `RNR1`, `RNR2` |
| MitoSymbols.MitoSynonymsPrefixed | scripts/mi_script.py:9-25 | every canonical name in the table is `MT-` followed by its key |
| MitoSymbols.MitoKeysHaveNoHyphen | scripts/mi_script.py:9-25 | no key of the table contains a hyphen |
| MitoSymbols.MitoSynonymsSettled | scripts/mi_script.py:9-25 | no upper-cased value of the table is itself a key |
| MitoSymbols.FixMitoSymbols | scripts/mi_script.py:42-50 | the tool's normalization keeps the length; on a hit entry i becomes `MT-` plus the upper-cased identifier, and on a miss it is the identifier unchanged |
| MitoSymbols.FixMitoSymbolExamples | scripts/mi_script.py:42-50 | `nd1`, `ND1` and `Nd1` all become `MT-ND1`, while `tp53` stays lower-case |
| MitoSymbols.FixMitoSymbolChangesExactlyOnHit | scripts/mi_script.py:9-50 | with the mitochondrial table an identifier is rewritten if and only if its upper-cased form is a key |
| MitoSymbols.FixSymbolIdempotent | scripts/mi_script.py:49 | with a settled table, normalizing one identifier twice is normalizing it once |
| MitoSymbols.FixSymbolsIdempotent | scripts/mi_script.py:47-50 | with a settled table, list normalization is idempotent |
| MitoSymbols.FixMitoSymbolsIdempotent | scripts/mi_script.py:9-50 | the tool's normalization is idempotent |
| Preprocess.Preprocess | scripts/mi_script.py:80-95 | the error is returned exactly when no line names a gene; otherwise there is one row per gene in file order, row i pairs gene i with its own normalization, and the file name is the one line 95 builds from the prefix |
| Preprocess.TableColumns | scripts/mi_script.py:88-93 | building the table from two equal-length columns and reading the columns back returns them unchanged and in order |
| Preprocess.NormalizedRows | scripts/mi_script.py:85-93 | in the table built from a gene list, every row pairs a gene with its own normalization |
| Preprocess.PreprocessTableSettled | scripts/mi_script.py:85-93 | in a successful table every input cell is a stripped gene line, and normalizing the normalized column again changes nothing |
| Preprocess.PreprocessExample | scripts/mi_script.py:72-95 | with prefix `out`, the file `ND1`, `CO1`, `# comment`, blank, `ATP6` gives three rows normalized to `MT-ND1`, `MT-CO1`, `MT-ATP6`, bound for `out_genes_clean_tsv` |
| OutputName.CleanTableNameAsWritten | scripts/mi_script.py:95 | the file name the code builds starts with the prefix, followed by the sixteen characters `_genes_clean_tsv` |
| OutputName.AsWrittenLacksExtension | scripts/mi_script.py:95 | the file name as written never ends in `.tsv`, whatever the prefix |
| OutputName.CleanTableNameHasExtension | scripts/mi_script.py:95 | the corrected file name always ends in `.tsv` and starts with the prefix |

## Left out

- Argument parsing and the output-directory logic (lines 55-70): this is command-line and filesystem plumbing. A prefix without a directory makes the script create `results/`, yet it writes the file next to the prefix. That behaviour is not modelled.
- Opening the input file, the missing-file error and `sys.exit` (lines 33, 73-82): this is I/O. The model receives the lines of the file. Only the "no gene means error" decision is kept, as `Failure(NoValidGenes)`.
- Writing the table with pandas `to_csv` (line 96): a foreign library and file output. The table is a sequence of `CleanRow` values.
- Console messages (lines 76, 81, 99-101).
- AsciiText.Strip: only ASCII whitespace is removed. The set is tab, line feed, vertical tab, form feed, carriage return, 0x1C-0x1F and space. Python also strips Unicode whitespace such as U+0085 and U+00A0.
- AsciiText.Upper: only `a`-`z` are upper-cased, one character at a time. Python's Unicode upper-casing, including case mappings that change the length (`ß` to `SS`), is not modelled.
- MitoSymbols.MitoSynonymsKeys: the table's size of fifteen entries is not stated as a cardinality; the key set is given literally instead, because proving the size of a fifteen-string set is too costly for the solver.

## Findings

| source | as written | input that shows it | evidently intended | confidence | as-written member | corrected member |
|---|---|---|---|---|---|---|
| scripts/mi_script.py:95 | the clean table is written to `f"{out_prefix}_genes_clean_tsv"`, with an underscore where the extension's dot belongs | prefix `results/run`: the file is `results/run_genes_clean_tsv`, which has no `.tsv` extension | `<prefix>_genes_clean.tsv`. The comment on line 87 says the results go into a `.tsv`, and the file is written tab-separated | high (not executed) | OutputName.AsWrittenLacksExtension | OutputName.CleanTableNameHasExtension |
