# Multi-language recognition config generator, modelled in Dafny

The generator script of PaddleOCR's multi-language text recogniser,
`configs/rec/multi_language/generate_multi_language_configs.py`, works as follows:

1. It loads the template `rec_multi_language_lite_train.yml`.
2. It parses the `-o key=value` overrides.
3. It resolves the `-l` language token. The token is checked against a registry of supported
   codes and four script-family lists. It is mapped, first match wins, to `latin`, `arabic`,
   `cyrillic` or `devanagari`, or kept as it is.
4. It writes the five fields derived from that family into the configuration, then checks that
   the family's dictionary file exists.
5. It merges the overrides. A plain key replaces or shallow-updates a top-level entry. A dotted
   key walks existing mappings and assigns only the leaf.
6. It deletes an older output file.
7. It applies the `--train`, `--val`, `--dict` and `--data_dir` shortcuts. Each of them must
   name an existing path under the project root.
8. It writes `rec_<family>_lite_train.yml`.

The project is made of these modules:

- `Outcomes` (`outcomes.dfy`) holds `Option`, `Result` and the reasons a run stops.
- `Text` (`text.dfy`) holds Python's `str.split` on one character and `str.strip`.
- `ConfigValues` (`values.dfy`) holds parsed YAML values as a tree and path reads. It also holds
  the path write that the script performs through its `cur` cursor, with its frame lemmas.
- `Languages` (`languages.dfy`) holds the registry, the family lists and the classifier.
- `OptionParser` (`options.dfy`) holds `_parse_opt`. Its result is an insertion-ordered dict,
  as Python iterates it. The loop is a method proved against its fold.
- `Merge` (`merge.dfy`) holds `merge_config`, as one override and as the fold over all of them.
- `ConfigGenerator` (`generator.dfy`) holds the family fields, the shortcut block and the output
  name.
  - `Run` states a whole run as a function of its inputs. Its result is the events on the
    working directory plus the error, if any.
  - The class `Generator` owns `global_config` and changes it in place as the script does. Each
    of its methods is proved equal to the function that specifies it: its result, and on
    success its configuration.
  - `Generate` is the main program and is proved equal to `Run`.

Nothing outside the script is modelled. What `yaml.load` makes of an override value is a
parameter `load` (`None` is a YAML error). The filesystem is given as data:

- the names present in the working directory;
- the files and directories below the project root.

The model follows the code on three points that are easy to misread:

- **Output name.** The output is named after the *resolved* family. `parse_args` replaces the
  token with the value `_set_language` returns. `Run` and `OutputNeverTemplate` use the family.
- **Removal order.** An older output is removed *before* the shortcut paths are checked. A missing
  `--train` path therefore still deletes the old file (`RunEffects`,
  `RunRemovesBeforeShortcutCheck`).
- **Update of a non-mapping.** When a plain key's value is a mapping and the existing entry is
  not, `.update` fails. The entry is not replaced (`MergeOne`, error `NotAMapping`).

## Model

| member | source | states |
|---|---|---|
| Text.Split | configs/rec/multi_language/generate_multi_language_configs.py:117 | `split` gives one more piece than there are separators; no piece holds the separator; joining the pieces gives the input back |
| Text.SplitNoSeparator | configs/rec/multi_language/generate_multi_language_configs.py:164 | a key without `.` splits into itself alone |
| Text.SplitAfterPiece | configs/rec/multi_language/generate_multi_language_configs.py:117 | splitting `x + sep + y` yields `x`, then the pieces of `y` |
| Text.SplitJoin | configs/rec/multi_language/generate_multi_language_configs.py:117 | round trip: splitting the join of separator-free pieces gives the pieces |
| Text.TrimStart | configs/rec/multi_language/generate_multi_language_configs.py:116 | only leading whitespace is dropped, and the rest does not start with whitespace |
| Text.TrimEnd | configs/rec/multi_language/generate_multi_language_configs.py:116 | only trailing whitespace is dropped, and the rest does not end with whitespace |
| Text.Strip | configs/rec/multi_language/generate_multi_language_configs.py:116 | `strip()`: the result is a contiguous slice of the input with only whitespace around it, and it neither starts nor ends with whitespace |
| ConfigValues.GetSnoc | configs/rec/multi_language/generate_multi_language_configs.py:174-179 | one more step of the cursor walk is a lookup in the mapping reached so far |
| ConfigValues.GetAppend | configs/rec/multi_language/generate_multi_language_configs.py:174-179 | walking `p + q` is walking `p`, then `q` from there; a failed walk stays failed |
| ConfigValues.GetContainer | configs/rec/multi_language/generate_multi_language_configs.py:174-179 | a path that leads somewhere passes through a mapping just above its last key |
| ConfigValues.SetPath | configs/rec/multi_language/generate_multi_language_configs.py:174-179 | the leaf assignment succeeds iff every key before the last leads to a mapping; after it, the path reads the new value |
| ConfigValues.SetPathFrame | configs/rec/multi_language/generate_multi_language_configs.py:174-179 | every path that is neither a prefix nor an extension of the written one reads as before |
| ConfigValues.SetPathAncestors | configs/rec/multi_language/generate_multi_language_configs.py:174-179 | no intermediate mapping is created: every proper prefix was a mapping before and after, with the same keys except the leaf |
| ConfigValues.SetPathBelow | configs/rec/multi_language/generate_multi_language_configs.py:177 | below the written path, the tree is the written value |
| ConfigValues.SetPathSame | configs/rec/multi_language/generate_multi_language_configs.py:177 | writing the value a path already holds changes nothing |
| ConfigValues.SetPathKeepsDicts | configs/rec/multi_language/generate_multi_language_configs.py:174-179 | a write keeps "is a mapping" at every path that does not go through the written leaf |
| ConfigValues.Write | configs/rec/multi_language/generate_multi_language_configs.py:135-145 | a failed assignment names the path, and its container was not a mapping; a successful one reads back the value |
| ConfigValues.SetAllErr | configs/rec/multi_language/generate_multi_language_configs.py:135-145 | a failed chain of assignments reports an invalid path |
| ConfigValues.SetAllOkIff | configs/rec/multi_language/generate_multi_language_configs.py:135-145 | independent assignments all succeed iff each container exists in the starting configuration |
| ConfigValues.SetAllEffect | configs/rec/multi_language/generate_multi_language_configs.py:135-145 | after independent assignments, each path holds its value and every unrelated path is unchanged |
| OptionParser.Put | configs/rec/multi_language/generate_multi_language_configs.py:118 | `config[k] = v` on an insertion-ordered dict: an existing key's pair is replaced where it stands, a new key is appended; its properties are `PutSpec` |
| OptionParser.ParseOne | configs/rec/multi_language/generate_multi_language_configs.py:116-119 | one option: stripped, split on every `=`, exactly two pieces required, the value text loaded; the error names the option or the text; stated by `ParseOneRoundTrip`, `CleanOption` and `ParseOneMalformed` |
| OptionParser.ParseAll | configs/rec/multi_language/generate_multi_language_configs.py:111-119 | the dict built from the options left to right, the first bad option ending the parse; stated by `ParseErrorSticks`, `ParseOkIff`, `ParseFirstError`, `ParseLastWins` and `ParseKeys` |
| OptionParser.ParseSpec | configs/rec/multi_language/generate_multi_language_configs.py:111-119 | `_parse_opt`: `ParseAll` with `ParseOne` as the per-option parser; `ParseOpt` is proved to compute it |
| OptionParser.PutSpec | configs/rec/multi_language/generate_multi_language_configs.py:118 | dict assignment: the key maps to the new value, other keys are untouched, a new key is appended to the iteration order, and keys stay distinct |
| OptionParser.ParseOpt | configs/rec/multi_language/generate_multi_language_configs.py:111-119 | the loop computes the fold `ParseSpec`: no options give the empty dict, and a failing option fails the parse |
| OptionParser.ParseErrorSticks | configs/rec/multi_language/generate_multi_language_configs.py:115-118 | once a prefix of the options fails, the whole parse fails with that error |
| OptionParser.ParseOkIff | configs/rec/multi_language/generate_multi_language_configs.py:115-118 | the parse succeeds iff every option parses on its own |
| OptionParser.ParseFirstError | configs/rec/multi_language/generate_multi_language_configs.py:115-118 | a failed parse reports the error of the first bad option, and all options before it parse |
| OptionParser.ParseLastWins | configs/rec/multi_language/generate_multi_language_configs.py:118 | for a repeated key, the value of the last option with that key wins |
| OptionParser.ParseKeys | configs/rec/multi_language/generate_multi_language_configs.py:112-119 | the result holds each given key once, in order of first occurrence |
| OptionParser.ParseOneRoundTrip | configs/rec/multi_language/generate_multi_language_configs.py:116-118 | a clean `key=text` option gives back the key and the loaded text |
| OptionParser.CleanOption | configs/rec/multi_language/generate_multi_language_configs.py:116-117 | a clean `key=text` option strips to itself and splits into its key and its text |
| OptionParser.ParseOneMalformed | configs/rec/multi_language/generate_multi_language_configs.py:117 | a stripped option without exactly one `=` is rejected as malformed |
| Text.StripClean | configs/rec/multi_language/generate_multi_language_configs.py:116 | a string without surrounding whitespace is its own strip |
| Merge.KeyPath | configs/rec/multi_language/generate_multi_language_configs.py:170 | a key splits into one more segment than it has dots; a dotted key has at least two segments; a plain key is its own path |
| Merge.MergeAll | configs/rec/multi_language/generate_multi_language_configs.py:163-179 | `merge_config`: the overrides folded into the configuration in dict order, the first failing one ending the merge; stated by `MergeAllAppend`, `LastOverrideWins`, `MergeAllFrame` and `MergeTwiceCounterexample`, and `Generator.MergeConfig` is proved to compute it |
| Merge.MergeOne | configs/rec/multi_language/generate_multi_language_configs.py:164-179 | plain key: fails iff the value is a mapping and the existing entry is not; otherwise an existing mapping is shallow-updated (new keys win, old keys kept) or the entry is set or added, and no other key changes. Dotted key: fails iff the leaf's container is not a mapping, with UnknownRootKey when the root is absent; on success the leaf reads the value |
| Merge.MergeAllAppend | configs/rec/multi_language/generate_multi_language_configs.py:163 | merging `a + b` is merging `a`, then `b` into the result |
| Merge.LastOverrideWins | configs/rec/multi_language/generate_multi_language_configs.py:163-179 | later overrides win: after a successful merge, a dotted last override's path reads its value, and a plain last override with a non-mapping value is its top-level entry |
| Merge.MergeDottedFrame | configs/rec/multi_language/generate_multi_language_configs.py:169-179 | a dotted override changes no path unrelated to its own |
| Merge.OneKeepsOtherRoots | configs/rec/multi_language/generate_multi_language_configs.py:163-179 | an override keeps every top-level key other than its root |
| Merge.MergeAllFrame | configs/rec/multi_language/generate_multi_language_configs.py:163-179 | overrides none of which is rooted at `k` leave the top-level entry `k` as it was |
| Merge.MergeOneIdempotent | configs/rec/multi_language/generate_multi_language_configs.py:164-179 | applying the same override a second time changes nothing |
| Merge.PlainLocal | configs/rec/multi_language/generate_multi_language_configs.py:164-168 | a plain override's effect depends only on the entry already at its key |
| Merge.MergeAllPlainIdempotent | configs/rec/multi_language/generate_multi_language_configs.py:163-168 | plain overrides with distinct keys, merged twice, give what merging once gave |
| Merge.MergeTwiceCounterexample | configs/rec/multi_language/generate_multi_language_configs.py:163-179 | whole-map idempotence fails with dotted keys: `{A:{b:{}}}` merged with `A.b.c=1` then `A={b:5}` succeeds once but fails the second time |
| Languages.Resolve | configs/rec/multi_language/generate_multi_language_configs.py:127-134 | the first-match chain over the Latin, Arabic, Cyrillic and Devanagari lists, a token in none of them kept as it is; stated by `ClassifyRange`, `ClassifyFamily`, `ClassifyLatinRegistryCodes`, `SelfResolving` and `ClassifyStable` |
| Languages.Classify | configs/rec/multi_language/generate_multi_language_configs.py:124-134 | a token is accepted iff it is a registry code or in `multi_lang`; a rejection names the token |
| Languages.MultiLangMembers | configs/rec/multi_language/generate_multi_language_configs.py:60 | `multi_lang` membership is membership in one of the four family lists |
| Languages.ClassifyRange | configs/rec/multi_language/generate_multi_language_configs.py:124-134 | an accepted token resolves to one of the four families, or to itself when it is a registry-only code |
| Languages.ClassifyFamily | configs/rec/multi_language/generate_multi_language_configs.py:127-134 | first match wins, in the order latin, arabic, cyrillic, devanagari: every Latin-list code resolves to `latin`, every Arabic-list code to `arabic`, every Cyrillic-list code to `cyrillic` and every Devanagari-list code to `devanagari`, whatever the registry says about it |
| Languages.ArabicNotLatin | configs/rec/multi_language/generate_multi_language_configs.py:45-51 | no Arabic-list code is a Latin-list code |
| Languages.ClassifyLatinRegistryCodes | configs/rec/multi_language/generate_multi_language_configs.py:127-128 | `oc` and `it`, codes in both the registry and the Latin list, resolve to `latin` (first match) |
| Languages.SelfResolving | configs/rec/multi_language/generate_multi_language_configs.py:124-134 | a registry code in no family list resolves to itself |
| Languages.ClassifyTamil | configs/rec/multi_language/generate_multi_language_configs.py:124-134 | `ta` resolves to `ta` |
| Languages.ClassifySerbianLatin | configs/rec/multi_language/generate_multi_language_configs.py:127-134 | `rs` stays `rs`, while `rs_latin` resolves to `latin` |
| Languages.LatinNameResolves | configs/rec/multi_language/generate_multi_language_configs.py:127-128 | the token `latin` resolves to `latin` |
| Languages.CyrillicNameResolves | configs/rec/multi_language/generate_multi_language_configs.py:131-132 | the token `cyrillic` resolves to `cyrillic` |
| Languages.DevanagariNameResolves | configs/rec/multi_language/generate_multi_language_configs.py:133-134 | the token `devanagari` resolves to `devanagari` |
| Languages.ArabicNameRejected | configs/rec/multi_language/generate_multi_language_configs.py:124-126 | the token `arabic` is rejected: it is in neither the Arabic list nor the registry |
| Languages.ClassifyStable | configs/rec/multi_language/generate_multi_language_configs.py:124-134 | classifying a resolved name again gives it back, except for `arabic` |
| ConfigGenerator.SetLanguageSpec | configs/rec/multi_language/generate_multi_language_configs.py:121-153 | `_set_language`: no token, an unsupported token, a missing mapping or a missing dictionary stops it; otherwise the resolved family and the configuration with the five family fields written; stated by `SetLanguageOutcome` and `SetLanguageEffect`, and `Generator.SetLanguage` is proved to compute it |
| ConfigGenerator.SetFamilySpec | configs/rec/multi_language/generate_multi_language_configs.py:135-152 | the five family fields written, then the family's dictionary required below the project root; stated by `FamilyFieldsOkIff` and `SetFamilyChecked`, and `Generator.ApplyFamily` is proved to compute it |
| ConfigGenerator.Shortcut | configs/rec/multi_language/generate_multi_language_configs.py:182-185 | one shortcut block: when given, its fields are written and its path must exist (`loss_file`); stated by `ShortcutEffect`, and `Generator.ApplyShortcut` is proved to compute it |
| ConfigGenerator.Shortcuts | configs/rec/multi_language/generate_multi_language_configs.py:195-211 | the four shortcut blocks in the script's order; stated by `ShortcutTrain`, `ShortcutVal`, `ShortcutDict`, `ShortcutDataDir` and `ShortcutsFrame` |
| ConfigGenerator.Prepare | configs/rec/multi_language/generate_multi_language_configs.py:105-109 | everything before the disk is touched: options parsed, language set, then overrides merged; stated by `PrepareFamily`, `PrepareWithoutOptions`, `PrepareOverrideWins` and `PrepareItalian` |
| ConfigGenerator.Finish | configs/rec/multi_language/generate_multi_language_configs.py:189-215 | the removal of an older output, then the shortcuts, then the write; stated by `FinishEffects`, `FinishShortcutsWin`, `FinishRemovesBeforeShortcutCheck` and `FinishAgain` |
| ConfigGenerator.Run | configs/rec/multi_language/generate_multi_language_configs.py:62-68 | a whole run, which stops untouched when the template is missing or preparation fails; stated by `RunEffects`, `RunShortcutsWin`, `RunItalian`, `RunAgain`, and `Generate` is proved to compute it |
| ConfigGenerator.FamilyFieldsIndependent | configs/rec/multi_language/generate_multi_language_configs.py:135-145 | the five family fields lie on pairwise unrelated paths |
| ConfigGenerator.FamilyFieldsOkIff | configs/rec/multi_language/generate_multi_language_configs.py:135-145 | the five fields can be written iff the template has `Global`, `Train.dataset` and `Eval.dataset` mappings |
| ConfigGenerator.SetLanguageOutcome | configs/rec/multi_language/generate_multi_language_configs.py:121-153 | every outcome of `_set_language`: no token, an unsupported token, a template missing a mapping, a missing dictionary file, or success with the resolved family |
| ConfigGenerator.SetLanguageEffect | configs/rec/multi_language/generate_multi_language_configs.py:135-145 | afterwards the dictionary path, model directory, both label lists and character type hold the family's values, and every unrelated path is unchanged |
| ConfigGenerator.LatinFields | configs/rec/multi_language/generate_multi_language_configs.py:135-145 | the five Latin values, written out |
| ConfigGenerator.ShortcutEffect | configs/rec/multi_language/generate_multi_language_configs.py:182-185 | a shortcut that went through was absent, or names an existing path and holds its value; unrelated paths are unchanged either way |
| ConfigGenerator.ShortcutWritesIndependent | configs/rec/multi_language/generate_multi_language_configs.py:207-209 | each shortcut writes pairwise unrelated paths |
| ConfigGenerator.ShortcutsKeep | configs/rec/multi_language/generate_multi_language_configs.py:195-211 | each step of the shortcut block keeps every path unrelated to its own fields |
| ConfigGenerator.ShortcutPathsApart | configs/rec/multi_language/generate_multi_language_configs.py:195-211 | the five shortcut fields are pairwise unrelated |
| ConfigGenerator.ShortcutTrain | configs/rec/multi_language/generate_multi_language_configs.py:195-198 | a given `--train` exists and is the one-element training label list; without it the list is as before |
| ConfigGenerator.ShortcutVal | configs/rec/multi_language/generate_multi_language_configs.py:199-202 | a given `--val` exists and is the one-element evaluation label list; without it the list is as before |
| ConfigGenerator.ShortcutDict | configs/rec/multi_language/generate_multi_language_configs.py:203-206 | a given `--dict` exists and is the dictionary path; without it the path is as before |
| ConfigGenerator.ShortcutDataDir | configs/rec/multi_language/generate_multi_language_configs.py:207-211 | a given `--data_dir` exists and is both dataset roots; without it both are as before |
| ConfigGenerator.ShortcutsFrame | configs/rec/multi_language/generate_multi_language_configs.py:195-211 | the shortcut block changes nothing outside its five fields |
| ConfigGenerator.OutputNeverTemplate | configs/rec/multi_language/generate_multi_language_configs.py:191 | no accepted token makes the output name equal the template's name |
| ConfigGenerator.PrepareFamily | configs/rec/multi_language/generate_multi_language_configs.py:105-109 | a prepared run carries the family that its first `-l` token resolves to |
| ConfigGenerator.PrepareWithoutOptions | configs/rec/multi_language/generate_multi_language_configs.py:111-114 | without overrides, preparing a run is setting the language |
| ConfigGenerator.PrepareOverrideWins | configs/rec/multi_language/generate_multi_language_configs.py:105-109 | overrides are merged after the family fields: a dotted last override is what the prepared configuration holds at its path, even over a family field such as `Global.character_dict_path`, while the dictionary check has tested the family's own dictionary |
| ConfigGenerator.FinishEffects | configs/rec/multi_language/generate_multi_language_configs.py:191-215 | the last stage's effects are well formed under the family's output name: an older output is removed, first, exactly when it exists, whatever the shortcuts then do; nothing else is removed; the write comes last and happens iff no shortcut failed |
| ConfigGenerator.RunEffects | configs/rec/multi_language/generate_multi_language_configs.py:188-215 | nothing is touched, and the run reports an error, unless the template exists and parsing, classification and merging succeed; then the effects are well formed (an older output is removed first exactly when it exists, then the write iff there is no error) under the family's output name, which is never the template's |
| ConfigGenerator.FinishShortcutsWin | configs/rec/multi_language/generate_multi_language_configs.py:195-211 | the written output holds every given shortcut's value, whatever the family and overrides set |
| ConfigGenerator.RunShortcutsWin | configs/rec/multi_language/generate_multi_language_configs.py:189-211 | shortcuts are applied last: a successful run's output holds each given shortcut's value |
| ConfigGenerator.PrepareItalian | configs/rec/multi_language/generate_multi_language_configs.py:121-145 | without overrides and with a template holding the `Global`, `Train.dataset` and `Eval.dataset` mappings, `-l it` resolves to `latin` and sets the five Latin fields |
| ConfigGenerator.RunItalian | configs/rec/multi_language/generate_multi_language_configs.py:188-215 | `-l it` with no overrides or shortcuts, a template holding the three mappings and the Latin dictionary present writes `rec_latin_lite_train.yml` holding the Latin dictionary, model directory, label lists and character type |
| ConfigGenerator.RunItalianNoDictionary | configs/rec/multi_language/generate_multi_language_configs.py:146-152 | `-l it` with well-formed options, a template holding the three mappings and no Latin dictionary stops with MissingDictionary, and nothing is removed or written |
| ConfigGenerator.FinishRemovesBeforeShortcutCheck | configs/rec/multi_language/generate_multi_language_configs.py:191-198 | with an older output present and a missing `--train` path, the last stage removes the older output and then stops with MissingFile |
| ConfigGenerator.RunRemovesBeforeShortcutCheck | configs/rec/multi_language/generate_multi_language_configs.py:191-198 | a run without overrides, with an older output present and a missing `--train` path, removes the older output and then stops with MissingFile |
| ConfigGenerator.FinishAgain | configs/rec/multi_language/generate_multi_language_configs.py:191-193 | finishing again with the output present removes it and writes the same configuration |
| ConfigGenerator.RunAgain | configs/rec/multi_language/generate_multi_language_configs.py:188-215 | re-running once the output exists removes it and writes the same configuration under the same name |
| ConfigGenerator.Generator.constructor | configs/rec/multi_language/generate_multi_language_configs.py:67-68 | the configuration starts as the loaded template |
| ConfigGenerator.Generator.Assign | configs/rec/multi_language/generate_multi_language_configs.py:174-179 | the cursor walk followed by the leaf assignment computes `Write`; a failed walk leaves the configuration untouched |
| ConfigGenerator.Generator.SetFamily | configs/rec/multi_language/generate_multi_language_configs.py:135-145 | the five assignments, one after the other, compute `SetAll` |
| ConfigGenerator.Generator.SetLanguage | configs/rec/multi_language/generate_multi_language_configs.py:121-153 | `_set_language` in place computes `SetLanguageSpec`: the same family or error, and the same configuration on success |
| ConfigGenerator.Generator.ApplyFamily | configs/rec/multi_language/generate_multi_language_configs.py:135-152 | writing the family fields and checking the dictionary in place computes `SetFamilySpec` |
| ConfigGenerator.Generator.MergeConfig | configs/rec/multi_language/generate_multi_language_configs.py:156-179 | the loop over the overrides computes `MergeAll` |
| ConfigGenerator.Generator.ApplyShortcut | configs/rec/multi_language/generate_multi_language_configs.py:195-206 | one single-field shortcut block computes `Shortcut` |
| ConfigGenerator.Generator.ApplyDataDir | configs/rec/multi_language/generate_multi_language_configs.py:207-211 | the `--data_dir` block, evaluation root first, computes `Shortcut` on both roots |
| ConfigGenerator.Generator.ApplyShortcuts | configs/rec/multi_language/generate_multi_language_configs.py:195-211 | the four shortcut blocks in the script's order compute `Shortcuts` |
| ConfigGenerator.Generate | configs/rec/multi_language/generate_multi_language_configs.py:188-215 | the main program's events and error are exactly `Run`'s |

## Left out

- YAML is not modelled. Loading the template (lines 67-68) is replaced by a given `Config`;
  a template that fails to load or is not a mapping is not modelled. An override value's load
  (line 118) is the parameter `load`. The dump (lines 213-215) is the `Written` event, which
  carries the configuration value, not its text. Key order at every level is not modelled:
  configurations and nested mappings are `map`s, so the order `dict.update` and assignment
  give (existing keys kept in place, new keys appended), which `sort_keys=False` dumps, is
  lost.
- YAML anchors that make two places in a value share one mapping are not modelled. Values are
  trees, so an assignment through one place never shows at another.
- Argument parsing itself (lines 72-106) is left out. The parsed arguments are the input `Args`,
  and an absent option is the empty sequence or string.
- Filesystem access is given as data rather than performed: `os.path.isfile`,
  `os.path.exists`, `os.remove`, `open` and the `project_path` computation (lines 62, 69,
  146-152, 182-185, 192-193, 213). The working directory and the tree under the project root
  are independent sets. Removing the older output is not reflected in what `Exists` answers
  for a path under the root.
- Error messages and exception kinds are left out; only which error stops the run is modelled.
  With no `-l` at all, line 122 raises before the check at line 123 can report it. The model
  reports MissingLanguage for both.
- ConfigGenerator.Generator.MergeConfig: after a failed override, the state of the configuration
  is not stated. The script has applied the overrides before the failing one, but it then
  stops, so that state is never written.
- Merge.MergeAllPlainIdempotent: whole-map idempotence is proved only for distinct plain keys.
  With dotted keys it does not hold, as Merge.MergeTwiceCounterexample shows.
- ConfigGenerator.SetLanguageOutcome: when the template lacks a mapping, the error is stated
  as an invalid path without naming which one.
- ConfigGenerator.RunAgain: a re-run is shown to produce the same configuration value, not the
  same bytes, because the YAML dump is left out.
- Logging (lines 19 and 216-227) is left out. Lines 216-227 run after the output is written
  and read `Train.dataset.label_file_list[0]`, `Eval.dataset.label_file_list[0]`,
  `Eval.dataset.data_dir` and `Global.character_dict_path` as eager `.format` arguments. When an
  override or the template leaves one of them out, or leaves a label list empty, the script
  raises there, after the file is written. The model has no such step: `error == None` in
  `Run`, `RunEffects`, `RunItalian` and the other run lemmas means that the output was written,
  not that the script exited cleanly.
- Five of the stops are `assert`s: MissingTemplate (line 62), UnsupportedLanguage
  (lines 124-126), MissingDictionary (lines 146-152), UnknownRootKey (lines 171-173) and
  MissingFile (lines 183-185). The model assumes assertions are enabled. Under `python -O`
  those checks vanish and the script goes on instead of stopping. The other stops are
  exceptions, which `-O` keeps: MissingLanguage (line 122, where `type[0]` on a missing `-l`
  raises), MalformedOption (line 117), UnparsableValue (line 118), NotAMapping (line 166) and
  InvalidPath (lines 136-145, 174-179, 196-209).
