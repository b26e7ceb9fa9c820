# InputSanitizer of nanoqm, modelled in Dafny

nanoqm's `InputSanitizer` (in `nanoqm/workflows/input_validation.py`) takes a
configuration that the schema has already validated and fills in the derived
CP2K settings. It does this in two job-settings trees, "main" and "guess",
which live in the general CP2K settings. `sanitize` runs these stages in
order:

- `create_settings` wraps both job trees as qmflows `Settings`.
- `apply_templates` replaces a `specific.template` entry by the named
  template, with the user's keywords overlaid on it.
- `add_missing_keywords` does four things:
  - it computes `nHOMO` when the user left it unset;
  - when `compute_orbitals` is set, it stores the MO window
    `mo_index_range` and writes the CP2K print keywords into the main tree;
  - it gives the guess tree the restart file;
  - it writes the basis and potential files, the cell, the periodicity,
    the charge and the multiplicity into both trees.
- `add_executable` copies the executable into both trees.
- `print_final_input` converts everything back to plain dictionaries with
  `recursive_traverse`.

The files:

- `values.dfy` holds the YAML/Python value a configuration is made of, and
  a `Settings` mapping is a `Dict` of kind `Settings`.
- `settings_tree.dfy` holds the nested-tree operations:
  - lookup along a dotted path;
  - attribute assignment `s.a.b.c = v` (SetPath), which creates the
    missing sections;
  - an auto-creating read (Touch);
  - the `Settings` conversion;
  - overlay, modelled as a recursive right-wins merge.
- `pytext.dfy` holds Python's `str` of an integer and `os.path.join`.
- `input_validation.dfy` (module InputValidation) holds:
  - each stage as a pure function on one job tree;
  - the HOMO arithmetic and `recursive_traverse`;
  - the stages composed into the job tree that `sanitize` returns;
  - what each stage writes and what it leaves alone.
- `sanitize.dfy` states the whole `sanitize` call as one function of the
  validated input, `SanitizedInput`, and proves what it returns.
- `sanitizer.dfy` is the `InputSanitizer` object. It is a class whose fields
  are the user input and the two job trees, and it has one method per
  source method. Each method is proved to change the fields exactly as the
  matching function of InputValidation says. `Sanitize` as a whole is
  proved to return `SanitizedInput` of the input it started from.

How the model stands for the source:

- A `Value` is one of None, bool, int, float, str, list, tuple, or a
  mapping (a plain dict or a `Settings`). A float is a `real`.
- Python integers are unbounded, and so are the model's. `//` and `%` by 2
  agree with Dafny's Euclidean operators, so the HOMO index is right for a
  negative electron count too.
- The molecule's atom symbols, the valence-electron table, the template
  factory, `os.path.abspath` and `Path.absolute` are parameters.
- A missing valence entry makes Python raise `KeyError`. The model returns
  `Failure(MissingValence(key))` instead, naming the first atom's key.

## Model

Paths are relative to the repository root; `P` below is
`nanoqm/workflows/input_validation.py`.

| member | source | states |
|---|---|---|
| PyText.NatToString | nanoqm/workflows/input_validation.py:265-266 | the decimal text of a natural number is a non-empty run of digits without leading zeros |
| PyText.NatToStringValue | nanoqm/workflows/input_validation.py:265-266 | the digits of that text have the number as their value |
| PyText.IntToString | nanoqm/workflows/input_validation.py:265-266 | Python's `str` of an int is non-empty and has no space, and it starts with `-` exactly when the int is negative |
| PyText.IntToStringRoundTrip | nanoqm/workflows/input_validation.py:265-266 | parsing the text back gives the integer |
| PyText.IntToStringInjective | nanoqm/workflows/input_validation.py:265-266 | different integers give different texts |
| PyText.Join | nanoqm/workflows/input_validation.py:190-191 | `os.path.join(a, b)` ends with b, and starts with a unless b is absolute |
| Values.Truthy | nanoqm/workflows/input_validation.py:139 | Python's truth test of `if x:`: None, False, zero, and empty strings and containers are false. By ReadWindow and UserKeywords the window is computed exactly when `compute_orbitals` passes it |
| Values.Get | nanoqm/workflows/input_validation.py:135-139 | `dict.get(k)`: the stored value, or None when k is absent. By HomoStage an absent `nHOMO` and a None one are treated alike, and by ReadWindow an absent `compute_orbitals` computes no window |
| SettingsTree.SetPath | nanoqm/workflows/input_validation.py:237 | after `s.p1. ... .pn = v`, the path reads v; the top level gains exactly the key p1 and keeps its kind |
| SettingsTree.Touch | nanoqm/workflows/input_validation.py:203 | reading a section of a `Settings` creates it as an empty `Settings` when it is absent and changes nothing when it is present |
| SettingsTree.TouchFrame | nanoqm/workflows/input_validation.py:116 | such a read leaves every path that branches off the section unchanged |
| SettingsTree.SetPathFrameAt | nanoqm/workflows/input_validation.py:229-237 | an assignment leaves every path that branches off the assigned one at a given depth unchanged |
| SettingsTree.SetPathFrame | nanoqm/workflows/input_validation.py:229-237 | an assignment leaves every path that neither extends nor prefixes the assigned one unchanged |
| SettingsTree.SetPathTwice | nanoqm/workflows/input_validation.py:200-208 | assigning the same path twice is the same as the last assignment alone |
| SettingsTree.ShapedDescendable | nanoqm/workflows/input_validation.py:198 | in a tree whose CP2K sections are all mappings, every section chain can be descended by attribute access |
| SettingsTree.SetPathShaped | nanoqm/workflows/input_validation.py:229 | assigning a leaf keyword keeps the CP2K sections mappings |
| SettingsTree.SetPathAllSettings | nanoqm/workflows/input_validation.py:229 | assigning a value without plain dicts keeps the tree `Settings` all the way down |
| SettingsTree.ToSettings | nanoqm/workflows/input_validation.py:109-110 | `Settings(d)` is `Settings` all the way down, has the same keys, and leaves a non-mapping as it is |
| SettingsTree.ToSettingsShaped | nanoqm/workflows/input_validation.py:109-110 | the conversion keeps the CP2K sections mappings |
| SettingsTree.Merge | nanoqm/workflows/input_validation.py:125 | `template.overlay(user)` of two `Settings` has the union of their keys; otherwise the user value replaces the template |
| SettingsTree.MergeUserWins | nanoqm/workflows/input_validation.py:125 | every keyword the user sets survives the overlay unchanged |
| SettingsTree.MergeKeepsDefaults | nanoqm/workflows/input_validation.py:125 | a template keyword the user does not set survives the overlay |
| SettingsTree.MergeShaped | nanoqm/workflows/input_validation.py:125 | the overlay of two well-shaped trees is well shaped |
| SettingsTree.MergeAllSettings | nanoqm/workflows/input_validation.py:125 | the overlay of two `Settings` trees is `Settings` all the way down |
| SettingsTree.ToSettingsClean | nanoqm/workflows/input_validation.py:109-110 | `Settings(d)` of a value without `Settings` is clean: every mapping reached through mappings is a `Settings`, and no other value holds one |
| SettingsTree.SetPathClean | nanoqm/workflows/input_validation.py:229 | assigning a clean value into a clean tree keeps it clean |
| SettingsTree.TouchClean | nanoqm/workflows/input_validation.py:116 | an auto-creating read keeps a tree clean |
| SettingsTree.MergeClean | nanoqm/workflows/input_validation.py:125 | the overlay of two clean trees is clean |
| InputValidation.KeywordIsLeaf | nanoqm/workflows/input_validation.py:127-277 | each of those paths runs through CP2K sections and ends at a leaf keyword |
| InputValidation.KeywordDescendable | nanoqm/workflows/input_validation.py:127-277 | on a job tree that satisfies the class invariant, none of those assignments meets a non-mapping |
| InputValidation.PathOf | nanoqm/workflows/input_validation.py:127-277 | the dotted path of each keyword the sanitizer writes; specified by KeywordIsLeaf and KeywordDescendable |
| InputValidation.ValenceKey | nanoqm/workflows/input_validation.py:169 | the key `'-'.join((symbol, basis))` of the valence table; the sum looks it up (ElectronCount) |
| InputValidation.ValenceKeyInjective | nanoqm/workflows/input_validation.py:169 | for symbols without a dash, the key determines both the symbol and the basis |
| InputValidation.ElectronCount | nanoqm/workflows/input_validation.py:168-169 | the valence sum succeeds exactly when every `symbol-basis` key is in the table; otherwise the failure names the first atom's missing key |
| InputValidation.ElectronCountAppend | nanoqm/workflows/input_validation.py:168-169 | the count of one more atom is the old count plus that atom's valence |
| InputValidation.ComputeHomoIndex | nanoqm/workflows/input_validation.py:162-178 | it fails exactly when a valence entry is missing. Otherwise, with n the electron count minus the charge, `n <= 2*index <= n+1` (the ceiling of n/2), and the unpaired flag is set exactly when n is odd |
| InputValidation.HomoIndexIsLeast | nanoqm/workflows/input_validation.py:178 | the HOMO index is at most any k with `2k >= n`, so it is the least such index |
| InputValidation.AddedMos | nanoqm/workflows/input_validation.py:269 | `mo_index_range[1] - nHOMO`; by AddedMosKeyword it is what `scf.added_mos` holds, and by Sanitize.SanitizedAddedMos it equals `active_space[1]` |
| InputValidation.MoIndexRangeText | nanoqm/workflows/input_validation.py:265-266 | `"{} {}".format(mo_index_range[0] + 1, mo_index_range[1])`; by MoIndexRangeTextRoundTrip it reads back as `(lo + 1, hi)`, and by MoRangeKeyword and Sanitize.SanitizedMoKeywords it is what `print.mo.mo_index_range` holds |
| InputValidation.MoIndexRangeTextRoundTrip | nanoqm/workflows/input_validation.py:265-266 | the text `"{} {}".format(lo + 1, hi)` reads back as exactly `(lo + 1, hi)` |
| InputValidation.MoKeywordsStated | nanoqm/workflows/input_validation.py:263-277 | after the MO stage the tree holds the window text, `added_mos = hi - nHOMO`, `add_last = "numeric"`, `each.qs_scf = 0`, empty `eigenvalues`/`eigenvectors`, and `ndigits = 36` |
| InputValidation.MoWindowKeywords | nanoqm/workflows/input_validation.py:263-269 | the window text and `added_mos` |
| InputValidation.MoRangeKeyword | nanoqm/workflows/input_validation.py:265-266 | `print.mo.mo_index_range` holds the window text |
| InputValidation.AddedMosKeyword | nanoqm/workflows/input_validation.py:269 | `scf.added_mos` is the upper bound minus the HOMO |
| InputValidation.MoPrintKeywords | nanoqm/workflows/input_validation.py:271-277 | the five print keywords and their constants |
| InputValidation.MoSwitchesStated | nanoqm/workflows/input_validation.py:272-277 | after the five switches, each one holds its constant, whatever the later switches write |
| InputValidation.MoSwitchesFrame | nanoqm/workflows/input_validation.py:272-277 | the switches change nothing outside `dft.print.mo` |
| InputValidation.MoKeywordsFrame | nanoqm/workflows/input_validation.py:263-277 | nothing outside `dft.print.mo` and `dft.scf.added_mos` changes |
| InputValidation.WithMoKeywords | nanoqm/workflows/input_validation.py:263-277 | the MO keywords of add_mo_index_range; specified by MoKeywordsStated, MoWindowKeywords, MoRangeKeyword, AddedMosKeyword and MoPrintKeywords (what it writes) and MoKeywordsFrame (what it leaves alone) |
| InputValidation.WithMoSwitches | nanoqm/workflows/input_validation.py:271-277 | the five print switches; specified by MoSwitchesStated and MoSwitchesFrame |
| InputValidation.BasisFileList | nanoqm/workflows/input_validation.py:200-208 | the basis file list starts with `BASIS_MOLOPT`; with ADMM it has 3 entries, `BASIS_ADMM_MOLOPT` then `BASIS_ADMM`, and without ADMM it has one |
| InputValidation.BasisFileListExtends | nanoqm/workflows/input_validation.py:205-208 | the ADMM list is the one-entry list with the two ADMM files appended in order |
| InputValidation.SelectedBasisAdmm | nanoqm/workflows/input_validation.py:200-203 | assigning the list and reading `dft.xc` leaves the `xc_functional pbe` test as it was on the incoming tree |
| InputValidation.TouchXcKeepsBasisFiles | nanoqm/workflows/input_validation.py:203 | reading `dft.xc` leaves the basis file list alone |
| InputValidation.SelectedBasisStated | nanoqm/workflows/input_validation.py:196-208 | after select_basis_file, `basis_set_file_name` is the list, with the ADMM files exactly when the tree lacks `xc_functional pbe` |
| InputValidation.SelectedBasisFrame | nanoqm/workflows/input_validation.py:196-208 | nothing outside `basis_set_file_name` and `xc` changes |
| InputValidation.BasisNamesStated | nanoqm/workflows/input_validation.py:188-191 | `basis`, `potential` and `potential_file_name` hold the given values |
| InputValidation.BasisNamesFrame | nanoqm/workflows/input_validation.py:188-191 | nothing else changes |
| InputValidation.BasisStated | nanoqm/workflows/input_validation.py:185-194 | with a basis path, the tree has the basis and potential names, `GTH_POTENTIALS` under the absolutised basis path, and the selected basis file list |
| InputValidation.BasisFrame | nanoqm/workflows/input_validation.py:185-194 | nothing outside those four keywords and `xc` changes |
| InputValidation.UsesAdmm | nanoqm/workflows/input_validation.py:203 | `xc_functional pbe` is absent or None; by SelectedBasisStated the ADMM files are appended exactly then, and by SelectedBasisAdmm it is decided on the incoming tree |
| InputValidation.SelectedBasis | nanoqm/workflows/input_validation.py:196-208 | select_basis_file on one tree; specified by SelectedBasisStated and SelectedBasisFrame |
| InputValidation.BasisNames | nanoqm/workflows/input_validation.py:188-191 | the first three assignments of add_basis; specified by BasisNamesStated and BasisNamesFrame |
| InputValidation.WithBasis | nanoqm/workflows/input_validation.py:188-194 | add_basis on one tree; specified by BasisStated and BasisFrame |
| InputValidation.BasisStage | nanoqm/workflows/input_validation.py:185-194 | add_basis only with a basis path; specified by BasisStated, BasisFrame and PipelineBasis |
| InputValidation.CellStated | nanoqm/workflows/input_validation.py:213-221 | `cell_angles` is None; `cell_parameters` is the general one when `file_cell_parameters` is None, and None otherwise |
| InputValidation.CellFrame | nanoqm/workflows/input_validation.py:213-221 | nothing else changes |
| InputValidation.WithCell | nanoqm/workflows/input_validation.py:216-221 | add_cell_parameters on one tree; specified by CellStated and CellFrame |
| InputValidation.MultiplicityStated | nanoqm/workflows/input_validation.py:241-245 | the tree holds the multiplicity and `uks = ""` |
| InputValidation.MultiplicityFrame | nanoqm/workflows/input_validation.py:241-245 | nothing else changes |
| InputValidation.MultiplicityKeepsShared | nanoqm/workflows/input_validation.py:241-245 | the multiplicity stage keeps the cell, periodicity and charge written before it |
| InputValidation.WithMultiplicity | nanoqm/workflows/input_validation.py:244-245 | the two multiplicity keywords; specified by MultiplicityStated, MultiplicityFrame and MultiplicityKeepsShared |
| InputValidation.MultiplicityStage | nanoqm/workflows/input_validation.py:241-245 | they are written only above 1; specified by SharedStagesStated and SharedStagesFrame |
| InputValidation.TemplateApplied | nanoqm/workflows/input_validation.py:112-125 | after apply_templates, `specific` has a `template` key only if the template itself brings one, and every keyword the user wrote beside `template` is kept |
| InputValidation.OverlaidKeepsShape | nanoqm/workflows/input_validation.py:118-125 | applying a template keeps the job tree `Settings` all the way down, with its sections as mappings |
| InputValidation.Overlaid | nanoqm/workflows/input_validation.py:118-125 | the template overlaid with the user's `specific` minus `template`; specified by TemplateApplied, OverlaidKeepsShape and OverlaidClean |
| InputValidation.WithTemplate | nanoqm/workflows/input_validation.py:116-125 | apply_templates on one tree; specified by TemplateApplied and WithTemplateClean |
| InputValidation.OverlaidClean | nanoqm/workflows/input_validation.py:118-125 | with a template factory that gives clean trees, the overlay keeps a clean job tree clean |
| InputValidation.WithTemplateClean | nanoqm/workflows/input_validation.py:116-125 | so does the whole template step |
| InputValidation.AsDict | nanoqm/workflows/input_validation.py:294 | `as_dict()` gives a plain dict with the same keys |
| InputValidation.RecursiveTraverse | nanoqm/workflows/input_validation.py:290-298 | a non-dict comes back unchanged; a dict comes back plain with the same keys |
| InputValidation.TraversePlainIdentity | nanoqm/workflows/input_validation.py:296 | a plain tree without `Settings` comes back equal |
| InputValidation.AsDictOfSettings | nanoqm/workflows/input_validation.py:294 | `Settings(d).as_dict()` is d for a plain d without `Settings` |
| InputValidation.TraverseRoundTrip | nanoqm/workflows/input_validation.py:290-298 | converting a plain configuration to `Settings` and traversing it gives it back |
| InputValidation.AsDictNoSettings | nanoqm/workflows/input_validation.py:294 | `as_dict()` leaves no `Settings` inside |
| InputValidation.TraverseNoSettings | nanoqm/workflows/input_validation.py:290-298 | the traversed value has no `Settings` left |
| InputValidation.TraverseIdempotent | nanoqm/workflows/input_validation.py:290-298 | traversing twice is traversing once |
| InputValidation.CleanConvertible | nanoqm/workflows/input_validation.py:290-298 | a clean tree converts to plain data |
| InputValidation.NoSettingsConvertible | nanoqm/workflows/input_validation.py:290-298 | a value without `Settings` converts to plain data |
| InputValidation.ReadGeneralJob | nanoqm/workflows/input_validation.py:109-110 | replacing a job tree changes none of the general settings the stages read |
| InputValidation.OptionalStr | nanoqm/workflows/input_validation.py:250-251 | a string setting that may be None: None exactly for None, and otherwise the string itself |
| InputValidation.ReadGeneral | nanoqm/workflows/input_validation.py:183-251 | the `self.general[...]` reads of the stages, with `path_basis` and `wfn_restart_file_name` None-tested; by ReadGeneralJob rewriting a job tree changes none of them, and by GeneralCleanRead loaded values are clean |
| InputValidation.HomoStage | nanoqm/workflows/input_validation.py:135-136 | `nHOMO` is computed only when it is absent or None: a user's value is kept and the warning flag is clear; otherwise it is the computed index with its unpaired flag. It fails exactly when the computation does, and no other key changes |
| InputValidation.ReadWindow | nanoqm/workflows/input_validation.py:257-259 | there is a window exactly when `compute_orbitals` is truthy; then `nHOMO - lo = active_space[0]` and `hi - nHOMO = active_space[1]` |
| InputValidation.UserKeywords | nanoqm/workflows/input_validation.py:257-260 | `mo_index_range` is added exactly when `compute_orbitals` is truthy, as `(nHOMO - active_space[0], nHOMO + active_space[1])`; every other key is kept |
| InputValidation.StoredRange | nanoqm/workflows/input_validation.py:259-260 | the tuple `(nHOMO - active_space[0], nHOMO + active_space[1])` stored back into the input; by UserKeywords it is stored exactly when computing, and by Sanitize.SanitizedMoRange it is in the result |
| InputValidation.CellPeriodicChargeStated | nanoqm/workflows/input_validation.py:213-237 | after the cell, periodic and charge stages the tree holds those four keywords |
| InputValidation.SharedStagesStated | nanoqm/workflows/input_validation.py:210-245 | after the four shared stages: the cell keywords, `periodic`, `charge`, and, when multiplicity > 1, `multiplicity` and `uks = ""` |
| InputValidation.SharedStagesFrame | nanoqm/workflows/input_validation.py:210-245 | nothing else changes, and with multiplicity <= 1 the multiplicity keywords are left alone too |
| InputValidation.PipelineFrame | nanoqm/workflows/input_validation.py:127-160 | the final job tree differs from the templated one only at paths a stage writes. The MO keywords go to main only and only with a window, the restart file to guess only and only when given, the basis only with a basis path, and the multiplicity only above 1 |
| InputValidation.PipelineShared | nanoqm/workflows/input_validation.py:127-160 | both final job trees carry the cell, periodicity, charge, multiplicity (above 1) and executable of the general settings, identically |
| InputValidation.LaterStagesKeepMo | nanoqm/workflows/input_validation.py:144-160 | the stages after the MO stage leave all seven MO keywords as they were |
| InputValidation.EarlyStagesKeepAdmm | nanoqm/workflows/input_validation.py:139-148 | the MO and restart stages do not change whether the functional is PBE |
| InputValidation.PipelineMo | nanoqm/workflows/input_validation.py:139-142 | with a window, the final main tree holds all seven MO keywords |
| InputValidation.PipelineRestart | nanoqm/workflows/input_validation.py:247-253 | with a non-empty restart file name, the final guess tree holds its absolute path |
| InputValidation.PipelineBasis | nanoqm/workflows/input_validation.py:180-208 | with a basis path, both final trees hold the basis and potential names, the potential file and the basis file list chosen on the templated tree |
| InputValidation.MoStage | nanoqm/workflows/input_validation.py:139-142 | the MO keywords go to main only, and only with a window; specified by PipelineMo and PipelineFrame |
| InputValidation.Restarts | nanoqm/workflows/input_validation.py:250-251 | `wfn is not None and wfn`; by PipelineRestart the guess tree gets the restart file when it holds, and by PipelineFrame its restart keyword is left alone otherwise |
| InputValidation.RestartStage | nanoqm/workflows/input_validation.py:247-253 | the restart file goes to guess only; specified by PipelineRestart and PipelineFrame |
| InputValidation.SharedStages | nanoqm/workflows/input_validation.py:150-160 | the cell, periodic, charge and multiplicity stages; specified by SharedStagesStated and SharedStagesFrame |
| InputValidation.JobKeywords | nanoqm/workflows/input_validation.py:139-160 | add_missing_keywords after the HOMO index on one tree; specified by PipelineFrame, PipelineShared, PipelineMo, PipelineRestart and PipelineBasis |
| InputValidation.FinalJob | nanoqm/workflows/input_validation.py:127-160 | the job tree sanitize returns; specified by the same lemmas and FinalJobClean |
| InputValidation.GeneralCleanRead | nanoqm/workflows/input_validation.py:127-245 | the general values the stages copy into a job tree are clean when the schema let them through and they were loaded from YAML |
| InputValidation.MoStageClean | nanoqm/workflows/input_validation.py:255-277 | the MO stage keeps a job tree clean |
| InputValidation.BasisStageClean | nanoqm/workflows/input_validation.py:180-208 | so does the basis stage |
| InputValidation.SharedStagesClean | nanoqm/workflows/input_validation.py:210-245 | so do the shared stages |
| InputValidation.FinalJobClean | nanoqm/workflows/input_validation.py:127-160 | every stage writes a clean value, so a clean job tree stays clean to the end |
| Sanitize.SanitizedInput | nanoqm/workflows/input_validation.py:97-105 | sanitize fails exactly when `nHOMO` is None and an atom lacks a valence entry, with that entry's error; the general settings keep their keys |
| Sanitize.SanitizedParts | nanoqm/workflows/input_validation.py:97-105 | on an input made of its top level, general settings and two job trees, sanitize is the HOMO stage on the top level plus the job stages on the templated trees, which are replaced in place |
| Sanitize.SanitizedKeys | nanoqm/workflows/input_validation.py:132-142 | the result's top-level keys are the input's plus `nHOMO`, plus `mo_index_range` exactly when orbitals are computed; other top-level values are unchanged |
| Sanitize.SanitizedGeneral | nanoqm/workflows/input_validation.py:107-130 | of the general settings only the two job trees change |
| Sanitize.SanitizedHomo | nanoqm/workflows/input_validation.py:135-136 | `nHOMO` is the user's value, or else the computed HOMO index; only a computed index can be flagged unpaired |
| Sanitize.SanitizedMoRange | nanoqm/workflows/input_validation.py:257-260 | with orbitals computed, `mo_index_range` is `(nHOMO - active_space[0], nHOMO + active_space[1])` |
| Sanitize.SanitizedJob | nanoqm/workflows/input_validation.py:99-102 | each job tree of the result is its templated tree run through the keyword stages and add_executable |
| Sanitize.SanitizedShared | nanoqm/workflows/input_validation.py:127-245 | both job trees of the result carry the cell, periodicity, charge, multiplicity (above 1) and executable |
| Sanitize.SanitizedMoKeywords | nanoqm/workflows/input_validation.py:259-269 | the main tree of the result prints the stored `mo_index_range` as `"{} {}"` of its bounds (first one plus one), and `added_mos` is the upper bound minus `nHOMO` |
| Sanitize.SanitizedAddedMos | nanoqm/workflows/input_validation.py:269 | `added_mos` on the main tree is `active_space[1]` |
| Sanitize.TemplatedTree | nanoqm/workflows/input_validation.py:107-125 | a job tree after create_settings and apply_templates; by PartsTemplated it is the template step on the tree in the input, and by PipelineClean it is clean when loaded from YAML |
| Sanitize.PipelineClean | nanoqm/workflows/input_validation.py:99-102 | a loaded, templated job tree run through the keyword stages is clean |
| Sanitize.SanitizedJobsClean | nanoqm/workflows/input_validation.py:97-105 | both job trees of a sanitized loaded input are clean |
| Sanitize.SanitizedGeneralConvertible | nanoqm/workflows/input_validation.py:97-105 | the general settings of a sanitized loaded input convert to plain data |
| Sanitize.SanitizedConvertible | nanoqm/workflows/input_validation.py:97-105 | every top-level value of a sanitized loaded input converts to plain data |
| Sanitizer.Printed | nanoqm/workflows/input_validation.py:281-284 | the dump has the input's keys, each value traversed; specified by PrintedPlain and PrintedIdempotent |
| Sanitizer.PrintedPlain | nanoqm/workflows/input_validation.py:281-284 | when every top-level value converts, the dump holds no `Settings` |
| Sanitizer.PrintedIdempotent | nanoqm/workflows/input_validation.py:281-298 | dumping the dump again changes nothing |
| Sanitizer.SanitizedPrintedPlain | nanoqm/workflows/input_validation.py:97-105 | what print_final_input writes for a sanitized loaded input is plain YAML data, with no `Settings` left anywhere |
| Sanitizer.InputSanitizer.constructor | nanoqm/workflows/input_validation.py:92-95 | the object holds the input, its general settings and the two job trees |
| Sanitizer.InputSanitizer.Assign | nanoqm/workflows/input_validation.py:229 | one keyword assignment on one job tree; the other tree is unchanged |
| Sanitizer.InputSanitizer.TouchSection | nanoqm/workflows/input_validation.py:116 | an auto-creating section read on one job tree |
| Sanitizer.InputSanitizer.CreateSettings | nanoqm/workflows/input_validation.py:107-110 | both job trees become `ToSettings` of themselves |
| Sanitizer.InputSanitizer.OverlayTemplate | nanoqm/workflows/input_validation.py:118-125 | one job tree gets its template applied |
| Sanitizer.InputSanitizer.ApplyTemplates | nanoqm/workflows/input_validation.py:112-125 | both trees get their templates applied |
| Sanitizer.InputSanitizer.AddMoIndexRange | nanoqm/workflows/input_validation.py:255-277 | the window is stored in the input and its keywords go to main; guess is unchanged |
| Sanitizer.InputSanitizer.PrintMoKeywords | nanoqm/workflows/input_validation.py:263-277 | main gets the MO keywords; guess is unchanged |
| Sanitizer.InputSanitizer.AddRestartPoint | nanoqm/workflows/input_validation.py:247-253 | only guess changes, by the restart stage |
| Sanitizer.InputSanitizer.AppendBasisFile | nanoqm/workflows/input_validation.py:205-206 | one file is appended to one tree's basis file list |
| Sanitizer.InputSanitizer.AppendAdmmFiles | nanoqm/workflows/input_validation.py:205-208 | the two ADMM files are appended in order |
| Sanitizer.InputSanitizer.SelectBasisFile | nanoqm/workflows/input_validation.py:196-208 | one tree gets its basis file list selected |
| Sanitizer.InputSanitizer.AddBasis | nanoqm/workflows/input_validation.py:180-194 | both trees go through the basis stage |
| Sanitizer.InputSanitizer.AddCellParameters | nanoqm/workflows/input_validation.py:210-221 | both trees go through the cell stage |
| Sanitizer.InputSanitizer.AddPeriodic | nanoqm/workflows/input_validation.py:223-229 | both trees get `periodic` |
| Sanitizer.InputSanitizer.AddCharge | nanoqm/workflows/input_validation.py:231-237 | both trees get `charge` |
| Sanitizer.InputSanitizer.AddMultiplicity | nanoqm/workflows/input_validation.py:239-245 | both trees go through the multiplicity stage |
| Sanitizer.InputSanitizer.AddExecutable | nanoqm/workflows/input_validation.py:127-130 | both trees get `executable` |
| Sanitizer.InputSanitizer.StoreHomoIndex | nanoqm/workflows/input_validation.py:135-136 | the input becomes the HOMO stage's output, or the error is returned with nothing changed |
| Sanitizer.InputSanitizer.AddMissingKeywords | nanoqm/workflows/input_validation.py:132-160 | the input and both trees become what the model's stages give, or the error is returned with nothing changed |
| Sanitizer.InputSanitizer.AddKeywordsFromHomo | nanoqm/workflows/input_validation.py:139-160 | the stages after the HOMO index, on the input and both trees |
| Sanitizer.InputSanitizer.AddWindow | nanoqm/workflows/input_validation.py:139-142 | the MO stage runs exactly when `compute_orbitals` is truthy |
| Sanitizer.InputSanitizer.AddSharedKeywords | nanoqm/workflows/input_validation.py:150-160 | both trees go through the four shared stages |
| Sanitizer.InputSanitizer.PrintFinalInput | nanoqm/workflows/input_validation.py:279-287 | the dump is `Printed` of the current input |
| Sanitizer.InputSanitizer.Sanitize | nanoqm/workflows/input_validation.py:97-105 | the result is `SanitizedInput` of the starting input; on success, the object's input is that result and the dump is printed, and on failure nothing is printed |

## Left out

- `process_input` (P:53-86) is left out. It reads YAML, validates against the schema and wraps the result in DictConfig. These are file I/O and external libraries.
- The schema check is left out. The model assumes what the schema guarantees (`ValidInput`, `GeneralValid`), such as the defaults for `nHOMO`, `charge`, `multiplicity` and `path_basis`.
- `Molecule(path_traj_xyz)` and the `valence_electrons` table (P:166-169) are not modelled. They come from plams and `templates.py`. They are parameters: the atom symbols and a map from `symbol-basis` to the valence count.
- `create_settings_from_template` (P:119-120) is a parameter, with its own arguments folded into it. Its output is assumed to be a well-shaped `Settings` tree (`TemplatesOk`).
- `Settings.overlay` (P:125) is modelled as a recursive merge in which the user's values win. Its exact qmflows semantics are not shown, and only this reading is claimed.
- `os.path.abspath` and `Path(...).absolute().as_posix()` depend on the working directory. They are uninterpreted function parameters.
- Logging and warnings are left out. The unpaired-electron warning (P:174-176) becomes the returned flag. The two `logger.info` messages (P:142, P:186) are not modelled.
- The file write of `print_final_input` (P:286-287) is left out. The method returns the dictionary it would dump.
- On a missing valence entry the source raises `KeyError` mid-way. By then it has already converted and templated the job trees. The model returns the error instead. The object's state after that failure is stated only for the `add_missing_keywords` step, where nothing changes.
- In Python, `user_input["cp2k_general_settings"]` and `self.general` are the same dict. The class models that sharing with `UserInput()`, which rebuilds the general settings from the fields `main` and `guess`. No other aliasing of the input is modelled.
- The source can assign through a section that holds a non-mapping, which would raise `AttributeError`. The class invariant `Shaped` rules this case out, so it is not modelled.
- `ToSettings` does not convert mappings nested inside lists.
- InputValidation.AsDict: does not convert `Settings` nested inside lists or tuples; it converts only the `Settings` reached through mappings, while plams `as_dict` also converts `Settings` list elements. The lemmas about the conversion therefore require `Convertible` (no `Settings` inside a list or tuple). Since `ToSettings` also keeps lists as they are, a sanitized input of YAML-loaded data with clean templates satisfies it (`Sanitize.SanitizedConvertible`).
- Floats are exact `real` numbers; no floating-point rounding is modelled. A float is only ever copied by the stages.
- Sanitizer.SanitizedPrintedPlain: holds for an input as the YAML loader returns it (`Loaded`, no `Settings` anywhere) and a template factory whose trees are clean (`TemplatesClean`). It says nothing about inputs that already hold `Settings`.
- Sanitize.SanitizedMoKeywords: states the printed window as `MoIndexRangeText(lo, hi)` of the stored bounds. Reading that text back as `(lo + 1, hi)` is the separate lemma `InputValidation.MoIndexRangeTextRoundTrip`.
