# Enhancing_ReaxFF_DFT_database: the database tools and the AMS calculator, in Dafny

This project models three parts of the repository's Python tooling and proves
what each promises.

- **`tools/db/metadata.py`** (`metadata.dfy`, module `Metadata`). This keeps
  the metadata vocabulary of the LiF row database in step with the rows it
  holds.
  - `get_unique_values` collects the distinct values of a column, sorted as
    `np.unique` sorts them.
  - `get_new_values_in_key` picks the values the vocabulary does not record
    yet.
  - `update_new_values_in_key` asks the user about each new value.
  - `update_metadata` runs the other three over the keys user, subset_name,
    task and used_in, in that order.
  - The nested `metadata["keys"]` dictionary is a shared object (`KeyTable`),
    because the shallow `metadata.copy()` of the source shares it.
  - The lines typed at the `input()` prompts are a sequence. Running out of
    lines is Python's `EOFError`.
- **`tools/db/store_job.py`** (`store_job.dfy`, module `StoreJob`). This
  turns an AMS simulation into a row of the ASE database. The model covers:
  - the stored name, calculator and functional strings;
  - the space group that `get_space_group` extracts with three look-behind
    regular expressions, modelled as a leftmost search with lazy and greedy
    backtracking;
  - the training/test/none classification of `is_in_trainigset`;
  - the runtime stamp of `get_runtime`;
  - the one-line summary `row_info`;
  - the writes of `add_sim_to_db`, `add_ic_to_db` and `add_to_db` to a
    `Database` object whose rows are a sequence.
- **`tools/plams_experimental/ase_calculator.py` and
  `tools/plasm_experimental/ase_calculator.py`** (`ase_calculator.dfy`,
  module `AseCalculator`). These are the `AMSCalculator` that lets ASE drive
  AMS engines through PLAMS. The two copies share one model; `Variant`
  records the two places where they differ (the exception
  `ensure_property` would raise, and the message of the `plams.init()` guard).
  The model covers:
  - the `is_ams_true` canonicaliser;
  - the extractors' `set_settings`/`check_settings` pairs;
  - the Voigt-order selection of stress components;
  - the class-wide run counter;
  - `implemented_properties`, `ensure_property` and `results_from_ams_results`;
  - the guards and cache check of `calculate`;
  - the pipe/job requests, `stop_worker`, and the `__new__`/`__init__`
    construction.

  PLAMS `Settings` objects are maps from the key path of each leaf to its
  value.

`common.dfy` holds `Option` and `Result`. `text.dfy` (module `Text`) holds
the Python string operations the three files rely on: `lower`, `strip`,
`split`, `join`, `in`, the `<w`/`>w` format specs, `str` of an integer, and
the code-point order of strings.

`ensure_property` sets `property_found = True` for every extractor, not only
for the one whose name matches. So its "No extractor known" branch is
reachable only with an empty extractor list, and the calculator always has at
least four extractors. The model keeps that behaviour as written
(`AseCalculator.EnsureNeverMissing`).

## Model

| member | source | states |
|---|---|---|
| Text.Lower | tools/plams_experimental/ase_calculator.py:130-134 | `str.lower` keeps the length and lowers each character on its own |
| Text.StripLeft | tools/plams_experimental/ase_calculator.py:132 | the result is a suffix of the input that does not start with whitespace; everything removed is whitespace |
| Text.StripRight | tools/plams_experimental/ase_calculator.py:132 | the result is a prefix of the input that does not end with whitespace; everything removed is whitespace |
| Text.Strip | tools/plams_experimental/ase_calculator.py:132 | a stripped string has no whitespace at either end |
| Text.StripFixedPoint | tools/plams_experimental/ase_calculator.py:132 | a string with no whitespace at either end is its own strip |
| Text.StripIdempotent | tools/plams_experimental/ase_calculator.py:130-134 | stripping twice is stripping once |
| Text.ContainsIff | tools/db/store_job.py:297-303 | `pat in text` holds exactly when `pat` occurs at some offset of `text` |
| Text.Split | tools/db/store_job.py:460 | `split` yields at least one piece, and no piece holds the separator |
| Text.JoinSplit | tools/db/store_job.py:460 | joining the pieces of a split with the separator gives back the string |
| Text.SplitWithoutSeparator | tools/db/store_job.py:460 | a string without the separator splits into itself alone |
| Text.SplitAfterFirstSeparator | tools/db/store_job.py:460 | the first piece ends at the first separator, and the rest splits on its own |
| Text.SplitJoin | tools/db/store_job.py:448 | splitting a join of separator-free pieces gives back the pieces |
| Text.LJust | tools/db/store_job.py:377-380 | the `<w` spec gives width max(w, len): the text first, then spaces |
| Text.RJust | tools/db/store_job.py:377-380 | the `>w` spec gives width max(w, len): spaces first, then the text |
| Text.Decimal | tools/db/store_job.py:378 | `str` of a natural number is a non-empty run of digits |
| Text.DecimalRoundTrip | tools/db/store_job.py:378 | reading the digits back gives the number |
| Text.DecimalWidth | tools/db/store_job.py:378 | ids below 1000 fit the three-character id column |
| Text.BelowIrreflexive | tools/db/metadata.py:139 | no string sorts before itself |
| Text.BelowTransitive | tools/db/metadata.py:139 | the string order is transitive |
| Text.BelowTotal | tools/db/metadata.py:139 | of two different strings one sorts first |
| Text.BelowAsymmetric | tools/db/metadata.py:139 | two strings never sort before each other |
| Metadata.Document.Copy | tools/db/metadata.py:215 | the shallow copy is a new dictionary that shares the `keys` object and the row count |
| Metadata.AscendingIsDistinct | tools/db/metadata.py:139 | a strictly ascending list has no duplicates |
| Metadata.Insert | tools/db/metadata.py:139 | inserting into a strictly ascending list keeps it strictly ascending; the result holds the new value and the old ones |
| Metadata.SortedUnique | tools/db/metadata.py:139 | `np.unique(...).tolist()` is strictly ascending and has exactly the members of its input |
| Metadata.CollectedIff | tools/db/metadata.py:132-138 | a value is collected exactly when a row with id below 10 × row count has the key with that value; rows without the key are skipped |
| Metadata.UniqueValuesIff | tools/db/metadata.py:118-139 | the unique values are strictly ascending and are exactly the values of the selected rows |
| Metadata.GetUniqueValues | tools/db/metadata.py:118-139 | the loop returns the sorted unique values |
| Metadata.NewValuesIff | tools/db/metadata.py:157-162 | a value is new exactly when it is among the values and not recorded under the key |
| Metadata.NewValuesConcat | tools/db/metadata.py:159-161 | the filter keeps the order of the values, so it distributes over concatenation |
| Metadata.NewValuesAscending | tools/db/metadata.py:157-162 | new values taken from a sorted list come out sorted |
| Metadata.GetNewValuesInKey | tools/db/metadata.py:142-162 | a key missing from the metadata raises KeyError; otherwise the result is the values not yet recorded, in order |
| Metadata.AnswerOrNone | tools/db/metadata.py:234-237 | an empty answer is stored as None, any other answer as itself |
| Metadata.UserFieldsDistinct | tools/db/metadata.py:25 | the five user fields are five different keys |
| Metadata.PersonRecordFields | tools/db/metadata.py:222-237 | after k answers the record has exactly the first k fields, each holding its answer or None |
| Metadata.CompletePersonRecordFields | tools/db/metadata.py:25 | five answers fill exactly name, surname, email, institution and country |
| Metadata.AskUser | tools/db/metadata.py:224-237 | the five prompts store the record of the first five answers; fewer answers leave the partial record and raise EOFError |
| Metadata.AddUsers | tools/db/metadata.py:222-237 | the "user" loop ends with the vocabulary, outcome and unread lines of the specification function |
| Metadata.AddDescriptions | tools/db/metadata.py:238-276 | the description loops for subset_name, task and used_in end as the specification function says |
| Metadata.AddValues | tools/db/metadata.py:222-276 | specification of the per-value loops of `update_new_values_in_key`; AddValuesFrame, AddUsersRecords and AddDescriptionsEntries state it |
| Metadata.UpdateNewValues | tools/db/metadata.py:165-280 | specification of `update_new_values_in_key`; AddValuesFrame and UnhandledKeyChangesNothing state it |
| Metadata.UpdateNewValuesInKey | tools/db/metadata.py:165-280 | returns a new dictionary that shares `keys`, and the shared vocabulary ends as the specification function says |
| Metadata.AddValuesFrame | tools/db/metadata.py:165-280 | no key is added or dropped, other keys are untouched, recorded values are kept, only new values are added, and on success every new value is recorded |
| Metadata.AddUsersRecords | tools/db/metadata.py:222-237 | on success each new user takes five lines, and the record of user i is built from lines 5i to 5i+4 |
| Metadata.NewUsersHaveFiveFields | tools/db/metadata.py:222-237 | on success every new user has exactly the five fields, each holding its answer or None |
| Metadata.AddDescriptionsEntries | tools/db/metadata.py:238-276 | on success each value takes one line and holds it as its description; a subset_name or used_in description is never empty |
| Metadata.EmptyDescriptionRaises | tools/db/metadata.py:246-249 | an empty subset_name or used_in description raises ValueError("A description is mandatory") |
| Metadata.UnhandledKeyChangesNothing | tools/db/metadata.py:277-278 | the key "else" raises NotImplementedError; any other unknown key changes nothing |
| Metadata.UpdateMetadata | tools/db/metadata.py:283-356 | the vocabulary ends as reconciling the four keys in order gives; on success the row count is stored |
| Metadata.Reconcile | tools/db/metadata.py:326-349 | specification of the loop of `update_metadata` over the four keys; ReconcileKeepsRecorded and ReconcileRecordsEveryValue state it |
| Metadata.ReconcileKeepsRecorded | tools/db/metadata.py:326-349 | reconciling never adds or drops a key and never loses a recorded value |
| Metadata.ReconcileRecordsEveryValue | tools/db/metadata.py:326-349 | on success every unique value of every visited key is recorded |
| Metadata.UpdateMetadataRecordsEveryValue | tools/db/metadata.py:283-356 | after a successful update, every value a selected row holds under one of the four keys is in the vocabulary |
| StoreJob.GetKeyValue | tools/db/store_job.py:307-326 | None exactly when the row lacks the key, otherwise its value |
| StoreJob.Truncate | tools/db/store_job.py:354-362 | specification of the `len > 14`/`len > 16` cuts of user, task and name; TruncateFits states what it promises |
| StoreJob.TruncateFits | tools/db/store_job.py:354-362 | a cut field fits its column; a short field is kept; a long one keeps width-1 characters and ends in `*`; cutting twice is cutting once |
| StoreJob.HeaderShape | tools/db/store_job.py:350-353 | the header line has 104 characters with a bar at each column boundary |
| StoreJob.CellsInColumns | tools/db/store_job.py:377-380 | with cells of their column widths, the data line has the header's length and bars, with each cell under its heading |
| StoreJob.DataLineCellWidths | tools/db/store_job.py:354-362 | ids below 1000, cut names and fitting values pad to exactly their column widths |
| StoreJob.RowInfo | tools/db/store_job.py:329-379 | specification of `row_info`: the header and the data line, or the format ValueError; RowInfoLines states it for every row |
| StoreJob.RowInfoLines | tools/db/store_job.py:363-379 | for every row: a text energy raises ValueError first, then a used_in that is not text; otherwise the output is the header, a newline and the data line, where each absent energy, success or used_in is an empty cell whatever the other keys hold, a number or bool energy is printed by `fixed3`, success by `str` and used_in as its text |
| StoreJob.RowInfoCells | tools/db/store_job.py:350-379 | when the cells fit, the output is the 104-character header, a newline and a data line of the same length with every cell under its heading |
| StoreJob.AbsentFieldsAreBlank | tools/db/store_job.py:363-375 | each of energy, success and used_in that the row lacks is a blank cell under its heading, one clause per field, whatever the other two hold |
| StoreJob.BlankCells | tools/db/store_job.py:377-379 | fitting cells line up under the header, and an empty energy, success or used_in cell is a column of spaces |
| StoreJob.InitialConfigurationCut | tools/db/store_job.py:347 | the task "initial configuration" prints as "initial configu*" |
| StoreJob.InitialConfigurationSummary | tools/db/store_job.py:346-347 | an initial-configuration row prints "initial configu*", blank energy and success cells and "none" right-aligned under used_in |
| StoreJob.SimulationSummary | tools/db/store_job.py:581-582 | a simulation row prints its energy by `fixed3`, its success as "True" or "False" and its used_in, each right-aligned under its heading |
| StoreJob.UsedInDecision | tools/db/store_job.py:297-303 | specification of the `in` tests on the two file texts; UsedInThreeWay states it as an if-and-only-if |
| StoreJob.UsedInThreeWay | tools/db/store_job.py:297-303 | "training" when the name occurs in both files, "test" when only in the full dataset, "none" otherwise |
| StoreJob.IsInTrainingSet | tools/db/store_job.py:273-304 | specification of `is_in_trainigset` on the lines of the two files; NameInLines states it |
| StoreJob.OccursInJoin | tools/db/store_job.py:292-295 | a name that occurs in one line still occurs once the lines are joined |
| StoreJob.NameInLines | tools/db/store_job.py:273-304 | a name in a line of the full dataset is "training" or "test", and "test" exactly when it is absent from the training file |
| StoreJob.DefaultUsedIn | tools/db/store_job.py:443-446 | specification of the used_in choice of `add_sim_to_db`; DefaultUsedInValues states it |
| StoreJob.DefaultUsedInValues | tools/db/store_job.py:444-447 | used_in is one of the three classes, and "none" unless both dataset paths are given |
| StoreJob.DropFirstField | tools/db/store_job.py:460 | specification of the stored name; DropFirstFieldIsSuffix states it |
| StoreJob.DropFirstFieldIsSuffix | tools/db/store_job.py:460 | the stored name is what follows the first `-` of the job name, and empty when it has none |
| StoreJob.CalculatorName | tools/db/store_job.py:448 | specification of the calculator string; CalculatorNameRoundTrip states it |
| StoreJob.CalculatorNameRoundTrip | tools/db/store_job.py:448 | the calculator string splits at `/` back into "ams" and the engine names |
| StoreJob.FunctionalEntries | tools/db/store_job.py:452-454 | one `type/name` entry per xc setting, in order |
| StoreJob.FunctionalString | tools/db/store_job.py:452-455 | the loop builds the entries joined by ", " |
| StoreJob.FunctionalExtends | tools/db/store_job.py:452-455 | each further xc setting extends the functional string by ", type/name" |
| StoreJob.MatchFrom | tools/db/store_job.py:147-151 | an attempt at s finds an end with the look-ahead and the `\w+?\S\w+` shape, or no such end exists |
| StoreJob.Search | tools/db/store_job.py:147-151 | `re.search` returns a match with none starting further left, and None only when nothing matches |
| StoreJob.SearchSkips | tools/db/store_job.py:147 | positions where the look-behind fails are passed over |
| StoreJob.FirstMatch | tools/db/store_job.py:147-156 | None exactly when no pattern matches; otherwise the leftmost match of the first pattern that matches |
| StoreJob.ExampleSearch | tools/db/store_job.py:147 | in "GO-1.0-2-LiF_Pm-3m_-2.89_2x1x1" the first pattern matches at 13..18 |
| StoreJob.SpaceGroup | tools/db/store_job.py:143-156 | specification of `get_space_group`: the three patterns tried in order; FirstMatch states the fallback |
| StoreJob.SpaceGroupExample | tools/db/store_job.py:143-145 | the space group of the documented job name is "Pm-3m" |
| StoreJob.FindStamp | tools/db/store_job.py:62 | the leftmost `Mmmdd-yyyy hh:mm:ss` stamp of the line, or None when there is none |
| StoreJob.RuntimeString | tools/db/store_job.py:58-69 | specification of `get_runtime` and the `strftime` after it; RuntimeNotStarted states when it is "Not Started" |
| StoreJob.RuntimeNotStarted | tools/db/store_job.py:58-69 | the runtime is "Not Started" exactly when the log is missing or its first line has no stamp |
| StoreJob.SimRecord | tools/db/store_job.py:384-481 | specification of the row `add_sim_to_db` writes; SimRecordFields states its fields and errors |
| StoreJob.IcRecord | tools/db/store_job.py:484-531 | specification of the row `add_ic_to_db` writes; IcRowInfo states how it prints |
| StoreJob.StoredRow | tools/db/store_job.py:462-481 | the key-value pairs `db.write` stores for a record: used_in always, success when the record has one, energy when the atoms carry one |
| StoreJob.SimRecordFields | tools/db/store_job.py:430-481 | in the model, the row fails only on a bad stamp or no engine (the foreign reads that can also raise are listed under Left out); otherwise it stores the job name, user, task and subset, a valid used_in, a calculator that splits back into the engines, the name after the first `-`, and an empty functional when the engine has no xc settings |
| StoreJob.IcRowInfo | tools/db/store_job.py:484-531 | the row `add_ic_to_db` stores prints "initial configu*", blank energy and success cells and "none" under used_in |
| StoreJob.SimRowInfo | tools/db/store_job.py:384-481 | the row `add_sim_to_db` stores prints the job's `ok()` as "True"/"False", its used_in class, and the energy by `fixed3` when present |
| StoreJob.Database.Write | tools/db/store_job.py:462-481 | a write appends exactly one row |
| StoreJob.Database.AddSimToDb | tools/db/store_job.py:384-481 | writes the simulation row, or raises and leaves the database as it was |
| StoreJob.Database.AddIcToDb | tools/db/store_job.py:484-531 | writes the initial-configuration row, or raises and leaves the database as it was |
| StoreJob.Database.AddToDb | tools/db/store_job.py:584-608 | no user and no USER variable raise KeyError("USER") with nothing written; on success the initial configuration (when asked) and then the simulation are appended; when the initial configuration or the simulation fails, the initial configuration already written stays, since the two writes are not one transaction |
| AseCalculator.Canonicalize | tools/plams_experimental/ase_calculator.py:130-134 | non-strings come back unchanged; a string comes back with no capitals and no whitespace at its ends |
| AseCalculator.StrippedLowerHasNoCapitals | tools/plams_experimental/ase_calculator.py:132 | lowering and then stripping leaves no capital |
| AseCalculator.LowerKeepsNoCapitals | tools/plams_experimental/ase_calculator.py:132 | a string without capitals is its own lower case |
| AseCalculator.CanonicalizeIdempotent | tools/plasm_experimental/ase_calculator.py:52-56 | canonicalising twice is canonicalising once |
| AseCalculator.IsAmsTrue | tools/plams_experimental/ase_calculator.py:137-138 | specification of `is_ams_true`; IsAmsTrueIff states it |
| AseCalculator.IsAmsFalse | tools/plams_experimental/ase_calculator.py:141-142 | specification of `is_ams_false`; IsAmsTrueIff states it is the negation |
| AseCalculator.IsAmsTrueIff | tools/plams_experimental/ase_calculator.py:137-142 | true exactly for a string reading "true"/"yes" after lowering and stripping, or `True`, `1`, `1.0`; `is_ams_false` is its negation |
| AseCalculator.StrIsAmsTrue | tools/plasm_experimental/ase_calculator.py:59-60 | a string is true exactly when its canonical form is "true" or "yes" |
| AseCalculator.NonStrIsAmsTrue | tools/plasm_experimental/ase_calculator.py:59-60 | any other value is true exactly when it equals `True` as a number |
| AseCalculator.YesIsTrue | tools/plams_experimental/ase_calculator.py:137-153 | the "Yes" that `set_settings` writes reads as true |
| AseCalculator.PaddedTrueIsTrue | tools/plams_experimental/ase_calculator.py:130-138 | " TRUE\n" reads as true |
| AseCalculator.OtherValuesAreFalse | tools/plams_experimental/ase_calculator.py:141-142 | "No", the number 2 and a missing key read as false |
| AseCalculator.SetSettings | tools/plams_experimental/ase_calculator.py:99-184 | the base extractors return None; the force and stress extractors set their flag to "Yes" and keep every other key |
| AseCalculator.CheckSettings | tools/plams_experimental/ase_calculator.py:109-184 | specification of the `check_settings` methods; SetThenCheck, BaseCheckAlwaysTrue and AcceptedDefaults state it |
| AseCalculator.SetThenCheck | tools/plams_experimental/ase_calculator.py:99-184 | every extractor accepts the settings its own `set_settings` returns |
| AseCalculator.BaseCheckAlwaysTrue | tools/plams_experimental/ase_calculator.py:109-120 | the base `check_settings` is true for any settings, None included |
| AseCalculator.PeriodicDimension | tools/plams_experimental/ase_calculator.py:163 | specification of `sum(atoms.get_pbc())`; PeriodicDimensionCounts states it |
| AseCalculator.PeriodicDimensionCounts | tools/plams_experimental/ase_calculator.py:163 | the sum is the number of directions marked periodic, so at most the number of directions |
| AseCalculator.StressVoigt | tools/plams_experimental/ase_calculator.py:162-177 | a result has six components; StressVoigtOrder states which |
| AseCalculator.StressVoigtOrder | tools/plams_experimental/ase_calculator.py:162-177 | component k is the tensor entry of the k-th Voigt pair when D covers both indices and 0.0 otherwise; IndexError exactly when a needed entry is missing |
| AseCalculator.NonPeriodicStressIsZero | tools/plasm_experimental/ase_calculator.py:84-99 | a non-periodic system gives six zeros whatever the tensor holds |
| AseCalculator.Negated | tools/plams_experimental/ase_calculator.py:148-149 | forces are the gradients with every component negated |
| AseCalculator.Extract | tools/plams_experimental/ase_calculator.py:126-190 | specification of the `extract` methods: energy, negated gradients, the Voigt stress, charges; Negated and StressVoigtOrder state the non-trivial ones |
| AseCalculator.Fill | tools/plams_experimental/ase_calculator.py:404-408 | specification of the `results_from_ams_results` loop; the three Fill lemmas state it |
| AseCalculator.FillWritesOnlyAcceptedNames | tools/plams_experimental/ase_calculator.py:404-408 | only names of accepted extractors are written, and every other entry is kept |
| AseCalculator.FillWritesEveryAcceptedName | tools/plams_experimental/ase_calculator.py:404-408 | when nothing raises, every accepted name is written with what an accepted extractor of that name extracted |
| AseCalculator.FillStopsAtRaise | tools/plasm_experimental/ase_calculator.py:300-306 | once an extraction raises, the remaining extractors change nothing |
| AseCalculator.NotListed | tools/plams_experimental/ase_calculator.py:324 | the filter never lengthens the list |
| AseCalculator.NotListedMembers | tools/plams_experimental/ase_calculator.py:324 | the filter keeps exactly the extractor objects not already listed |
| AseCalculator.NotListedKeepsAll | tools/plasm_experimental/ase_calculator.py:219 | when no user extractor is one of the defaults, all are kept, duplicates included |
| AseCalculator.Implemented | tools/plams_experimental/ase_calculator.py:357-360 | with settings present, the list never fails and is no longer than the extractor list |
| AseCalculator.ImplementedMembers | tools/plams_experimental/ase_calculator.py:357-360 | a name is listed exactly when an extractor of that name accepts the settings |
| AseCalculator.DefaultImplemented | tools/plams_experimental/ase_calculator.py:317-360 | the list is "energy", then "forces" when Gradients is true, "stress" when StressTensor is true, "charges", then the user extractors' names |
| AseCalculator.AcceptedDefaults | tools/plams_experimental/ase_calculator.py:109-184 | energy and charges always accept; forces and stress accept exactly when their flag reads true |
| AseCalculator.ImplementedWithoutSettings | tools/plams_experimental/ase_calculator.py:357-360 | with the settings None, `implemented_properties` raises on `None.copy()` |
| AseCalculator.Requested | tools/plams_experimental/ase_calculator.py:392-393 | a single property name becomes a one-element list |
| AseCalculator.Visit | tools/plams_experimental/ase_calculator.py:397-399 | specification of one extractor step of `ensure_property`; VisitExtractors is proved against it |
| AseCalculator.Scan | tools/plams_experimental/ase_calculator.py:396-399 | specification of the inner loop over the extractors; ScanUnknownProperty and ScanSingleMatch state it |
| AseCalculator.Ensure | tools/plams_experimental/ase_calculator.py:390-402 | specification of `ensure_property`; EnsureStopsAtRaise, EnsureNeverMissing and the two Ensure examples state it |
| AseCalculator.ScanUnknownProperty | tools/plams_experimental/ase_calculator.py:396-399 | a property that no extractor is named after leaves the settings as they were |
| AseCalculator.ScanSingleMatch | tools/plams_experimental/ase_calculator.py:396-399 | with one extractor of that name, the inner loop is that extractor's `set_settings` |
| AseCalculator.EnsureStopsAtRaise | tools/plams_experimental/ase_calculator.py:390-402 | once a property raises, later properties are not visited |
| AseCalculator.EnsureNeverMissing | tools/plams_experimental/ase_calculator.py:394-402 | with a non-empty extractor list `ensure_property` raises nothing but the `None.copy()` failure |
| AseCalculator.EnsureEnergyDropsSettings | tools/plams_experimental/ase_calculator.py:99-107 | ensuring "energy" replaces the settings by the None the base `set_settings` returns |
| AseCalculator.EnsureForcesImplementsForces | tools/plams_experimental/ase_calculator.py:145-156 | ensuring "forces" sets Gradients to "Yes", after which "forces" is implemented |
| AseCalculator.Tick | tools/plams_experimental/ase_calculator.py:341-351 | specification of one read of `counter`; TicksCount and SetCounterThenTick state it |
| AseCalculator.TicksCount | tools/plams_experimental/ase_calculator.py:341-351 | successive reads of a new name's counter return 1, 2, 3, …, and other names are untouched |
| AseCalculator.SetCounterThenTick | tools/plams_experimental/ase_calculator.py:348-355 | after `set_counter(v)` the next read is v+1; each read is one more than the last |
| AseCalculator.WorkerSettingsDropsRequests | tools/plams_experimental/ase_calculator.py:461-465 | the worker settings have no Task and no Properties, so neither flag reads true; every other key is kept |
| AseCalculator.PipeSettings | tools/plams_experimental/ase_calculator.py:468-480 | specification of the pipe request's settings: `input.ams` and `amsworker` without `prev_results`; Submit states the request |
| AseCalculator.JobSettings | tools/plams_experimental/ase_calculator.py:501-507 | specification of the job request's settings: `EngineRestart` set only with restart and a previous run; Submit states the request |
| AseCalculator.RequestFor | tools/plams_experimental/ase_calculator.py:468-507 | specification of what `_get_ams_results` hands to the worker or the job; Submit states it |
| AseCalculator.Calculator.constructor | tools/plams_experimental/ase_calculator.py:250-339 | `amsworker` picks the pipe or job calculator; the four default extractors come first, then the user's; the system in the settings wins over a non-empty molecule; the state starts empty |
| AseCalculator.Calculator.Counter | tools/plams_experimental/ase_calculator.py:341-351 | reads and advances the shared counter of this calculator's name |
| AseCalculator.Calculator.SetCounter | tools/plams_experimental/ase_calculator.py:353-355 | sets the shared counter of this calculator's name |
| AseCalculator.Calculator.EnsureProperty | tools/plams_experimental/ase_calculator.py:390-402 | the settings, the updated flag and the exception end as the specification function gives; atoms, results and the worker are untouched |
| AseCalculator.Calculator.VisitExtractors | tools/plams_experimental/ase_calculator.py:395-399 | the inner loop ends as the per-property specification gives, and "found" holds exactly when the list is non-empty |
| AseCalculator.Calculator.ResultsFromAmsResults | tools/plams_experimental/ase_calculator.py:404-408 | the results end as the fill specification gives; atoms and settings are untouched |
| AseCalculator.Calculator.Submit | tools/plams_experimental/ase_calculator.py:468-507 | the pipe calculator starts its worker once; the run is named by the next counter value; the request carries the pipe or job settings |
| AseCalculator.ChangedAtomsAreNotCached | tools/plams_experimental/ase_calculator.py:364-372 | atoms that differ in symbols, positions, cell or periodic directions are never served from the cache |
| AseCalculator.Calculator.Calculate | tools/plams_experimental/ase_calculator.py:362-388 | unchanged atoms, no changes, present results and no ensured property return at once; else ValueError without atoms, RuntimeError before `plams.init()`, AttributeError without settings; a failed run empties the results; a good one fills them and becomes the previous run |
| AseCalculator.Calculator.Recalculate | tools/plams_experimental/ase_calculator.py:374-388 | the guards of `calculate`, in order, and what the run leaves behind |
| AseCalculator.Calculator.RunAndCollect | tools/plams_experimental/ase_calculator.py:381-388 | submits the run; a failed run empties the results; a good one fills them and, if nothing raised, is kept as the previous run |
| AseCalculator.Calculator.StopWorker | tools/plams_experimental/ase_calculator.py:417-426 | a running worker is stopped and its report returned; without one the answer is (None, None); no worker remains |

## Left out

- The JSON and YAML reading and writing of the metadata, the `message`
  printing, and the progress output of `add_to_db`. These are I/O and do
  not change the values the model tracks.
- `update_metadata` writes the files after each updated key and at the end.
  The model returns the final vocabulary and row count instead.
- The ASE database is a sequence of records. `db.count()`, `db.select` and
  the row ids are the length of the row list and the `id` of each `Row`.
- Atoms, positions, band structure, DOS, history, timings, the scripts and
  the calculator parameters are not stored. They are read from PLAMS
  results, which are foreign code.
- Floating point is not modelled:
  - the Hartree and Bohr unit scaling of energies, forces and stresses;
  - the `ctime` arithmetic;
  - the `8.3f` rendering of the energy, which is a function parameter.
- `get_runtime`'s `strptime`/`strftime` is a parameter (`reformat`), and so
  is reading a dataset file (`readLines`). A missing `ams.log` is a missing
  first line. Opening a dataset file that does not exist
  (tools/db/store_job.py:292) raises FileNotFoundError in the source; the
  model has no such error, since `readLines` always returns lines.
- StoreJob.Display: `str` of a float is a parameter. `str` of a bool is "True"/"False".
- `re`'s `\w` and `\S` are ASCII word characters and Python's whitespace set.
  Unicode letters outside ASCII are not treated as word characters.
- `\d` in the runtime stamp pattern (tools/db/store_job.py:62) and in the
  space-group look-aheads matches any Unicode decimal digit in Python 3. The
  model accepts only the ASCII digits 0 to 9.
- Text.Lower: only ASCII capitals are lowered. That is exact for the values
  compared ("true", "yes"), but not for the lower case of every Unicode
  letter.
- PLAMS `Settings` are a flat map from leaf paths to values. A missing key
  reads as an empty `Settings` (`Node`). Case-insensitive key lookup and the
  nested-object internals are not modelled.
- `__init__` keeps the "Extractors" entry in `self.settings`, because it
  pops it only from a copy. The model passes the user extractors separately
  and does not carry that entry in the settings.
- User extractors are limited to two kinds: the base `set_settings`/`check_settings`
  pair, or a single flag the way the force and stress extractors use one.
  Arbitrary subclass code is foreign.
- AseCalculator.Extract: a user extractor's result is looked up by name in
  the run's results. A missing one is the base class's NotImplementedError.
- The `isinstance(pbc, bool)` branch of the stress extractor is left out.
  `atoms.get_pbc()` always returns an array there, so the branch is dead.
- `fromASE`, `toASE` and `AMSJob.settings_to_mol` are foreign conversions.
  Their results are constructor parameters (`molecule`, `systemAtoms`).
- `AMSWorker`, `AMSJob.run()` and the worker process are foreign. The model
  builds the request they receive, and the run's results are a parameter.
- `__deepcopy__`, `__enter__`/`__exit__`, `clean_exit` and the `amsresults`
  property are left out. They manage object copies and the worker process,
  not the calculator's data.
- StoreJob.SimRecord and StoreJob.Database.AddSimToDb: only the runtime
  error and the missing engine are modelled. Exceptions from the foreign
  reads before the write are not: `get_atoms_from_ams`
  (tools/db/store_job.py:431), `get_band_info` (tools/db/store_job.py:451;
  it fails for a job without a BAND result file and raises IndexError when
  no band lies below the Fermi energy or the highest such band is the last
  one), `get_dos` and `get_history` (tools/db/store_job.py:458-459),
  `get_timings()` (tools/db/store_job.py:480), and the checks `db.write`
  itself makes. When one of them raises, the source writes nothing; the
  model writes the row.
- The `AtomsRow` of the model always has `user`, `name` and `task`. In the
  source, `row_info` raises AttributeError for a row without one of them
  (tools/db/store_job.py:354-360). The rows `add_sim_to_db` and
  `add_ic_to_db` write always carry all three.
- `calculate` stores `atoms.copy()`. The model stores the atoms value, which
  is the same thing for a value type.
- The `except ImportError` stand-in `Calculator` class that raises when ASE
  is missing is left out.
- `get_band_info`, `get_dos`, `get_history`, `get_atoms_from_ams` and
  `get_input_atoms_from_ams` are left out. They only read PLAMS results.
