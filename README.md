# mlpack core pieces in Dafny

This project models three self-contained pieces of mlpack and proves properties about them:

- **The kernel density estimator's orchestration** (module `Kde`, `kde.dfy`):
  - tolerance validation at construction and in the two setters;
  - training from raw data (the estimator builds and owns a reference tree) or from a caller's tree (the estimator borrows it);
  - the ownership rules that copy, assignment and destruction must respect;
  - the normalisation step of both `Evaluate` overloads, which divides the raw kernel sums in place by the reference point count.

  Trees and kernels are heap objects. A `Heap` class keeps the ghost set `live` of allocated, not yet deleted objects. `Delete` requires a live object, so a double free is a verification failure, and a leak shows up as an object left in `live` that nothing refers to.
- **Item-mean normalisation** for collaborative filtering (module `CfNormalization`, `item_mean_normalization.dfy`):
  - the dense `Normalize` on a coordinate list of (user, item, rating) columns: per-item sums and counts, division, then subtraction in place;
  - the sparse `Normalize` on an item-by-user matrix;
  - the scalar and batch `Denormalize`, and the `ItemMean` accessor.
- **CSV category detection** (module `LoadCsv`, `load_csv.dfy`):
  - `Load`, which dispatches on the open check and on the transpose flag;
  - the row-wise `NonTranposeParse`, with its numeric pass and category fallback;
  - the transposed `TranposeParse` / `TranposeParseImpl` pair. Each line becomes a column. Each pass grows the set `mapCols` of field positions known to hold text, and stops at the first line that adds one. The outer loop retries with a fresh mapper.

Lines arrive already split into the fields the grammar recognises: a `Line` is a `seq<Field>`, each field `Num(value, text)` or `Str(s)`. `DatasetMapper::MapString` is an uninterpreted function `(string, dimension) -> code`. The mapper also keeps a log of every request made of it, so the contracts state which strings were mapped in which dimension, and in what order.

Every method that updates state is proved against specification functions:

- `Normalized`, `ItemMeans`, `Centered` and `RowMeans`;
- `RowValues`/`RowCell`, `RowsStatus` and `RowsRequests` for the row-wise parse;
- `PassFrom`, `PassCell`, `PassRequests` and `Retry` for the transposed parse.

Lemmas then prove what the source promises about those functions.

Two points where the source is not what a reader might expect, and what the model does:

- `Evaluate` (src/mlpack/methods/kde/kde_impl.hpp:165-184) never checks `trained`, so being trained is a precondition rather than an error outcome.
- `Train(Tree&)` frees a previously owned tree (kde_impl.hpp:152-153), but `Train(referenceSet)` does not (kde_impl.hpp:135-141). Both the code as written and the freeing version are modelled; see Findings.

`Load` dispatches to the transposed parse as written, which can give up. `LoadCorrected` dispatches to the corrected one.

## Model

| member | source | states |
|---|---|---|
| `Kde.CheckTolerances` | src/mlpack/methods/kde/kde_impl.hpp:60-64 | The constructor rejects exactly the pairs with a negative tolerance. It warns exactly when both tolerances are positive. A relative error above 1 with a non-negative absolute error is accepted, since the constructor sets no upper bound. |
| `Kde.KDE.Init` | src/mlpack/methods/kde/kde_impl.hpp:48-58 | A freshly initialised estimator has the given settings, is untrained and owns no tree. |
| `Kde.KDE.Create` | src/mlpack/methods/kde/kde_impl.hpp:48-65 | Construction yields no estimator exactly when the tolerances are rejected. It warns exactly when both are positive. Otherwise: a valid, untrained estimator that owns no tree, has the given settings and owns a newly allocated kernel, the only new live object. |
| `Kde.KDE.Copy` | src/mlpack/methods/kde/kde_impl.hpp:73-88 | The copy has every setting of the original and a new kernel of the same bandwidth. If the original owns its tree, the copy holds a distinct, newly allocated tree over the same data. If it borrows one, both refer to the same tree. Only the new kernel and the owned copy become live. |
| `Kde.KDE.Destroy` | src/mlpack/methods/kde/kde_impl.hpp:122-127 | The destructor frees the kernel, and the reference tree only if owned. A borrowed tree stays live. |
| `Kde.KDE.TrainAsWritten` | src/mlpack/methods/kde/kde_impl.hpp:135-141 | Training on raw data leaves the estimator trained and owning a newly allocated tree over that data. A previously owned tree stays live and is no longer referred to. Kernel and tolerances are unchanged. |
| `Kde.RetrainLeaksFirstTree` | src/mlpack/methods/kde/kde_impl.hpp:135-141 | Training twice on raw data leaves the first tree allocated with nothing referring to it. |
| `Kde.KDE.Train` | src/mlpack/methods/kde/kde_impl.hpp:135-141 | Corrected training on raw data frees the previously owned tree first. Exactly that tree leaves `live` and exactly the new one enters. |
| `Kde.KDE.TrainWithTree` | src/mlpack/methods/kde/kde_impl.hpp:149-157 | Training on a caller's tree frees the old tree only if it was owned. The caller's tree is then borrowed: not owned, trained, and the caller's tree is never freed. |
| `Kde.KDE.AssignAsWritten` | src/mlpack/methods/kde/kde_impl.hpp:97-114 | Assignment from a by-value copy: every setting is taken from the source. Afterwards the target's kernel is freed, and so is its tree when the source owns one. The target is no longer valid. The old kernel and old owned tree are freed too. |
| `Kde.AssignmentLeavesDanglingKernel` | src/mlpack/methods/kde/kde_impl.hpp:97-127 | After one estimator is assigned to another, the target's kernel is no longer allocated. Its destructor would therefore free that kernel a second time. |
| `Kde.KDE.Assign` | src/mlpack/methods/kde/kde_impl.hpp:97-114 | Corrected assignment by copy-and-swap. The target is valid and has the source's settings and a new kernel of the same bandwidth. It has a distinct new copy of an owned tree, or the same borrowed tree. The old kernel and old owned tree are each freed exactly once. |
| `Kde.KDE.TakeFields` | src/mlpack/methods/kde/kde_impl.hpp:105-111 | Every field, raw pointers included, is taken from the other estimator. |
| `Kde.KDE.SwapWith` | src/mlpack/methods/kde/kde_impl.hpp:105-111 | Every field is exchanged with the other estimator. |
| `Kde.Normalized` | src/mlpack/methods/kde/kde_impl.hpp:183 | Each density estimate times the reference point count is the raw kernel sum. The length is unchanged. |
| `Kde.NormalizedSum` | src/mlpack/methods/kde/kde_impl.hpp:183 | The normalised estimates sum to the raw total divided by the reference point count. |
| `Kde.DivideByPointCount` | src/mlpack/methods/kde/kde_impl.hpp:183 | Dividing the accumulator in place leaves exactly the normalised raw sums. |
| `Kde.RunTraversal` | src/mlpack/methods/kde/kde_impl.hpp:181-182 | The traversal leaves its raw sums in the accumulator. |
| `Kde.KDE.Evaluate` | src/mlpack/methods/kde/kde_impl.hpp:165-184 | The accumulator ends as the traversal's raw sums over the transient query tree, divided by the reference point count. The transient tree is freed, so `live` is unchanged, and the estimator stays valid. |
| `Kde.KDE.EvaluateTree` | src/mlpack/methods/kde/kde_impl.hpp:222-241 | The same normalisation over the caller's query tree. That tree stays allocated. |
| `Kde.KDE.RelativeError` | src/mlpack/methods/kde/kde_impl.hpp:249-257 | Succeeds exactly when 0 <= e <= 1, and then sets the relative error. Otherwise the value is unchanged. |
| `Kde.KDE.AbsoluteError` | src/mlpack/methods/kde/kde_impl.hpp:265-273 | Succeeds exactly when e >= 0, and then sets the absolute error. Otherwise the value is unchanged. |
| `CfNormalization.MaxItem` | src/mlpack/methods/cf/normalization/item_mean_normalization.hpp:37 | The largest item id bounds every id and is itself the id of some rating. |
| `CfNormalization.ItemMeans` | src/mlpack/methods/cf/normalization/item_mean_normalization.hpp:37-38 | There is one mean per item id from 0 to the largest, so every rated item has one. |
| `CfNormalization.ItemMeanOfItem` | src/mlpack/methods/cf/normalization/item_mean_normalization.hpp:40-55 | A rated item's mean is its rating sum divided by its rating count. An unrated item's mean is 0. |
| `CfNormalization.UnratedSum` | src/mlpack/methods/cf/normalization/item_mean_normalization.hpp:43-55 | An item with no rating has rating sum 0, so leaving its accumulated sum undivided gives 0. |
| `CfNormalization.MeanTimesCount` | src/mlpack/methods/cf/normalization/item_mean_normalization.hpp:53-55 | A rated item's mean times its count is its rating sum. |
| `CfNormalization.Centered` | src/mlpack/methods/cf/normalization/item_mean_normalization.hpp:56-59 | Centring keeps the number of ratings. |
| `CfNormalization.CenteredKeepsEntries` | src/mlpack/methods/cf/normalization/item_mean_normalization.hpp:56-59 | Centring keeps every user and item id. Each centred rating plus its item's mean is the original rating. |
| `CfNormalization.RemovedTotalIsProduct` | src/mlpack/methods/cf/normalization/item_mean_normalization.hpp:56-59 | Removing m from each rating of an item removes m once per rating. |
| `CfNormalization.MeanRemovesSum` | src/mlpack/methods/cf/normalization/item_mean_normalization.hpp:53-59 | Removing its mean from each rating of a rated item removes its whole rating sum. |
| `CfNormalization.CenteredSum` | src/mlpack/methods/cf/normalization/item_mean_normalization.hpp:56-59 | Centring lowers an item's rating sum by its mean once per rating. |
| `CfNormalization.CenteredSumZero` | src/mlpack/methods/cf/normalization/item_mean_normalization.hpp:43-59 | When an item's entry is its mean, its centred ratings sum to zero, whatever other items get. |
| `CfNormalization.CenteredSumsToZero` | src/mlpack/methods/cf/normalization/item_mean_normalization.hpp:43-59 | After normalisation, the ratings of every rated item sum to zero. |
| `CfNormalization.AccumulateRatings` | src/mlpack/methods/cf/normalization/item_mean_normalization.hpp:38-48 | One pass over the columns yields every item's rating sum and rating count. |
| `CfNormalization.DivideByCounts` | src/mlpack/methods/cf/normalization/item_mean_normalization.hpp:53-55 | The sums become means in place. Unrated items keep 0. |
| `CfNormalization.SubtractMeans` | src/mlpack/methods/cf/normalization/item_mean_normalization.hpp:56-59 | Afterwards the data is exactly the centred ratings. |
| `CfNormalization.ItemMeanNormalization.constructor` | src/mlpack/methods/cf/normalization/item_mean_normalization.hpp:28 | A new normaliser has no item means. |
| `CfNormalization.ItemMeanNormalization.Normalize` | src/mlpack/methods/cf/normalization/item_mean_normalization.hpp:35-60 | An empty list is an error that changes nothing. Otherwise the stored means are `ItemMeans` of the input, and the data becomes the input with each rating's item mean removed. |
| `CfNormalization.RowMeans` | src/mlpack/methods/cf/normalization/item_mean_normalization.hpp:69 | Each row mean times the column count is the row's sum over all columns, implicit zeros included. |
| `CfNormalization.ItemMeanNormalization.NormalizeSparse` | src/mlpack/methods/cf/normalization/item_mean_normalization.hpp:67-75 | The stored means are the row means over all columns. Each stored entry has its row mean removed, and each unstored entry stays zero. |
| `CfNormalization.DenormalizeRoundTrip` | src/mlpack/methods/cf/normalization/item_mean_normalization.hpp:84-89 | `Denormalize` applied to a normalised rating with the stored means gives back the original rating, whatever user is named. |
| `CfNormalization.ItemMeanNormalization.DenormalizeBatch` | src/mlpack/methods/cf/normalization/item_mean_normalization.hpp:97-105 | Each prediction becomes the scalar `Denormalize` of its combination, which adds exactly its item's mean. |
| `CfNormalization.ItemMeanReported` | src/mlpack/methods/cf/normalization/item_mean_normalization.hpp:110-113 | After a normalisation, `ItemMean` reports one entry per item id up to the largest. A rated item's entry is its rating sum divided by its count; an unrated item's entry is 0. |
| `LoadCsv.Clean` | src/mlpack/core/data/load_csv.hpp:107-110 | The mapper is never asked for a lone tab: a tab becomes the empty string and any other text is passed on unchanged. |
| `LoadCsv.NumericPrefix` | src/mlpack/core/data/load_csv.hpp:123 | The numeric pass reads only numbers. It stops at the first text field or at the end of the line. |
| `LoadCsv.RowCodesAreLogged` | src/mlpack/core/data/load_csv.hpp:104-114 | A row the numeric pass fills asks the mapper nothing. In any other row there is one request per stored value, all in the row's dimension, and each stored value is the code returned for its request. |
| `LoadCsv.RowCellCases` | src/mlpack/core/data/load_csv.hpp:100-136 | Each cell holds a number, a category code or zero beyond the fields. |
| `LoadCsv.RowsStatusMeaning` | src/mlpack/core/data/load_csv.hpp:118-138 | A row-wise parse never gives up. It fails exactly at the first row that needs the category pass and has no field, and it succeeds exactly when no row fails. |
| `LoadCsv.Matrix.SetSize` | src/mlpack/core/data/load_csv.hpp:96 | The matrix is fresh storage of the requested size. |
| `LoadCsv.DatasetMapper.constructor` | src/mlpack/core/data/load_csv.hpp:94 | A new mapper has the given dimensionality and no requests. |
| `LoadCsv.DatasetMapper.Reset` | src/mlpack/core/data/load_csv.hpp:151 | A fresh mapper of the given dimensionality has no requests. |
| `LoadCsv.DatasetMapper.MapString` | src/mlpack/core/data/load_csv.hpp:111-113 | Returns the code of the string in that dimension and logs the request. |
| `LoadCsv.WriteNumbers` | src/mlpack/core/data/load_csv.hpp:100-103 | The first k numbers go to the row's first k cells. Nothing else changes. |
| `LoadCsv.WriteCategories` | src/mlpack/core/data/load_csv.hpp:104-114 | Every field's code goes to its cell of the row, and every field is logged in order. Nothing else changes. |
| `LoadCsv.ParseRow` | src/mlpack/core/data/load_csv.hpp:120-137 | One line is its row's values, or a failure exactly when the line needs the category pass and has no field. The mapper gets exactly the row's requests. |
| `LoadCsv.ParseRows` | src/mlpack/core/data/load_csv.hpp:118-138 | The status is that of the whole file. Every row up to the failing one holds its values and every later row stays zero. The log is exactly those rows' requests. |
| `LoadCsv.LoadCSV.NonTranposeParse` | src/mlpack/core/data/load_csv.hpp:87-139 | A row-wise load: a mapper of one dimension per row and a row-by-column matrix. It holds what `ParseRows` promises. |
| `LoadCsv.NewTextPositions` | src/mlpack/core/data/load_csv.hpp:198-201 | The positions a line adds are disjoint from the known ones and lie within the line. |
| `LoadCsv.CellValue` | src/mlpack/core/data/load_csv.hpp:171-203 | A field writes nothing exactly when it is text at an unknown position. At a category position it is always stored, as a whole non-negative code. |
| `LoadCsv.StoredCodeIsLogged` | src/mlpack/core/data/load_csv.hpp:173-197 | A field asks the mapper exactly when its position is a category position, at most once and in that position's dimension. The value stored is the code returned for that request. |
| `LoadCsv.PassFrom` | src/mlpack/core/data/load_csv.hpp:207-229 | A pass stops with an error at the first line with no field. It stops early at the first line with text at a new position. Every earlier line is parseable and adds nothing. A pass completes only if every line has a field and adds no position. |
| `LoadCsv.StoreField` | src/mlpack/core/data/load_csv.hpp:171-203 | One field is stored as `CellValue` says, with exactly its request logged. It is reported for insertion exactly when it is text at an unknown position. |
| `LoadCsv.ParseColumn` | src/mlpack/core/data/load_csv.hpp:207-217 | One line becomes one column: each row holds `CellValue` of its field. The new positions are exactly the line's new text positions, and the requests are exactly the line's. |
| `LoadCsv.PassLine` | src/mlpack/core/data/load_csv.hpp:208-226 | One iteration of the pass loop. It stops exactly where `PassFrom` stops and keeps the written cells and log in step with the pass so far. |
| `LoadCsv.RunPass` | src/mlpack/core/data/load_csv.hpp:207-229 | A pass ends as `PassFrom` says, with the positions `AfterPass` gives. It writes exactly the columns it read, as `PassCell` says, and logs exactly their requests. |
| `LoadCsv.LoadCSV.TranposeParseImpl` | src/mlpack/core/data/load_csv.hpp:159-230 | The same promise as `RunPass`, on the loader's matrix and mapper. |
| `LoadCsv.PassKeepsZeros` | src/mlpack/core/data/load_csv.hpp:171-203 | A pass writes neither outside the fields nor text at an unknown position, so a matrix zero at those cells stays so. |
| `LoadCsv.UnwrittenShrinks` | src/mlpack/core/data/load_csv.hpp:200 | Once more positions are known, the cells no pass writes are a subset of those before. |
| `LoadCsv.UnstoredTextField` | src/mlpack/core/data/load_csv.hpp:198-224 | After a pass that ends early, the text at the new position of the enlarging line was not stored: its cell is still zero. |
| `LoadCsv.CompleteCoversText` | src/mlpack/core/data/load_csv.hpp:218-229 | A pass that completes has every text position of every line it read among the known positions. |
| `LoadCsv.CompletePassCell` | src/mlpack/core/data/load_csv.hpp:171-203 | After a complete pass with exactly the file's text positions, each cell holds its field's code at a text position, its number elsewhere, and zero outside the fields. |
| `LoadCsv.CompletePassHolds` | src/mlpack/core/data/load_csv.hpp:207-229 | The same holds for the whole matrix. |
| `LoadCsv.BoundedGrowth` | src/mlpack/core/data/load_csv.hpp:212-225 | A pass that ends early enlarges `mapCols` strictly and never shrinks it. The set stays inside the width bound. |
| `LoadCsv.ParsedPositionsAreText` | src/mlpack/core/data/load_csv.hpp:147-156 | A retry loop that parses ends with `mapCols` equal to the set of text positions of the file. |
| `LoadCsv.RetryWithRoomNeverGivesUp` | src/mlpack/core/data/load_csv.hpp:146-156 | With more tries left than positions left to discover, the retry loop never gives up. |
| `LoadCsv.LoadCSV.ParseAttempt` | src/mlpack/core/data/load_csv.hpp:148-155 | One retry round: a pass, then either the final outcome or a fresh mapper with strictly more text positions. |
| `LoadCsv.LoadCSV.TranposeParseAsWritten` | src/mlpack/core/data/load_csv.hpp:141-157 | The transposed load as written gives up after as many early-ending passes as the matrix has rows, and its outcome is `Retry` with that limit. On success every line has a field and each cell holds what `TransposeCell` says. On giving up, the mapper is fresh and some text field was never stored. |
| `LoadCsv.AsWrittenRetryGivesUp` | src/mlpack/core/data/load_csv.hpp:150-155 | A one-line file whose single field is text gives up when the matrix has one row. With one try more it parses. |
| `LoadCsv.CorrectedRetryNeverGivesUp` | src/mlpack/core/data/load_csv.hpp:146-156 | With one try more than the matrix has rows, the retry loop never gives up. |
| `LoadCsv.LoadCSV.TranposeParse` | src/mlpack/core/data/load_csv.hpp:141-157 | The corrected transposed load never gives up. Otherwise it makes the same promise as the as-written load. |
| `LoadCsv.LoadCSV.Load` | src/mlpack/core/data/load_csv.hpp:41-56 | A file that cannot be opened changes nothing. Otherwise the transpose flag selects the transposed parse as written (limit: the row count) or the row-wise parse, with that parse's promise. |
| `LoadCsv.AsWrittenLoadLeavesTextUnstored` | src/mlpack/core/data/load_csv.hpp:48-155 | Loading a one-line file whose only field is text, transposed, gives up, and the field's cell stays 0. |
| `LoadCsv.LoadCSV.LoadCorrected` | src/mlpack/core/data/load_csv.hpp:41-56 | The same dispatch with the corrected transposed parse: the load never gives up. |
| `LoadCsv.CorrectedLoadStoresText` | src/mlpack/core/data/load_csv.hpp:185-203 | The same one-line file under the corrected load parses, and the field's cell holds the code of its text. |

## Left out

- File I/O and the parsing grammar:
  - opening and rewinding the stream, `CanOpen`, `RowSize` and `ColSize` are not part of this model; the loader takes their results as constants;
  - the boost::spirit list grammar (`CreateNumRule`, `CreateCharRule`, `ElemParser`) is replaced by pre-tokenised lines. A line the grammar cannot read as a list is a line with no recognised field;
  - the choice of the delimiter by file extension is part of the grammar, so it is left out too.
- `LoadCsv.LoadCSV.WellShaped`: the bounds on the matrix come from the row and column counts, which the source never checks. An index outside the matrix would throw a bounds error in the source; the model makes "no more lines than rows, no line wider than the column count" a precondition instead.
- The matrix's `set_size` leaves new storage uninitialised; the model reads it as zeros.
- Thrown exceptions and `Log::Fatal` that the source raises on purpose become outcomes (matrix bounds errors do not: they are preconditions, each listed below under its member):
  - the parse errors are `Failed(line)`;
  - tolerance errors are a null estimator or a false result;
  - the error of taking the maximum of an empty row is `Normalize` returning false.
- `Kde.KDE.Create`: the source allocates the kernel before the fatal tolerance check, so a rejected construction also leaks it. The model allocates only for an accepted construction.
- `LoadCsv.LoadCSV.TranposeParse`: after a pass that fails at a line with no field, the contract only states the outcome and that cells outside the fields are zero. It does not state the columns written before the failure; in the row-wise parse they are stated in full. The same holds for `TranposeParseAsWritten`, for which giving up also states that some text field was never stored, but not every cell.
- `Kde.KDE.Copy`: the source passes pointers, `new KernelType(other.kernel)` (kde_impl.hpp:74) and `new Tree(other.referenceTree)` (kde_impl.hpp:84). The model copies what they point to: a kernel of the same bandwidth and a tree over the same data. As written, these constructor calls probably do not compile for mlpack's kernels and trees; the model takes the evident intent.
- `CfNormalization.ItemMeanNormalization.Denormalize`: requires the item to have a mean. The source indexes `itemMean(item)` unchecked, which is a bounds error for an item beyond the largest normalised id. That error is not modelled.
- `CfNormalization.ItemMeanNormalization.DenormalizeBatch`: requires a combination for every prediction, and every item in range. Otherwise `combinations(1, i)` or `itemMean(item)` raises a bounds error in the source; that error is not modelled.
- `CfNormalization.ItemMeanNormalization.NormalizeSparse`: requires at least one column. Otherwise `mean` runs over zero columns; what the matrix library returns then is not modelled.
- `DatasetMapper` internals and the mapping policy: `MapString` is an uninterpreted function plus a log of requests.
- `std::to_string` of a number is the `toString` parameter.
- The tree builder (`BuildTree`, including the rearrangement of the dataset), the dual-tree traverser, the rules, the metric and the kernel evaluation are parameters:
  - `Kde.KDE.Evaluate`: the model only states that the raw sums are whatever the traversal function returns for its inputs;
  - rule pruning is not part of this model.
- Doubles are modelled as reals, so rounding in means, divisions and subtractions is left out. So is the number of reference points being zero, which the source would divide by: `Evaluate` requires at least one reference point.
- Item ids are stored as doubles and cast to `size_t`; the model takes them as natural numbers.
- `CfNormalization.ItemMeanNormalization.NormalizeSparse`: the sparse matrix is a dense array plus the set of stored positions. The model does not capture that the source's sparse matrix drops an entry that becomes exactly zero.
- Serialization, log warnings (other than the constructor's warning flag) and the commented-out alternative evaluation code.
- The copy constructor's tree copy is modelled as a new tree over the same data. The tree's own copy semantics are not part of this model.

## Findings

| source | as written | input that shows it | evidently intended | confidence | as-written member | corrected member |
|---|---|---|---|---|---|---|
| src/mlpack/methods/kde/kde_impl.hpp:97-114 | `operator=` takes the parameter by value, copies its raw kernel and tree pointers, and returns. The parameter's destructor (lines 122-127) then frees that kernel, and that tree when owned. | Assigning any estimator to another | The target keeps its own kernel, and its own copy of an owned tree, as in copy-and-swap | not executed; high | `Kde.KDE.AssignAsWritten`, `Kde.AssignmentLeavesDanglingKernel` | `Kde.KDE.Assign` |
| src/mlpack/methods/kde/kde_impl.hpp:135-141 | `Train(referenceSet)` overwrites the pointer to an owned tree without freeing it | Training on raw data twice | Free a previously owned tree first, as `Train(tree)` does at lines 152-153 | not executed; high | `Kde.KDE.TrainAsWritten`, `Kde.RetrainLeaksFirstTree` | `Kde.KDE.Train` |
| src/mlpack/core/data/load_csv.hpp:148-155 | The retry loop returns as soon as the count of early-ending passes equals the matrix's row count, before running the pass that the last discovery calls for. The mapper is reset and the discovered text fields are never stored. | A one-line file whose only field is text, so the matrix has one row. The first pass discovers position 0 and the load gives up instead of parsing. | Allow one pass per possible new position plus the final pass: row count plus one | not executed; medium | `LoadCsv.LoadCSV.TranposeParseAsWritten`, `LoadCsv.AsWrittenRetryGivesUp`, `LoadCsv.AsWrittenLoadLeavesTextUnstored` | `LoadCsv.LoadCSV.TranposeParse`, `LoadCsv.CorrectedRetryNeverGivesUp`, `LoadCsv.CorrectedLoadStoresText` |
