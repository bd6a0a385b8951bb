# Image classification pipeline: a verified model

This project models the core of an image classification ETL pipeline in
Dafny and proves properties of the model.

The pipeline sorts images into five resolution tiers (240p, 480p, 720p,
1080p, 4K) by their total pixel count. It has two parts:

- The classifier (`tasks/classify.py`) scans a folder. It keeps the files
  whose names end in an image extension and whose decoded width and height
  are both positive. It builds one record per kept image and summarises
  the records in statistics.
- The ETL stages (`dags/image_classification_dag.py`) run in three steps.
  Extract builds one work item per image file. Transform classifies one
  item inside a temporary folder. It returns exactly one result record,
  unless staging the image into that folder fails.
  Load collects those records, splits them into successes and failures,
  and counts them.

Modules, one per file:

- `Seqs` (`seqs.dfy`) holds the list comprehensions and column reductions
  both source files use. That is filter, projection, counting, sum, minimum
  and maximum, with their permutation lemmas.
- `FileNames` (`file_names.dfy`) holds the case-insensitive extension test
  and `os.path.join`.
- `Classify` (`classify.dfy`) models `tasks/classify.py`.
- `ImageClassificationDag` (`dag.dfy`) models the three stage functions of
  `dags/image_classification_dag.py`.

What the model takes as inputs:

- The filesystem is a value `FileSystem` of three functions:
  - the directory listing, None for a missing folder;
  - the file size;
  - the image decoder, None when PIL fails to open the file.
- In the transform stage, the inner classification call is a parameter
  from folder to `Call<TaskResult>`. It either returns a result or raises
  with a message. The outcome of the staging copy is a parameter too.
- The temporary workspace is a `Scratch` object. It holds the set of
  existing directories and the staged files. `makedirs`, `copy2` and
  `rmtree` update it in place.
- The result store between the tasks is a function from map index to
  `Pull`. A pull either raises, gives nothing, or gives a result.

Behaviour of the code that a reader might not expect, and that the model
keeps:

- The staging copy in the transform stage comes before the `try`. A copy
  that fails is therefore not caught. It escapes the task and leaves the
  temporary folder behind (`dags/image_classification_dag.py:145-148`).
- The exception path uses `str(e)` as the error message, and that may be
  empty.
- The temporary folder is named after the task id, so it is not unique per
  item (`dags/image_classification_dag.py:139`).
- The load stage takes its loop bound from `image_list` in the run
  configuration. It does not use the number of dispatched items. See
  Findings.
- A success record has no `status` key at all. The load stage treats every
  record whose status is not `"error"` as a success.

## Model

| member | source | states |
|---|---|---|
| `Classify.ClassifyResolution` | tasks/classify.py:33-47 | The result is the unique tier whose pixel interval holds `width * height`. Each bound is inclusive on its upper side: ≤76800, ≤409920, ≤921600, ≤2073600, above that 4K. |
| `Classify.Label` | tasks/classify.py:38-47 | Every category's name is one of "240p", "480p", "720p", "1080p", "4K", and each of those names belongs to exactly one category. |
| `Classify.LabelInjective` | tasks/classify.py:38-47 | Different tiers have different names. A distribution keyed by name, as `value_counts` builds it, therefore holds the same counts as one keyed by tier. |
| `Classify.TiersDisjoint` | tasks/classify.py:38-47 | No pixel count lies in two tiers, so the classification is total and single-valued. |
| `Classify.ClassifyByPixelCount` | tasks/classify.py:35 | Two images with the same `width * height` get the same category, whatever their aspect ratio. |
| `Classify.ClassifyMonotone` | tasks/classify.py:35-47 | More pixels never give a lower tier. |
| `Classify.ClassifyBoundaries` | tasks/classify.py:38-47 | 76800→240p, 76801→480p, 409920→480p, 409921→720p, 921600→720p, 921601→1080p, 2073600→1080p, 2073601→4K, and 500x1→240p. |
| `Classify.GetImageResolution` | tasks/classify.py:23-31 | A successful decode gives the decoded width and height. A failed decode gives (0, 0), so a size with a positive side can only come from a successful decode. |
| `FileNames.ImageFiles` | tasks/classify.py:58-63 | A name is kept exactly when it is listed and its lower-cased form ends in one of the six extensions. The kept names keep their listing order. |
| `FileNames.ImageNameCaseInsensitive` | tasks/classify.py:62 | A name and its lower-cased form pass or fail the extension test together. |
| `FileNames.ImageNameAccepts` | tasks/classify.py:58-62 | "a.jpg", "B.JPEG" and "scan.Tiff" pass the extension test. |
| `FileNames.ImageNameRefuses` | tasks/classify.py:58-62 | "notes.txt", a bare "jpg" and "scan.tif" fail the extension test. |
| `FileNames.Join` | tasks/classify.py:68 | The joined path ends with the name. An absolute name replaces the folder. |
| `FileNames.JoinLayout` | tasks/classify.py:68 | For a relative name, the joined path is the folder, then one `/` unless the folder is empty or already ends in `/`, then the name. |
| `Classify.ProcessImages` | tasks/classify.py:49-99 | The two loops return exactly the records of `ProcessedRecords`. A missing folder gives no records. |
| `Classify.BuildRecordsSpec` | tasks/classify.py:67-93 | The record names are the input names that decode to a positive size, in order. Each record holds its decoded width and height, `total_pixels = width * height`, the category of those dimensions and the file size. |
| `Classify.ProcessedRecordsSpec` | tasks/classify.py:58-93 | A record exists exactly for each listed name that passes the extension test and decodes to positive dimensions. Records follow the listing order. There are no more records than listed names. |
| `Classify.MissingFolderIsEmpty` | tasks/classify.py:53-55 | A missing input folder yields no records. |
| `Classify.TruncDiv` | tasks/classify.py:115 | `int()` of a mean truncates toward zero, for negative sums too. |
| `Seqs.MinOf` | tasks/classify.py:113 | The column minimum occurs in the column and is at most every entry. |
| `Seqs.MaxOf` | tasks/classify.py:114 | The column maximum occurs in the column and is at least every entry. |
| `Classify.GenerateStatistics` | tasks/classify.py:101-119 | No records give no statistics. Otherwise: the count is the number of records, and the distribution counts add up to it. The distribution has a key exactly for each category present. Each category's count is its number of records. Minimum and maximum are taken per column, width and height independently. The average of each column is its sum divided by the record count, truncated toward zero, and it lies between the column's minimum and maximum. |
| `Classify.DistributionSum` | tasks/classify.py:108 | Each count of `value_counts` is the number of entries with that value. The counts add up to the number of entries. The keys are exactly the values that occur. |
| `Classify.CategoryDistribution` | tasks/classify.py:108 | For the category column of a record list, each category's count is its number of records. There is a key exactly for each category some record has. |
| `Classify.DistributionPermutation` | tasks/classify.py:108 | Reordering the entries does not change the distribution. |
| `Classify.MeanWithinColumn` | tasks/classify.py:115 | The truncated mean of a column lies between its minimum and its maximum. |
| `Classify.StatisticsOrderIndependent` | tasks/classify.py:106-117 | Two record lists with the same multiset give identical statistics, up to the key order of the distribution. |
| `Classify.ClassifyImagesTask` | tasks/classify.py:121-159 | The status is error, with "No images processed", exactly when no record was produced. Otherwise `total_images` is the record count, `results` are the records and `statistics` is their summary. |
| `ImageClassificationDag.ExtractImages` | dags/image_classification_dag.py:83-123 | A missing folder gives no items. Otherwise the item names are exactly the listed names that pass the extension test, in listing order. Each item has `file_path = join(folder, name)`, its file size and `batch_id = run_id`. |
| `ImageClassificationDag.ShapeResult` | dags/image_classification_dag.py:148-184 | A successful result with a non-empty record list gives its first record, unchanged, tagged with the item's batch id and original path. Any other returned result gives an error record: the item's filename, status "error", "Classification failed". An exception gives an error record carrying its message. Every path carries the item's batch id. |
| `ImageClassificationDag.Scratch.MakeDirs` | dags/image_classification_dag.py:139-140 | The directory exists afterwards. Nothing else changes. |
| `ImageClassificationDag.Scratch.Copy` | dags/image_classification_dag.py:143-146 | On success the staged path holds a copy of the source. On failure nothing changes and the error is returned. |
| `ImageClassificationDag.Scratch.RemoveTree` | dags/image_classification_dag.py:153 | The folder and everything below it are removed. Everything else stays. |
| `ImageClassificationDag.TransformClassifyImage` | dags/image_classification_dag.py:126-184 | A failed copy escapes as raised and leaves the temporary folder in place. Otherwise the result is `ShapeResult` of the inner call on the temporary folder. Whether that call returned or raised, the folder and everything in it are gone afterwards. For a task id without `/` and a relative file name, this includes the staged copy. |
| `ImageClassificationDag.StagedWithinTemp` | dags/image_classification_dag.py:139-153 | The staged path of a relative name lies inside the temporary folder of a task id without `/`, so removing that folder removes the staged file. |
| `ImageClassificationDag.CollectResults` | dags/image_classification_dag.py:198-215 | The loop keeps, in index order, the results of the pulls below the bound. It skips pulls that gave nothing or raised. |
| `ImageClassificationDag.CollectedSpec` | dags/image_classification_dag.py:204-215 | At most as many results as map indices are collected. A result is collected exactly when some index below the bound pulled it. |
| `ImageClassificationDag.CollectedCount` | dags/image_classification_dag.py:204-213 | The number of collected results equals the number of map indices below the bound whose pull gave a result, so duplicates are kept. |
| `ImageClassificationDag.SuccessIsClassified` | dags/image_classification_dag.py:220-221 | "Status absent or not error" holds exactly for classified records. "Status error" holds exactly for error records. |
| `ImageClassificationDag.PartitionSpec` | dags/image_classification_dag.py:220-221 | Successes and failures are disjoint and together make up the collected list, so their counts add up to its length. |
| `ImageClassificationDag.AggregateStatistics` | dags/image_classification_dag.py:219-262 | `total_images_processed` is the collected count, which equals successful plus failed. With no successes the distribution is empty and the success count is 0. Otherwise the distribution counts add up to the success count, with a key exactly for each category of a classified record. Each category's count is its number of successful results. |
| `ImageClassificationDag.AggregateOrderIndependent` | dags/image_classification_dag.py:219-236 | Results arriving in any order give identical statistics, up to the key order of the distribution. |
| `ImageClassificationDag.EndToEndExample` | dags/image_classification_dag.py:219-236 | Three valid images of 50,000, 900,000 and 5,000,000 pixels plus one failure give 4 processed, 3 successful and 1 failed. The distribution is {240p: 1, 720p: 1, 4K: 1}. |
| `ImageClassificationDag.BatchIdPropagates` | dags/image_classification_dag.py:114 | If every work item carries the run id, every shaped result carries it too. |
| `ImageClassificationDag.LoadAggregateResults` | dags/image_classification_dag.py:187-305 | This is the load stage as written. It pulls as many indices as the configuration's `image_list` has entries. It computes the JSON document the stage writes, without its timestamp: the run id as batch id, the successes, the failures and their statistics. The batch id and the statistics are also part of what the stage returns. |
| `ImageClassificationDag.UnlistedRunAggregatesNothing` | dags/image_classification_dag.py:204 | A configuration without `image_list` makes the load stage collect and count nothing. |
| `ImageClassificationDag.UnlistedRunExample` | dags/image_classification_dag.py:204 | Take three dispatched items whose results are all available. As written, for an empty configuration, 0 are processed. Bounded by the dispatched items, 3 are. |
| `ImageClassificationDag.LoadDispatchedResults` | dags/image_classification_dag.py:204 | This is the corrected load stage, bounded by the dispatched items. When every item's result can be pulled, all of them are counted. |
| `ImageClassificationDag.AllPulledAllCollected` | dags/image_classification_dag.py:204-213 | When every index below the bound pulls a result, that many results are collected. |

## Left out

- Float quantities are not modelled: aspect ratio, size in MB, the float averages and totals, and `round(..., 2)`. Records and statistics carry only their integer fields.
- `Classify.GenerateStatistics`: the truncated mean is exact integer division of the sum. Float rounding of `mean()` for sums of 2^53 or more is not modelled.
- The `"{w}x{h}"` formatting of the resolution summary is left out. The model keeps the integer pairs.
- Timestamps (`datetime.now()`), logging and the `__main__` block are left out.
- Writing the CSV in `classify_images_task` and the JSON and CSV files of the load stage are left out. So are `makedirs` of the output folder and the default output folder.
- PIL decoding is an input function. A folder that exists but is not a directory (where `os.listdir` raises) is not modelled.
- `os.path.getsize` is an input function that always succeeds. A failing size lookup is not modelled.
- `FileNames.Lower`: lower-casing covers ASCII letters only, not the full Unicode `str.lower`.
- `ImageClassificationDag.Scratch.MakeDirs`: parent directories are taken to exist, and a failing `makedirs` is not modelled.
- The inner classification call in the transform stage is a parameter. The model does not derive it from the staged folder's contents through `Classify.ClassifyImagesTask`.
- The XCom push of the image list and the key scheme of the pulls are left out. Pulls are an input function from map index to outcome.
- Key order of a distribution is not modelled, in either stage. `value_counts()` orders its keys by count, and tied keys keep the order pandas meets them in. The key order of the dictionary, and of the JSON written from it, can therefore depend on the order records arrive in (`tasks/classify.py:108`, `dags/image_classification_dag.py:234-236`, `dags/image_classification_dag.py:277-287`). A distribution is a `map`, so `Classify.StatisticsOrderIndependent` and `ImageClassificationDag.AggregateOrderIndependent` state equality of its contents only.
- Paths are not normalised. `ImageClassificationDag.TransformClassifyImage` names the staged file as removed only for a task id without `/`. That is the only shape of task id Airflow accepts. With a trailing `/`, the model would not match the staged copy to the folder that `rmtree` removes.
- `ImageClassificationDag.LoadAggregateResults`: the returned `status: "success"` and the `output_files` list are not modelled, since writing the files is left out. The model returns the written JSON document, which holds the batch id and statistics the stage returns.
- The scheduler wiring is left out: the mock classes, operators, task dependencies, retries and defaults.
- Concurrent execution of mapped tasks is left out, including several instances sharing one temporary folder. The model is sequential.

## Findings

| source | as written | input that shows it | evidently intended | confidence | as-written member | corrected member |
|---|---|---|---|---|---|---|
| dags/image_classification_dag.py:204 | The load stage loops over `range(len(conf.get("image_list", [])))`. Extract never puts `image_list` into the run configuration. | A scheduled run has an empty configuration. With three images, extract dispatches three items and all three results are available, yet the load stage collects none and reports 0 processed. | Collect one result per item that extract dispatched. | medium; not executed | `ImageClassificationDag.UnlistedRunExample` | `ImageClassificationDag.LoadDispatchedResults` |
