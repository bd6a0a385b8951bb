/** The three ETL stages of dags/image_classification_dag.py: extract builds
    one work item per image name, transform runs the classifier on one item
    inside a temporary folder and shapes its result, load collects the
    per-item results, splits them by status and counts them. The scheduler,
    the result store between tasks and the output files are outside the
    model; what they supply becomes parameters. */
module ImageClassificationDag {
  import opened Seqs
  import opened FileNames
  import opened Classify

  const DefaultInputFolder: string := "/opt/airflow/data/input"

  /** The keys of `dag_run.conf` the stages read; None when a key is absent.
      `imageListLength` is the length of the list stored under `image_list`. */
  datatype RunConf = RunConf(inputFolder: Option<string>, imageListLength: Option<nat>)

  /** `conf.get("input_folder", "/opt/airflow/data/input")` */
  function InputFolder(conf: RunConf): string
  {
    match conf.inputFolder
    case None => DefaultInputFolder
    case Some(folder) => folder
  }

  /** `len(conf.get("image_list", []))` */
  function ExpectedResults(conf: RunConf): nat
  {
    match conf.imageListLength
    case None => 0
    case Some(n) => n
  }

  // ---------------------------------------------------------------------
  // Extract

  datatype WorkItem = WorkItem(filename: string, filePath: string, fileSize: nat, batchId: string)

  function ItemName(item: WorkItem): string { item.filename }

  /** `extract_images`: no items when the input folder does not exist;
      otherwise one item per listed name that passes the extension test, in
      listing order, each with its joined path, its size and the run id. */
  method ExtractImages(conf: RunConf, runId: string, fs: FileSystem) returns (items: seq<WorkItem>)
    ensures fs.listing(InputFolder(conf)).None? ==> items == []
    ensures fs.listing(InputFolder(conf)).Some? ==>
      Project(items, ItemName) == ImageFiles(fs.listing(InputFolder(conf)).value)
    ensures forall item :: item in items ==>
      && item.batchId == runId
      && item.filePath == Join(InputFolder(conf), item.filename)
      && item.fileSize == fs.size(item.filePath)
  {
    var inputFolder := InputFolder(conf);
    items := [];
    if fs.listing(inputFolder).None? {
      return;
    }
    var names := fs.listing(inputFolder).value;
    for i := 0 to |names|
      invariant Project(items, ItemName) == ImageFiles(names[..i])
      invariant forall item :: item in items ==>
        && item.batchId == runId
        && item.filePath == Join(inputFolder, item.filename)
        && item.fileSize == fs.size(item.filePath)
    {
      assert names[..i + 1][..i] == names[..i];
      var file := names[i];
      if IsImageName(file) {
        var filePath := Join(inputFolder, file);
        var fileSize := fs.size(filePath);
        var item := WorkItem(file, filePath, fileSize, runId);
        ProjectConcat(items, [item], ItemName);
        items := items + [item];
      }
    }
    assert names[..|names|] == names;
  }

  // ---------------------------------------------------------------------
  // Transform

  /** The outcome of a call that may raise: its value, or the text of the
      exception (`str(e)`). */
  datatype Call<T> = Returned(value: T) | Raised(message: string)

  /** One per-item result as the transform stage returns it. A success is
      the classifier's record with two keys added and no `status` key at
      all; a failure carries `status: "error"`. */
  datatype ItemResult =
    | Classified(record: Record, batchId: string, originalFilePath: string)
    | Failed(filename: string, errorMessage: string, batchId: string)
  {
    /** `result.get("status")` */
    function Status(): Option<string>
    {
      if Classified? then None else Some("error")
    }
  }

  /** `f"/tmp/airflow_temp_{task_id}"` */
  function TempFolder(taskId: string): string
  {
    "/tmp/airflow_temp_" + taskId
  }

  /** The part of `transform_classify_image` inside its `try`, once the
      inner classification has returned or raised: the first record of a
      successful result, tagged with the batch and the original path; an
      error record otherwise. Every result carries the item's batch id. */
  function ShapeResult(item: WorkItem, call: Call<TaskResult>): (r: ItemResult)
    ensures r.batchId == item.batchId
    ensures r.Classified? <==> call.Returned? && call.value.TaskSuccess? && call.value.results != []
    ensures r.Classified? ==> r.record == call.value.results[0] && r.originalFilePath == item.filePath
    ensures r.Failed? ==> r.filename == item.filename && r.Status() == Some("error")
    ensures r.Failed? && call.Raised? ==> r.errorMessage == call.message
    ensures r.Failed? && call.Returned? ==> r.errorMessage == "Classification failed"
  {
    match call
    case Raised(e) => Failed(item.filename, e, item.batchId)
    case Returned(result) =>
      if result.Status() == "success" && result.results != [] then
        Classified(result.results[0], item.batchId, item.filePath)
      else
        Failed(item.filename, "Classification failed", item.batchId)
  }

  /** `path` is `root` itself or lies below it. */
  predicate Within(root: string, path: string)
  {
    path == root || (|root| + 1 <= |path| && path[..|root| + 1] == root + "/")
  }

  /** A relative name staged into the temporary folder of a task id without
      a separator lies inside that folder, so removing the folder removes it. */
  lemma StagedWithinTemp(taskId: string, name: string)
    requires '/' !in taskId
    requires !(|name| > 0 && name[0] == '/')
    ensures Within(TempFolder(taskId), Join(TempFolder(taskId), name))
  {
    var temp := TempFolder(taskId);
    assert temp[|temp| - 1] != '/' by {
      if taskId != [] {
        assert temp[|temp| - 1] == taskId[|taskId| - 1];
      }
    }
    assert Join(temp, name) == temp + "/" + name;
    assert (temp + "/" + name)[..|temp| + 1] == temp + "/";
  }

  /** The part of the local filesystem the transform stage touches: the
      directories that exist and, for each staged file, the source path it
      was copied from. */
  class Scratch {
    var dirs: set<string>
    var files: map<string, string>

    constructor (dirs: set<string>, files: map<string, string>)
      ensures this.dirs == dirs && this.files == files
    {
      this.dirs := dirs;
      this.files := files;
    }

    /** `os.makedirs(path, exist_ok=True)`; the parent directories are taken
        to exist. */
    method MakeDirs(path: string)
      modifies this
      ensures dirs == old(dirs) + {path}
      ensures files == old(files)
    {
      dirs := dirs + {path};
    }

    /** `shutil.copy2(src, dst)`. Whether it raises is decided by the
        environment and passed in as `failure`. */
    method Copy(src: string, dst: string, failure: Option<string>) returns (raised: Option<string>)
      modifies this
      ensures raised == failure
      ensures dirs == old(dirs)
      ensures files == if failure.None? then old(files)[dst := src] else old(files)
    {
      raised := failure;
      if failure.None? {
        files := files[dst := src];
      }
    }

    /** `shutil.rmtree(path, ignore_errors=True)`: the folder and
        everything below it are gone, everything else stays; it never
        raises. */
    method RemoveTree(path: string)
      modifies this
      ensures dirs == set d | d in old(dirs) && !Within(path, d)
      ensures files == map f | f in old(files) && !Within(path, f) :: old(files)[f]
    {
      dirs := set d | d in dirs && !Within(path, d);
      files := map f | f in files && !Within(path, f) :: files[f];
    }
  }

  /** `transform_classify_image`: make the temporary folder, stage the image
      into it, then, inside the `try`, run the classifier on that folder and
      remove the folder on both the normal and the exception path before
      shaping the result. A failing copy happens before the `try`: it
      escapes as a raised error and leaves the folder behind. */
  method TransformClassifyImage(
    item: WorkItem,
    taskId: string,
    scratch: Scratch,
    copyFailure: Option<string>,
    classify: string -> Call<TaskResult>)
    returns (out: Call<ItemResult>)
    modifies scratch
    ensures copyFailure.Some? ==>
      && out == Raised(copyFailure.value)
      && scratch.dirs == old(scratch.dirs) + {TempFolder(taskId)}
      && scratch.files == old(scratch.files)
    ensures copyFailure.None? ==>
      var temp := TempFolder(taskId);
      var staged := old(scratch.files)[Join(temp, item.filename) := item.filePath];
      && out == Returned(ShapeResult(item, classify(temp)))
      && scratch.dirs == (set d | d in old(scratch.dirs) + {temp} && !Within(temp, d))
      && scratch.files == (map f | f in staged && !Within(temp, f) :: staged[f])
      && temp !in scratch.dirs
    ensures copyFailure.None? && '/' !in taskId && !(|item.filename| > 0 && item.filename[0] == '/') ==>
      Join(TempFolder(taskId), item.filename) !in scratch.files
  {
    var tempFolder := TempFolder(taskId);
    if '/' !in taskId && !(|item.filename| > 0 && item.filename[0] == '/') {
      StagedWithinTemp(taskId, item.filename);
    }
    scratch.MakeDirs(tempFolder);
    var tempImagePath := Join(tempFolder, item.filename);
    var copyError := scratch.Copy(item.filePath, tempImagePath, copyFailure);
    if copyError.Some? {
      return Raised(copyError.value);
    }
    var result := classify(tempFolder);
    match result {
      case Raised(e) =>
        scratch.RemoveTree(tempFolder);
        out := Returned(Failed(item.filename, e, item.batchId));
      case Returned(r) =>
        scratch.RemoveTree(tempFolder);
        if r.Status() == "success" && r.results != [] {
          var imageResult := r.results[0];
          out := Returned(Classified(imageResult, item.batchId, item.filePath));
        } else {
          out := Returned(Failed(item.filename, "Classification failed", item.batchId));
        }
    }
  }

  // ---------------------------------------------------------------------
  // Load

  /** What one pull of a mapped result gives: it raised, it gave nothing
      (a falsy value), or it gave a result. */
  datatype Pull = PullRaised(message: string) | PullNone | Pulled(result: ItemResult)

  /** The results the collection loop keeps, for map indices below `n`. */
  function Collected(pull: nat -> Pull, n: nat): seq<ItemResult>
  {
    if n == 0 then []
    else
      var init := Collected(pull, n - 1);
      match pull(n - 1)
      case Pulled(r) => init + [r]
      case _ => init
  }

  /** The collection loop of `load_aggregate_results`: pulls that raise or
      give nothing are skipped. */
  method CollectResults(pull: nat -> Pull, expected: nat) returns (mappedResults: seq<ItemResult>)
    ensures mappedResults == Collected(pull, expected)
  {
    mappedResults := [];
    for mapIndex := 0 to expected
      invariant mappedResults == Collected(pull, mapIndex)
    {
      var result := pull(mapIndex);
      if result.Pulled? {
        mappedResults := mappedResults + [result.result];
      }
    }
  }

  predicate IsSuccess(r: ItemResult) { r.Status() != Some("error") }
  predicate IsError(r: ItemResult) { r.Status() == Some("error") }

  /** `[r for r in mapped_results if r.get("status") != "error"]` */
  function Successes(mapped: seq<ItemResult>): seq<ItemResult> { Filter(IsSuccess, mapped) }

  /** `[r for r in mapped_results if r.get("status") == "error"]` */
  function Failures(mapped: seq<ItemResult>): seq<ItemResult> { Filter(IsError, mapped) }

  /** The `resolution_category` column of a result, when it has one. */
  function SuccessCategory(r: ItemResult): Option<Category>
  {
    match r
    case Classified(rec, _, _) => Some(rec.resolutionCategory)
    case Failed(_, _, _) => None
  }

  /** The integer part of the aggregated statistics; the float averages and
      totals are not modelled. */
  datatype LoadStatistics = LoadStatistics(
    totalImagesProcessed: nat,
    successfulClassifications: nat,
    failedClassifications: nat,
    resolutionDistribution: map<Category, nat>)

  /** The statistics of `load_aggregate_results`: the counts of the two
      parts of the split, and the category distribution of the successes,
      empty when there are none. */
  function AggregateStatistics(mapped: seq<ItemResult>): (st: LoadStatistics)
    ensures st.totalImagesProcessed == |mapped| == st.successfulClassifications + st.failedClassifications
    ensures st.successfulClassifications == |Successes(mapped)|
    ensures st.failedClassifications == |Failures(mapped)|
    ensures st.successfulClassifications == 0 ==> st.resolutionDistribution == map[]
    ensures DistributionTotal(st.resolutionDistribution) == st.successfulClassifications
    ensures forall c :: c in st.resolutionDistribution <==>
      exists r :: r in mapped && r.Classified? && r.record.resolutionCategory == c
    ensures forall c :: CountOf(st.resolutionDistribution, c) == multiset(FilterMap(Successes(mapped), SuccessCategory))[c]
  {
    var successful, failed := Successes(mapped), Failures(mapped);
    PartitionSpec(mapped);
    if successful != [] then
      var cats := FilterMap(successful, SuccessCategory);
      FilterMapTotal(successful, SuccessCategory);
      DistributionSum(cats);
      assert forall c :: c in cats <==> exists r :: r in mapped && r.Classified? && r.record.resolutionCategory == c by {
        forall c ensures c in cats <==> exists r :: r in mapped && r.Classified? && r.record.resolutionCategory == c {
          if r :| r in mapped && r.Classified? && r.record.resolutionCategory == c {
            assert r in successful && SuccessCategory(r) == Some(c);
          }
        }
      }
      LoadStatistics(|mapped|, |successful|, |failed|, Distribution(cats))
    else
      assert forall r :: r in mapped ==> !r.Classified? by {
        forall r | r in mapped ensures !r.Classified? {
          assert r.Classified? ==> r in successful;
        }
      }
      LoadStatistics(|mapped|, 0, |failed|, map[])
  }

  /** The JSON document `load_aggregate_results` writes, without its
      timestamp. Its batch id and statistics are also what the stage
      returns. */
  datatype BatchSummary = BatchSummary(
    batchId: string,
    statistics: LoadStatistics,
    successfulResults: seq<ItemResult>,
    failedResults: seq<ItemResult>)

  /** Collect the results for map indices below `expected`, split them by
      status and compute the statistics. */
  method Summarise(expected: nat, runId: string, pull: nat -> Pull) returns (summary: BatchSummary)
    ensures var mapped := Collected(pull, expected);
      && summary.batchId == runId
      && summary.successfulResults == Successes(mapped)
      && summary.failedResults == Failures(mapped)
      && summary.statistics == AggregateStatistics(mapped)
  {
    var mappedResults := CollectResults(pull, expected);
    var successfulResults := Filter(IsSuccess, mappedResults);
    var failedResults := Filter(IsError, mappedResults);
    var stats := AggregateStatistics(mappedResults);
    summary := BatchSummary(runId, stats, successfulResults, failedResults);
  }

  /** `load_aggregate_results` as written: the number of map indices it
      pulls is the length of `image_list` in the run configuration, not the
      number of items extract dispatched. Writing the JSON and CSV files is
      not modelled. */
  method LoadAggregateResults(conf: RunConf, runId: string, pull: nat -> Pull) returns (summary: BatchSummary)
    ensures var mapped := Collected(pull, ExpectedResults(conf));
      && summary.batchId == runId
      && summary.successfulResults == Successes(mapped)
      && summary.failedResults == Failures(mapped)
      && summary.statistics == AggregateStatistics(mapped)
  {
    summary := Summarise(ExpectedResults(conf), runId, pull);
  }

  /** The load stage bounded by the items extract dispatched: when every
      dispatched item's result can be pulled, all of them are counted. */
  method LoadDispatchedResults(items: seq<WorkItem>, runId: string, pull: nat -> Pull) returns (summary: BatchSummary)
    ensures var mapped := Collected(pull, |items|);
      && summary.batchId == runId
      && summary.successfulResults == Successes(mapped)
      && summary.failedResults == Failures(mapped)
      && summary.statistics == AggregateStatistics(mapped)
    ensures (forall i :: 0 <= i < |items| ==> pull(i).Pulled?) ==>
      summary.statistics.totalImagesProcessed == |items|
  {
    summary := Summarise(|items|, runId, pull);
    if forall i :: 0 <= i < |items| ==> pull(i).Pulled? {
      AllPulledAllCollected(pull, |items|);
    }
  }

  // ---------------------------------------------------------------------
  // Lemmas

  /** At most one result per map index is collected, and a result is
      collected exactly when some index below the bound pulled it. */
  lemma {:induction false} CollectedSpec(pull: nat -> Pull, n: nat)
    ensures |Collected(pull, n)| <= n
    ensures forall r :: r in Collected(pull, n) <==> exists i :: 0 <= i < n && pull(i) == Pulled(r)
  {
    if n > 0 {
      CollectedSpec(pull, n - 1);
    }
  }

  /** The map indices below `n` whose pull gave a result. */
  function PulledBelow(pull: nat -> Pull, n: nat): set<nat>
  {
    set i: nat | i < n && pull(i).Pulled?
  }

  /** One result is collected per map index whose pull gave a result. */
  lemma {:induction false} CollectedCount(pull: nat -> Pull, n: nat)
    ensures |Collected(pull, n)| == |PulledBelow(pull, n)|
  {
    if n > 0 {
      CollectedCount(pull, n - 1);
      var before := PulledBelow(pull, n - 1);
      assert n - 1 !in before;
      if pull(n - 1).Pulled? {
        assert PulledBelow(pull, n) == before + {n - 1};
      } else {
        assert PulledBelow(pull, n) == before;
      }
    } else {
      assert PulledBelow(pull, 0) == {};
    }
  }

  /** When every index below `n` pulls a result, `n` results are
      collected. */
  lemma {:induction false} AllPulledAllCollected(pull: nat -> Pull, n: nat)
    requires forall i :: 0 <= i < n ==> pull(i).Pulled?
    ensures |Collected(pull, n)| == n
  {
    if n > 0 {
      AllPulledAllCollected(pull, n - 1);
    }
  }

  /** A run whose configuration has no `image_list` (a scheduled run has
      an empty configuration) aggregates nothing, however many results the
      transform stage produced. */
  lemma UnlistedRunAggregatesNothing(conf: RunConf, pull: nat -> Pull)
    requires conf.imageListLength.None?
    ensures Collected(pull, ExpectedResults(conf)) == []
    ensures AggregateStatistics(Collected(pull, ExpectedResults(conf))).totalImagesProcessed == 0
  {
  }

  /** Three dispatched items whose results are all available: as written
      the load stage reports none of them for an empty configuration; bounded
      by the dispatched items it reports all three. */
  lemma UnlistedRunExample(items: seq<WorkItem>, r: ItemResult)
    requires |items| == 3
    ensures var pull := (i: nat) => Pulled(r);
      && AggregateStatistics(Collected(pull, ExpectedResults(RunConf(None, None)))).totalImagesProcessed == 0
      && AggregateStatistics(Collected(pull, |items|)).totalImagesProcessed == 3
  {
    var pull := (i: nat) => Pulled(r);
    AllPulledAllCollected(pull, |items|);
  }

  /** Success means "the record has no `status` key or it is not
      "error"", which for transform results is exactly a classified image. */
  lemma SuccessIsClassified(r: ItemResult)
    ensures IsSuccess(r) <==> r.Classified?
    ensures IsError(r) <==> r.Failed?
  {
  }

  /** The split of the collected results loses and duplicates nothing: the
      two parts are disjoint, together they are the whole list, so the
      processed total is the sum of the two counts. */
  lemma PartitionSpec(mapped: seq<ItemResult>)
    ensures multiset(Successes(mapped)) + multiset(Failures(mapped)) == multiset(mapped)
    ensures |Successes(mapped)| + |Failures(mapped)| == |mapped|
    ensures forall r :: !(r in Successes(mapped) && r in Failures(mapped))
    ensures forall r :: r in Successes(mapped) ==> r.Classified?
    ensures forall r :: r in Failures(mapped) ==> r.Failed?
  {
    FilterPartition(IsSuccess, IsError, mapped);
  }

  /** Every result of one run carries the run id: work items get it from
      the run, and each shaped result copies it from its item. */
  lemma BatchIdPropagates(items: seq<WorkItem>, runId: string, calls: seq<Call<TaskResult>>)
    requires |calls| == |items|
    requires forall item :: item in items ==> item.batchId == runId
    ensures forall k :: 0 <= k < |items| ==> ShapeResult(items[k], calls[k]).batchId == runId
  {
    forall k | 0 <= k < |items| ensures ShapeResult(items[k], calls[k]).batchId == runId {
      assert items[k] in items;
    }
  }

  /** The aggregated statistics do not depend on the order in which the
      results arrive. */
  lemma AggregateOrderIndependent(a: seq<ItemResult>, b: seq<ItemResult>)
    requires multiset(a) == multiset(b)
    ensures AggregateStatistics(a) == AggregateStatistics(b)
  {
    assert |a| == |multiset(a)| == |b|;
    FilterPermutation(IsSuccess, a, b);
    FilterPermutation(IsError, a, b);
    assert |Successes(a)| == |multiset(Successes(a))| == |Successes(b)|;
    assert |Failures(a)| == |multiset(Failures(a))| == |Failures(b)|;
    FilterMapPermutation(Successes(a), Successes(b), SuccessCategory);
    DistributionPermutation(FilterMap(Successes(a), SuccessCategory), FilterMap(Successes(b), SuccessCategory));
  }

  /** Three images of 50,000, 900,000 and 5,000,000 pixels and one corrupt
      file: three successes, one failure, one image each in 240p, 720p
      and 4K. */
  lemma EndToEndExample(a: ItemResult, b: ItemResult, c: ItemResult, d: ItemResult)
    requires a.Classified? && b.Classified? && c.Classified? && d.Failed?
    requires a.record.resolutionCategory == ClassifyResolution(a.record.width, a.record.height)
    requires b.record.resolutionCategory == ClassifyResolution(b.record.width, b.record.height)
    requires c.record.resolutionCategory == ClassifyResolution(c.record.width, c.record.height)
    requires a.record.width * a.record.height == 50000
    requires b.record.width * b.record.height == 900000
    requires c.record.width * c.record.height == 5000000
    ensures var st := AggregateStatistics([a, b, c, d]);
      && st.totalImagesProcessed == 4
      && st.successfulClassifications == 3
      && st.failedClassifications == 1
      && st.resolutionDistribution == map[Res240p := 1, Res720p := 1, Res4K := 1]
  {
    ExampleSplit(a, b, c, d);
    ExampleCategories(a, b, c);
    ExampleDistribution();
    var cats := FilterMap(Successes([a, b, c, d]), SuccessCategory);
    assert cats == [Res240p, Res720p, Res4K];
    assert AggregateStatistics([a, b, c, d]) == LoadStatistics(4, 3, 1, Distribution(cats));
  }

  lemma ExampleSplit(a: ItemResult, b: ItemResult, c: ItemResult, d: ItemResult)
    requires a.Classified? && b.Classified? && c.Classified? && d.Failed?
    ensures Successes([a, b, c, d]) == [a, b, c] && Failures([a, b, c, d]) == [d]
  {
    var all := [a, b, c, d];
    assert all[..3] == [a, b, c] && [a, b, c][..2] == [a, b] && [a, b][..1] == [a] && [a][..0] == [];
    assert Filter(IsSuccess, [a]) == [a];
    assert Filter(IsSuccess, [a, b]) == [a, b];
    assert Filter(IsSuccess, [a, b, c]) == [a, b, c];
    assert Filter(IsError, [a]) == [];
    assert Filter(IsError, [a, b]) == [];
    assert Filter(IsError, [a, b, c]) == [];
  }

  lemma ExampleCategories(a: ItemResult, b: ItemResult, c: ItemResult)
    requires a.Classified? && b.Classified? && c.Classified?
    requires a.record.resolutionCategory == Res240p
    requires b.record.resolutionCategory == Res720p
    requires c.record.resolutionCategory == Res4K
    ensures FilterMap([a, b, c], SuccessCategory) == [Res240p, Res720p, Res4K]
  {
    assert [a, b, c][..2] == [a, b] && [a, b][..1] == [a] && [a][..0] == [];
    assert FilterMap([a], SuccessCategory) == [Res240p];
    assert FilterMap([a, b], SuccessCategory) == [Res240p, Res720p];
  }

  lemma ExampleDistribution()
    ensures Distribution([Res240p, Res720p, Res4K]) == map[Res240p := 1, Res720p := 1, Res4K := 1]
  {
    var cats := [Res240p, Res720p, Res4K];
    OccurrencesMultiset(cats, Res240p);
    OccurrencesMultiset(cats, Res720p);
    OccurrencesMultiset(cats, Res4K);
    assert multiset(cats) == multiset{Res240p, Res720p, Res4K};
  }
}
