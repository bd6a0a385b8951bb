/** The resolution classifier of tasks/classify.py: the pixel-count tiers,
    the per-folder scan that turns decodable images into records, the
    statistics over those records and the task entry point that shapes the
    returned status. The filesystem and the image decoder are inputs. */
module Classify {
  import opened Seqs
  import opened FileNames

  // ---------------------------------------------------------------------
  // Resolution tiers

  datatype Category = Res240p | Res480p | Res720p | Res1080p | Res4K

  /** The category's name as the source spells it. */
  function Label(c: Category): (s: string)
    ensures s in ["240p", "480p", "720p", "1080p", "4K"]
    ensures s == "240p" <==> c == Res240p
    ensures s == "480p" <==> c == Res480p
    ensures s == "720p" <==> c == Res720p
    ensures s == "1080p" <==> c == Res1080p
    ensures s == "4K" <==> c == Res4K
  {
    match c
    case Res240p => "240p"
    case Res480p => "480p"
    case Res720p => "720p"
    case Res1080p => "1080p"
    case Res4K => "4K"
  }

  /** Position of a tier in ascending order. */
  function Rank(c: Category): nat
  {
    match c
    case Res240p => 0
    case Res480p => 1
    case Res720p => 2
    case Res1080p => 3
    case Res4K => 4
  }

  /** The pixel-count interval a tier covers: each is closed on its upper
      bound and open on its lower bound. */
  predicate InTier(c: Category, totalPixels: int)
  {
    match c
    case Res240p => totalPixels <= 76800
    case Res480p => 76800 < totalPixels <= 409920
    case Res720p => 409920 < totalPixels <= 921600
    case Res1080p => 921600 < totalPixels <= 2073600
    case Res4K => 2073600 < totalPixels
  }

  /** `ImageClassifier.classify_resolution`: the first threshold that the
      pixel count does not exceed. The result is the one tier whose interval
      holds `width * height`. */
  function ClassifyResolution(width: int, height: int): (c: Category)
    ensures InTier(c, width * height)
    ensures forall d :: InTier(d, width * height) ==> d == c
  {
    var totalPixels := width * height;
    if totalPixels <= 76800 then Res240p
    else if totalPixels <= 409920 then Res480p
    else if totalPixels <= 921600 then Res720p
    else if totalPixels <= 2073600 then Res1080p
    else Res4K
  }

  // ---------------------------------------------------------------------
  // The scanned folder

  /** What the scan reads from the outside world. `listing(folder)` is None
      when the folder does not exist and otherwise the `os.listdir` order;
      `size(path)` is `os.path.getsize`; `decode(path)` is the size PIL
      reports, None when opening the image raises. */
  datatype FileSystem = FileSystem(
    listing: string -> Option<seq<string>>,
    size: string -> nat,
    decode: string -> Option<(int, int)>)

  /** One classified image. The float columns (aspect ratio, size in MB)
      and the processing timestamp are not modelled. */
  datatype Record = Record(
    filename: string,
    width: int,
    height: int,
    resolutionCategory: Category,
    totalPixels: int,
    fileSizeBytes: nat)

  /** `ImageClassifier.get_image_resolution`: a failed decode reads as
      (0, 0), so a positive size can only come from a successful decode. */
  function GetImageResolution(fs: FileSystem, path: string): (d: (int, int))
    ensures fs.decode(path).Some? ==> d == fs.decode(path).value
    ensures fs.decode(path).None? ==> d == (0, 0)
    ensures d.0 > 0 || d.1 > 0 ==> fs.decode(path) == Some(d)
  {
    match fs.decode(path)
    case None => (0, 0)
    case Some(size) => size
  }

  /** The per-image test of the processing loop: both sides positive. */
  predicate Decodes(fs: FileSystem, folder: string, name: string)
  {
    var d := GetImageResolution(fs, Join(folder, name));
    d.0 > 0 && d.1 > 0
  }

  /** `Decodes` as a test on names alone, for filtering a listing. */
  function DecodesIn(fs: FileSystem, folder: string): string -> bool
  {
    name => Decodes(fs, folder, name)
  }

  /** The record the loop builds for a kept image. */
  function MakeRecord(fs: FileSystem, folder: string, name: string): Record
  {
    var path := Join(folder, name);
    var d := GetImageResolution(fs, path);
    Record(name, d.0, d.1, ClassifyResolution(d.0, d.1), d.0 * d.1, fs.size(path))
  }

  /** A record describes the decoded image it names. */
  predicate Describes(fs: FileSystem, folder: string, r: Record)
  {
    var path := Join(folder, r.filename);
    && r.width > 0 && r.height > 0
    && fs.decode(path) == Some((r.width, r.height))
    && r.totalPixels == r.width * r.height
    && r.resolutionCategory == ClassifyResolution(r.width, r.height)
    && r.fileSizeBytes == fs.size(path)
  }

  function FilenameOf(r: Record): string { r.filename }

  /** The second loop of `process_images` over the filtered names: one
      record per decodable name, in order. */
  function BuildRecords(fs: FileSystem, folder: string, files: seq<string>): seq<Record>
  {
    if files == [] then []
    else
      var init := BuildRecords(fs, folder, files[..|files| - 1]);
      var name := files[|files| - 1];
      if Decodes(fs, folder, name) then init + [MakeRecord(fs, folder, name)] else init
  }

  /** What `process_images` returns for a folder. */
  function ProcessedRecords(fs: FileSystem, folder: string): seq<Record>
  {
    match fs.listing(folder)
    case None => []
    case Some(names) => BuildRecords(fs, folder, ImageFiles(names))
  }

  /** `ImageClassifier.process_images`: a missing folder gives no records;
      otherwise the listing is filtered by extension into `imageFiles`, and
      each of those that decodes to a positive size gives a record. */
  method ProcessImages(fs: FileSystem, inputFolder: string) returns (results: seq<Record>)
    ensures results == ProcessedRecords(fs, inputFolder)
  {
    results := [];
    if fs.listing(inputFolder).None? {
      return;
    }
    var names := fs.listing(inputFolder).value;
    var imageFiles: seq<string> := [];
    for i := 0 to |names|
      invariant imageFiles == ImageFiles(names[..i])
    {
      assert names[..i + 1][..i] == names[..i];
      if IsImageName(names[i]) {
        imageFiles := imageFiles + [names[i]];
      }
    }
    assert names[..|names|] == names;
    for i := 0 to |imageFiles|
      invariant results == BuildRecords(fs, inputFolder, imageFiles[..i])
    {
      assert imageFiles[..i + 1][..i] == imageFiles[..i];
      var imagePath := Join(inputFolder, imageFiles[i]);
      var (width, height) := GetImageResolution(fs, imagePath);
      if width > 0 && height > 0 {
        var category := ClassifyResolution(width, height);
        var fileSize := fs.size(imagePath);
        results := results + [Record(imageFiles[i], width, height, category, width * height, fileSize)];
      }
    }
    assert imageFiles[..|imageFiles|] == imageFiles;
  }

  // ---------------------------------------------------------------------
  // Statistics

  /** `value_counts().to_dict()` over a column of categories. */
  function Distribution(cats: seq<Category>): map<Category, nat>
  {
    map c | c in cats :: Occurrences(cats, c)
  }

  function CountOf(d: map<Category, nat>, c: Category): nat
  {
    if c in d then d[c] else 0
  }

  /** The sum of all counts of a distribution. */
  function DistributionTotal(d: map<Category, nat>): nat
  {
    CountOf(d, Res240p) + CountOf(d, Res480p) + CountOf(d, Res720p) +
    CountOf(d, Res1080p) + CountOf(d, Res4K)
  }

  /** `int(x)` of the float `a / n`: division truncated toward zero. */
  function TruncDiv(a: int, n: int): (q: int)
    requires n > 0
    ensures a >= 0 ==> q * n <= a < q * n + n
    ensures a < 0 ==> q * n - n < a <= q * n
  {
    if a >= 0 then a / n else -((-a) / n)
  }

  /** The truncated mean of a non-empty column. */
  function TruncatedMean(s: seq<int>): int
    requires |s| > 0
  {
    TruncDiv(Sum(s), |s|)
  }

  datatype Dims = Dims(width: int, height: int)

  datatype ResolutionSummary = ResolutionSummary(
    minResolution: Dims,
    maxResolution: Dims,
    avgResolution: Dims)

  /** The integer part of `generate_statistics`; the float averages and
      totals are not modelled. */
  datatype Statistics = Statistics(
    totalImages: nat,
    resolutionDistribution: map<Category, nat>,
    resolutionSummary: ResolutionSummary)

  function WidthOf(r: Record): int { r.width }
  function HeightOf(r: Record): int { r.height }
  function CategoryOf(r: Record): Category { r.resolutionCategory }

  predicate IsLeast(s: seq<int>, m: int) { m in s && forall x :: x in s ==> m <= x }
  predicate IsGreatest(s: seq<int>, m: int) { m in s && forall x :: x in s ==> x <= m }

  /** `ImageClassifier.generate_statistics`: nothing for no records;
      otherwise the count, the category distribution, and the column-wise
      minimum, maximum and truncated mean of widths and of heights. */
  function GenerateStatistics(records: seq<Record>): (r: Option<Statistics>)
    ensures r.None? <==> records == []
    ensures r.Some? ==>
      var st := r.value;
      var widths, heights := Project(records, WidthOf), Project(records, HeightOf);
      var sum := st.resolutionSummary;
      && st.totalImages == |records|
      && DistributionTotal(st.resolutionDistribution) == |records|
      && (forall c :: c in st.resolutionDistribution <==> exists rec :: rec in records && rec.resolutionCategory == c)
      && (forall c :: CountOf(st.resolutionDistribution, c) == multiset(Project(records, CategoryOf))[c])
      && IsLeast(widths, sum.minResolution.width) && IsLeast(heights, sum.minResolution.height)
      && IsGreatest(widths, sum.maxResolution.width) && IsGreatest(heights, sum.maxResolution.height)
      && sum.minResolution.width <= sum.avgResolution.width <= sum.maxResolution.width
      && sum.minResolution.height <= sum.avgResolution.height <= sum.maxResolution.height
      && sum.avgResolution == Dims(TruncDiv(Sum(widths), |records|), TruncDiv(Sum(heights), |records|))
  {
    if records == [] then None
    else
      var widths, heights := Project(records, WidthOf), Project(records, HeightOf);
      var cats := Project(records, CategoryOf);
      CategoryDistribution(records);
      MeanWithinColumn(widths);
      MeanWithinColumn(heights);
      Some(Statistics(
        |records|,
        Distribution(cats),
        ResolutionSummary(
          Dims(MinOf(widths), MinOf(heights)),
          Dims(MaxOf(widths), MaxOf(heights)),
          Dims(TruncatedMean(widths), TruncatedMean(heights)))))
  }

  // ---------------------------------------------------------------------
  // The task entry point

  /** The dictionary `classify_images_task` returns. */
  datatype TaskResult =
    | TaskError(message: string)
    | TaskSuccess(totalImages: nat, statistics: Statistics, results: seq<Record>)
  {
    function Status(): string
    {
      if TaskError? then "error" else "success"
    }
  }

  /** `classify_images_task`: an error status exactly when no record was
      produced (missing folder, no image names, or nothing decodable);
      otherwise the records, their count and their statistics. Writing the
      optional CSV file is not modelled. */
  method ClassifyImagesTask(fs: FileSystem, inputFolder: string) returns (t: TaskResult)
    ensures t.TaskError? <==> ProcessedRecords(fs, inputFolder) == []
    ensures t.TaskError? ==> t.message == "No images processed"
    ensures t.TaskSuccess? ==>
      && t.results == ProcessedRecords(fs, inputFolder)
      && t.totalImages == |t.results| > 0
      && GenerateStatistics(t.results) == Some(t.statistics)
  {
    var results := ProcessImages(fs, inputFolder);
    if results == [] {
      return TaskError("No images processed");
    }
    var stats := GenerateStatistics(results);
    t := TaskSuccess(|results|, stats.value, results);
  }

  // ---------------------------------------------------------------------
  // Lemmas

  /** Different tiers have different names, so a distribution keyed by
      name and one keyed by tier hold the same counts. */
  lemma LabelInjective(c: Category, d: Category)
    requires Label(c) == Label(d)
    ensures c == d
  {
  }

  /** The tier intervals do not overlap, so a pixel count has one tier. */
  lemma TiersDisjoint(c: Category, d: Category, totalPixels: int)
    requires InTier(c, totalPixels) && InTier(d, totalPixels)
    ensures c == d
  {
  }

  /** The category is a function of `width * height` alone: a very wide,
      thin image is classified by its pixel count, whatever its shape. */
  lemma ClassifyByPixelCount(w1: int, h1: int, w2: int, h2: int)
    requires w1 * h1 == w2 * h2
    ensures ClassifyResolution(w1, h1) == ClassifyResolution(w2, h2)
  {
  }

  /** More pixels never give a lower tier. */
  lemma ClassifyMonotone(w1: int, h1: int, w2: int, h2: int)
    requires w1 * h1 <= w2 * h2
    ensures Rank(ClassifyResolution(w1, h1)) <= Rank(ClassifyResolution(w2, h2))
  {
  }

  /** Every tier boundary, on both sides, and the 500x1 case. */
  lemma ClassifyBoundaries()
    ensures ClassifyResolution(320, 240) == Res240p && ClassifyResolution(76801, 1) == Res480p
    ensures ClassifyResolution(854, 480) == Res480p && ClassifyResolution(409921, 1) == Res720p
    ensures ClassifyResolution(1280, 720) == Res720p && ClassifyResolution(921601, 1) == Res1080p
    ensures ClassifyResolution(1920, 1080) == Res1080p && ClassifyResolution(2073601, 1) == Res4K
    ensures ClassifyResolution(500, 1) == Res240p
  {
  }

  /** The records built from a list of names are, name for name, those
      that decode, and each describes its image. */
  lemma {:induction false} BuildRecordsSpec(fs: FileSystem, folder: string, files: seq<string>)
    ensures var rs := BuildRecords(fs, folder, files);
      && Project(rs, FilenameOf) == Filter(DecodesIn(fs, folder), files)
      && (forall r :: r in rs ==> Describes(fs, folder, r))
    decreases |files|
  {
    if files != [] {
      var init := files[..|files| - 1];
      var name := files[|files| - 1];
      BuildRecordsSpec(fs, folder, init);
      if Decodes(fs, folder, name) {
        ProjectConcat(BuildRecords(fs, folder, init), [MakeRecord(fs, folder, name)], FilenameOf);
      }
    }
  }

  /** The test `process_images` applies to each listed name. */
  function Admitted(fs: FileSystem, folder: string): string -> bool
  {
    name => IsImageName(name) && Decodes(fs, folder, name)
  }

  /** What `process_images` keeps: exactly the listed names that pass the
      extension test and decode to a positive size, once each and in listing
      order, each record describing its image. */
  lemma ProcessedRecordsSpec(fs: FileSystem, folder: string, names: seq<string>)
    requires fs.listing(folder) == Some(names)
    ensures var rs := ProcessedRecords(fs, folder);
      && Project(rs, FilenameOf) == Filter(Admitted(fs, folder), names)
      && IsSubsequence(Project(rs, FilenameOf), names)
      && |rs| <= |names|
      && (forall n :: n in Project(rs, FilenameOf) <==> n in names && IsImageName(n) && Decodes(fs, folder, n))
      && (forall r :: r in rs ==> Describes(fs, folder, r))
  {
    BuildRecordsSpec(fs, folder, ImageFiles(names));
    FilterFilter(IsImageName, DecodesIn(fs, folder), Admitted(fs, folder), names);
    FilterIsSubsequence(Admitted(fs, folder), names);
    SubsequenceLength(Filter(Admitted(fs, folder), names), names);
  }

  /** A missing input folder yields no records. */
  lemma MissingFolderIsEmpty(fs: FileSystem, folder: string)
    requires fs.listing(folder).None?
    ensures ProcessedRecords(fs, folder) == []
  {
  }

  /** Counting tier by tier accounts for every element. */
  lemma {:induction false} OccurrencesPerTier(cats: seq<Category>)
    ensures Occurrences(cats, Res240p) + Occurrences(cats, Res480p) + Occurrences(cats, Res720p) +
            Occurrences(cats, Res1080p) + Occurrences(cats, Res4K) == |cats|
    decreases |cats|
  {
    if cats != [] {
      var init, last := cats[..|cats| - 1], cats[|cats| - 1];
      OccurrencesPerTier(init);
      assert Occurrences(cats, last) == Occurrences(init, last) + 1;
      assert forall c :: c != last ==> Occurrences(cats, c) == Occurrences(init, c);
    }
  }

  /** The counts of a distribution add up to the number of records, and the
      distribution has a key exactly for each category that occurs. */
  lemma DistributionSum(cats: seq<Category>)
    ensures DistributionTotal(Distribution(cats)) == |cats|
    ensures forall c :: c in Distribution(cats) <==> c in cats
    ensures forall c :: CountOf(Distribution(cats), c) == multiset(cats)[c]
  {
    var d := Distribution(cats);
    forall c ensures CountOf(d, c) == Occurrences(cats, c) == multiset(cats)[c] {
      OccurrencesMultiset(cats, c);
    }
    OccurrencesPerTier(cats);
  }

  /** The distribution of the category column of a list of records: a key
      for each category some record has, counting its records. */
  lemma CategoryDistribution(records: seq<Record>)
    ensures var d := Distribution(Project(records, CategoryOf));
      && DistributionTotal(d) == |records|
      && (forall c :: c in d <==> exists rec :: rec in records && rec.resolutionCategory == c)
      && (forall c :: CountOf(d, c) == multiset(Project(records, CategoryOf))[c])
  {
    DistributionSum(Project(records, CategoryOf));
    CategoryColumn(records);
  }

  /** A category occurs in the category column exactly when some record
      has it. */
  lemma CategoryColumn(records: seq<Record>)
    ensures forall c :: c in Project(records, CategoryOf) <==> exists rec :: rec in records && rec.resolutionCategory == c
  {
    var cats := Project(records, CategoryOf);
    forall c ensures c in cats <==> exists rec :: rec in records && rec.resolutionCategory == c {
      if c in cats {
        var k :| 0 <= k < |cats| && cats[k] == c;
        assert records[k] in records;
      }
      if rec :| rec in records && rec.resolutionCategory == c {
        var k :| 0 <= k < |records| && records[k] == rec;
        assert cats[k] == c;
      }
    }
  }

  /** Reordering the categories does not change the distribution. */
  lemma DistributionPermutation(a: seq<Category>, b: seq<Category>)
    requires multiset(a) == multiset(b)
    ensures Distribution(a) == Distribution(b)
  {
    forall c ensures Occurrences(a, c) == Occurrences(b, c) && (c in a <==> c in b) {
      OccurrencesMultiset(a, c);
      OccurrencesMultiset(b, c);
      assert c in a <==> c in multiset(a);
      assert c in b <==> c in multiset(b);
    }
  }

  /** A column's sum lies between its length times its minimum and its
      length times its maximum. */
  lemma {:induction false} SumBounds(s: seq<int>, lo: int, hi: int)
    requires forall x :: x in s ==> lo <= x <= hi
    ensures |s| * lo <= Sum(s) <= |s| * hi
    decreases |s|
  {
    if s != [] {
      var init, last := s[..|s| - 1], s[|s| - 1];
      assert forall x :: x in init ==> x in s;
      SumBounds(init, lo, hi);
      assert last in s;
      assert Sum(s) == Sum(init) + last;
      assert |s| * lo == |init| * lo + lo && |s| * hi == |init| * hi + hi;
    }
  }

  /** The truncated mean lies between the minimum and the maximum of the
      column. */
  lemma MeanWithinColumn(s: seq<int>)
    requires |s| > 0
    ensures MinOf(s) <= TruncatedMean(s) <= MaxOf(s)
  {
    SumBounds(s, MinOf(s), MaxOf(s));
    TruncDivBetween(Sum(s), |s|, MinOf(s), MaxOf(s));
  }

  /** Truncated division of a value between `n * lo` and `n * hi` by `n`
      lies between `lo` and `hi`. */
  lemma TruncDivBetween(a: int, n: int, lo: int, hi: int)
    requires n > 0 && n * lo <= a <= n * hi
    ensures lo <= TruncDiv(a, n) <= hi
  {
    var q := TruncDiv(a, n);
    if q < lo {
      MulMonotone(q + 1, lo, n);
    }
    if q > hi {
      MulMonotone(hi + 1, q, n);
    }
  }

  lemma MulMonotone(x: int, y: int, n: int)
    requires x <= y && n > 0
    ensures x * n <= y * n
  {
  }

  /** `generate_statistics` depends only on the multiset of records, not on
      the order the folder listed them in. */
  lemma StatisticsOrderIndependent(a: seq<Record>, b: seq<Record>)
    requires multiset(a) == multiset(b)
    ensures GenerateStatistics(a) == GenerateStatistics(b)
  {
    assert |a| == |multiset(a)| == |b|;
    if a != [] {
      ProjectPermutation(a, b, WidthOf);
      ProjectPermutation(a, b, HeightOf);
      ProjectPermutation(a, b, CategoryOf);
      MinMaxPermutation(Project(a, WidthOf), Project(b, WidthOf));
      MinMaxPermutation(Project(a, HeightOf), Project(b, HeightOf));
      SumPermutation(Project(a, WidthOf), Project(b, WidthOf));
      SumPermutation(Project(a, HeightOf), Project(b, HeightOf));
      DistributionPermutation(Project(a, CategoryOf), Project(b, CategoryOf));
    }
  }
}
