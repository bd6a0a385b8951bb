/** File-name handling shared by the classifier and the extract stage: the
    case-insensitive image-extension test and path joining. */
module FileNames {
  import opened Seqs

  /** The six accepted extensions, with their dot. Both core files use the
      same set. */
  const ImageExtensions: seq<string> := [".jpg", ".jpeg", ".png", ".bmp", ".tiff", ".webp"]

  /** `c.lower()` for ASCII letters; every other character is unchanged. */
  function LowerChar(c: char): (r: char)
    ensures 'A' <= c <= 'Z' ==> 'a' <= r <= 'z' && r as int - c as int == 32
    ensures !('A' <= c <= 'Z') ==> r == c
  {
    if 'A' <= c <= 'Z' then (c as int + 32) as char else c
  }

  /** `s.lower()`: character by character. */
  function Lower(s: string): (r: string)
    ensures |r| == |s|
    ensures forall i :: 0 <= i < |s| ==> r[i] == LowerChar(s[i])
  {
    seq(|s|, i requires 0 <= i < |s| => LowerChar(s[i]))
  }

  /** `s.endswith(suffix)` */
  predicate EndsWith(s: string, suffix: string)
  {
    |suffix| <= |s| && s[|s| - |suffix|..] == suffix
  }

  /** `any(name.lower().endswith(ext) for ext in image_extensions)` */
  predicate IsImageName(name: string)
  {
    exists ext :: ext in ImageExtensions && EndsWith(Lower(name), ext)
  }

  /** The names a listing loop keeps (tasks/classify.py:61-63). */
  function ImageFiles(names: seq<string>): (r: seq<string>)
    ensures forall n :: n in r <==> n in names && IsImageName(n)
    ensures IsSubsequence(r, names)
  {
    FilterIsSubsequence(IsImageName, names);
    Filter(IsImageName, names)
  }

  /** `os.path.join(folder, name)` for two components on POSIX: an absolute
      second component replaces the first, otherwise a separator is put in
      unless the first is empty or already ends with one. */
  function Join(folder: string, name: string): (r: string)
    ensures EndsWith(r, name)
    ensures |name| > 0 && name[0] == '/' ==> r == name
  {
    if |name| > 0 && name[0] == '/' then name
    else if folder == [] || folder[|folder| - 1] == '/' then folder + name
    else folder + "/" + name
  }

  // ---------------------------------------------------------------------
  // Lemmas

  /** For a relative name, the joined path starts with the folder, then one
      separator unless the folder is empty or already ends with one, then
      the name. */
  lemma JoinLayout(folder: string, name: string)
    requires !(|name| > 0 && name[0] == '/')
    ensures var r := Join(folder, name);
      && r[..|folder|] == folder
      && EndsWith(r, name)
      && ((folder == [] || folder[|folder| - 1] == '/') ==> |r| == |folder| + |name|)
      && (folder != [] && folder[|folder| - 1] != '/' ==> |r| == |folder| + 1 + |name| && r[|folder|] == '/')
  {
    var r := Join(folder, name);
    if folder == [] || folder[|folder| - 1] == '/' {
      assert r == folder + name;
    } else {
      assert r == folder + "/" + name;
    }
  }

  lemma {:induction false} LowerIdempotent(s: string)
    ensures Lower(Lower(s)) == Lower(s)
  {
    var l := Lower(s);
    assert forall i :: 0 <= i < |s| ==> Lower(l)[i] == LowerChar(LowerChar(s[i])) == l[i];
  }

  /** The extension test ignores case: a name and its lower-cased form are
      accepted or rejected together, so "PHOTO.JPG" passes like "photo.jpg". */
  lemma ImageNameCaseInsensitive(name: string)
    ensures IsImageName(Lower(name)) <==> IsImageName(name)
  {
    LowerIdempotent(name);
  }

  /** Upper-case and mixed-case extensions are accepted. */
  lemma ImageNameAccepts()
    ensures IsImageName("a.jpg") && IsImageName("B.JPEG") && IsImageName("scan.Tiff")
  {
    assert Lower("a.jpg") == "a.jpg" && EndsWith("a.jpg", ImageExtensions[0]);
    assert Lower("B.JPEG") == "b.jpeg" && EndsWith("b.jpeg", ImageExtensions[1]);
    assert Lower("scan.Tiff") == "scan.tiff" && EndsWith("scan.tiff", ImageExtensions[4]);
  }

  /** Other extensions, a bare "jpg" without its dot and ".tif" are refused. */
  lemma ImageNameRefuses()
    ensures !IsImageName("notes.txt") && !IsImageName("jpg") && !IsImageName("scan.tif")
  {
    assert Lower("notes.txt") == "notes.txt";
    NoImageExtension("notes.txt");
    assert Lower("jpg") == "jpg";
    NoImageExtension("jpg");
    assert Lower("scan.tif") == "scan.tif";
    NoImageExtension("scan.tif");
  }

  lemma NoImageExtension(name: string)
    requires name == Lower(name)
    requires |name| < 4 || name[|name| - 4..] !in [".jpg", ".png", ".bmp"]
    requires |name| < 5 || name[|name| - 5..] !in [".jpeg", ".tiff", ".webp"]
    ensures !IsImageName(name)
  {
    forall ext | ext in ImageExtensions ensures !EndsWith(Lower(name), ext) {
      assert |ext| == 4 || |ext| == 5;
    }
  }
}
