/** How the upload handlers sort a batch of picked files: images (a MIME
    type starting with "image/") go one way, everything else is a dataset. */
module FileKinds {
  import opened Common
  import opened Text

  predicate IsImage(f: File)
  {
    StartsWith(f.mimeType, "image/")
  }

  /** `files.filter(file => file.type.startsWith("image/"))`. */
  function Images(files: seq<File>): (r: seq<File>)
    ensures |r| <= |files|
    ensures forall i :: 0 <= i < |r| ==> IsImage(r[i])
  {
    if |files| == 0 then []
    else (if IsImage(files[0]) then [files[0]] else []) + Images(files[1..])
  }

  /** `files.filter(file => !file.type.startsWith("image/"))`. */
  function Datasets(files: seq<File>): (r: seq<File>)
    ensures |r| <= |files|
    ensures forall i :: 0 <= i < |r| ==> !IsImage(r[i])
  {
    if |files| == 0 then []
    else (if IsImage(files[0]) then [] else [files[0]]) + Datasets(files[1..])
  }

  /** Filtering a concatenation filters each part, so each kind keeps the
      order it had in the batch. */
  lemma {:induction false} FilterAppend(a: seq<File>, b: seq<File>)
    ensures Images(a + b) == Images(a) + Images(b)
    ensures Datasets(a + b) == Datasets(a) + Datasets(b)
  {
    if |a| > 0 {
      assert (a + b)[1..] == a[1..] + b;
      FilterAppend(a[1..], b);
    } else {
      assert a + b == b;
    }
  }

  /** The two kinds together are exactly the batch: every file lands in one
      of them, and nothing else does. */
  lemma {:induction false} PartitionComplete(files: seq<File>)
    ensures multiset(Images(files)) + multiset(Datasets(files)) == multiset(files)
    ensures |Images(files)| + |Datasets(files)| == |files|
  {
    if |files| > 0 {
      PartitionComplete(files[1..]);
      assert files == [files[0]] + files[1..];
    }
  }

  /** A batch with no image yields itself as the dataset list. */
  lemma {:induction false} NoImagesKeepsBatch(files: seq<File>)
    requires forall i :: 0 <= i < |files| ==> !IsImage(files[i])
    ensures Datasets(files) == files
    ensures Images(files) == []
  {
    if |files| > 0 {
      NoImagesKeepsBatch(files[1..]);
      assert files == [files[0]] + files[1..];
    }
  }
}
