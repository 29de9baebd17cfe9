/**
  components/FileUpload.tsx: choosing which of the selected files become the component's image
  files, and the placeholder icons shown before any image is chosen.
 */
module FileUpload {
  import opened Outcomes
  import opened Text
  import opened Sequences

  /** A browser `File`, reduced to what the selection reads. */
  datatype File = File(name: string, mime: string)

  /** `file.type.match(/image\/(png|jpg|jpeg)/gm)`: one of the three occurs anywhere in the MIME type. */
  predicate IsImageType(mime: string) {
    Contains(mime, "image/png") || Contains(mime, "image/jpg") || Contains(mime, "image/jpeg")
  }

  /** The match is not anchored: text around the image type does not matter. */
  lemma UnanchoredMatch(prefix: string, suffix: string)
    ensures IsImageType(prefix + "image/png" + suffix)
  {
    var s := prefix + "image/png" + suffix;
    assert s[|prefix|..|prefix| + 9] == "image/png";
    assert OccursAt(s, "image/png", |prefix|);
  }

  /** The filter's step when the first file is kept: membership, order and counts carry over from the rest. */
  lemma KeepFirst(files: seq<File>, rest: seq<File>)
    requires files != [] && IsImageType(files[0].mime) && IsSubsequence(rest, files[1..])
    requires forall f :: f in rest <==> f in files[1..] && IsImageType(f.mime)
    requires forall f :: multiset(rest)[f] == if IsImageType(f.mime) then multiset(files[1..])[f] else 0
    ensures forall f :: f in [files[0]] + rest <==> f in files && IsImageType(f.mime)
    ensures IsSubsequence([files[0]] + rest, files)
    ensures forall f :: multiset([files[0]] + rest)[f] == if IsImageType(f.mime) then multiset(files)[f] else 0
  {
    var r := [files[0]] + rest;
    assert files == [files[0]] + files[1..];
    assert r[0] == files[0] && r[1..] == rest;
  }

  /** The filter's step when the first file is dropped. */
  lemma DropFirst(files: seq<File>, rest: seq<File>)
    requires files != [] && !IsImageType(files[0].mime) && IsSubsequence(rest, files[1..])
    requires forall f :: f in rest <==> f in files[1..] && IsImageType(f.mime)
    requires forall f :: multiset(rest)[f] == if IsImageType(f.mime) then multiset(files[1..])[f] else 0
    ensures forall f :: f in rest <==> f in files && IsImageType(f.mime)
    ensures IsSubsequence(rest, files)
    ensures forall f :: multiset(rest)[f] == if IsImageType(f.mime) then multiset(files)[f] else 0
  {
    assert files == [files[0]] + files[1..];
  }

  /**
    `Array.from(files).filter(...)`: the image files in their order, each as many times as it was
    selected.
   */
  function ImageFiles(files: seq<File>): (r: seq<File>)
    ensures |r| <= |files|
    ensures forall f :: f in r <==> f in files && IsImageType(f.mime)
    ensures IsSubsequence(r, files)
    ensures forall f :: multiset(r)[f] == if IsImageType(f.mime) then multiset(files)[f] else 0
  {
    if files == [] then []
    else
      var rest := ImageFiles(files[1..]);
      if IsImageType(files[0].mime) then
        KeepFirst(files, rest);
        [files[0]] + rest
      else
        DropFirst(files, rest);
        rest
  }

  /** The end index `slice(0, end)` uses on a list of length `len`: a negative end counts from the back. */
  function SliceEnd(end: int, len: nat): (e: nat)
    ensures e <= len
    ensures 0 <= end ==> e == if end < len then end else len
    ensures end < 0 ==> e == if len + end < 0 then 0 else len + end
  {
    if end < 0 then (if len + end < 0 then 0 else len + end)
    else if end < len then end else len
  }

  /**
    The selection of `handleFileChange`: `None` when no file has an image type (the alert),
    otherwise the image files cut to `slice(0, maxUploads)`.
   */
  function SelectImages(files: seq<File>, maxUploads: int): (r: Option<seq<File>>)
    ensures r.None? <==> forall f :: f in files ==> !IsImageType(f.mime)
    ensures r.Some? ==> r.value == ImageFiles(files)[..SliceEnd(maxUploads, |ImageFiles(files)|)]
    ensures r.Some? && 0 <= maxUploads ==> |r.value| <= maxUploads
    ensures r.Some? && |ImageFiles(files)| <= maxUploads ==> r.value == ImageFiles(files)
    ensures r.Some? ==> forall f :: f in r.value ==> f in files && IsImageType(f.mime)
  {
    var images := ImageFiles(files);
    if |images| == 0 then
      assert forall f :: f in files ==> !IsImageType(f.mime) by {
        forall f | f in files ensures !IsImageType(f.mime) {
          assert f !in images;
        }
      }
      None
    else
      assert images[0] in files;
      Some(images[..SliceEnd(maxUploads, |images|)])
  }

  /**
    The kept files are the first image files, in the order they were selected: a prefix of the
    image files and a subsequence of the selection.
   */
  lemma SelectionKeepsOrder(files: seq<File>, maxUploads: int)
    requires SelectImages(files, maxUploads).Some?
    ensures SelectImages(files, maxUploads).value <= ImageFiles(files)
    ensures IsSubsequence(SelectImages(files, maxUploads).value, files)
  {
    var images := ImageFiles(files);
    PrefixOfSubsequence(images, files, SliceEnd(maxUploads, |images|));
  }

  /** The component's `imageFiles` state, written by `setImageFiles`. */
  class FileUploader {
    var imageFiles: seq<File>

    constructor ()
      ensures imageFiles == []
    {
      imageFiles := [];
    }

    /**
      `handleFileChange` for the input's `files` (`None` when the list is null): a null list does
      nothing; no image file raises the alert and keeps the current files; otherwise the selection
      replaces them. Returns whether the alert was raised.
     */
    method HandleFileChange(files: Option<seq<File>>, maxUploads: int) returns (alerted: bool)
      modifies this
      ensures files.None? ==> !alerted && imageFiles == old(imageFiles)
      ensures files.Some? ==> (alerted <==> SelectImages(files.value, maxUploads).None?)
      ensures files.Some? && alerted ==> imageFiles == old(imageFiles)
      ensures files.Some? && !alerted ==> imageFiles == SelectImages(files.value, maxUploads).value
    {
      if files.None? {
        return false;
      }
      var selected := SelectImages(files.value, maxUploads);
      if selected.None? {
        return true;
      }
      imageFiles := selected.value;
      alerted := false;
    }
  }

  const IconSize: nat := 200

  /** One `<BsImages>` placeholder. */
  datatype Icon = Icon(key: int, size: nat, darkMode: bool)

  /** `renderIcons()`: one placeholder per upload slot, keyed 0 to `maxUploads - 1`. */
  method RenderIcons(maxUploads: int, darkMode: bool) returns (icons: seq<Icon>)
    ensures |icons| == if maxUploads < 0 then 0 else maxUploads
    ensures forall k :: 0 <= k < |icons| ==> icons[k] == Icon(k, IconSize, darkMode)
  {
    icons := [];
    var i := 0;
    while i < maxUploads
      invariant 0 <= i && (maxUploads >= 0 ==> i <= maxUploads) && (maxUploads < 0 ==> i == 0)
      invariant |icons| == i
      invariant forall k :: 0 <= k < i ==> icons[k] == Icon(k, IconSize, darkMode)
    {
      icons := icons + [Icon(i, IconSize, darkMode)];
      i := i + 1;
    }
  }
}
