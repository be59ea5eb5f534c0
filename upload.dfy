/** The file-upload widget of frontend/js/main.js (`initFileUpload`): the size filter of
    `handleFiles`, the icon chosen by `getFileIcon`, and the removable chips of the list. */
module Upload {
  import opened Text
  import opened Page

  /** The largest accepted file: 10 MiB. */
  const MaxFileSize: nat := 10 * 1024 * 1024

  const TooLargeMessage := "File too large. Maximum size is 10MB"

  /** A selected file: its name, its MIME `type` and its size in bytes. */
  datatype File = File(name: string, mimeType: string, size: nat)

  /** A `.file-item` chip in the file list: icon class, file name and size. */
  datatype FileItem = FileItem(icon: string, name: string, size: nat)

  /** `getFileIcon(mimeType)`: the first matching rule wins. */
  function FileIcon(mimeType: string): string
  {
    if StartsWith(mimeType, "image/") then "fa-file-image"
    else if mimeType == "application/pdf" then "fa-file-pdf"
    else if StartsWith(mimeType, "video/") then "fa-file-video"
    else if StartsWith(mimeType, "audio/") then "fa-file-audio"
    else "fa-file"
  }

  /** The prefixes are mutually exclusive and `application/pdf` has none of them, so each
      icon is given for exactly one kind of MIME type. */
  lemma FileIconIff(mimeType: string)
    ensures FileIcon(mimeType) == "fa-file-image" <==> StartsWith(mimeType, "image/")
    ensures FileIcon(mimeType) == "fa-file-pdf" <==> mimeType == "application/pdf"
    ensures FileIcon(mimeType) == "fa-file-video" <==> StartsWith(mimeType, "video/")
    ensures FileIcon(mimeType) == "fa-file-audio" <==> StartsWith(mimeType, "audio/")
    ensures FileIcon(mimeType) == "fa-file" <==>
      !StartsWith(mimeType, "image/") && mimeType != "application/pdf" &&
      !StartsWith(mimeType, "video/") && !StartsWith(mimeType, "audio/")
  {
    if StartsWith(mimeType, "image/") {
      assert mimeType[0] == 'i';
    } else if StartsWith(mimeType, "video/") {
      assert mimeType[0] == 'v';
    } else if StartsWith(mimeType, "audio/") {
      assert mimeType[0] == 'a' && mimeType[1] == 'u';
    }
  }

  function ItemOf(f: File): FileItem
  {
    FileItem(FileIcon(f.mimeType), f.name, f.size)
  }

  predicate Fits(f: File)
  {
    f.size <= MaxFileSize
  }

  /** The chips `handleFiles(files)` appends, in input order. */
  function Accepted(files: seq<File>): seq<FileItem>
  {
    if files == [] then []
    else Accepted(files[..|files| - 1]) +
         (if Fits(files[|files| - 1]) then [ItemOf(files[|files| - 1])] else [])
  }

  /** The notifications `handleFiles(files)` raises: one per file that is too large. */
  function Rejections(files: seq<File>): seq<UiEvent>
  {
    if files == [] then []
    else Rejections(files[..|files| - 1]) +
         (if Fits(files[|files| - 1]) then [] else [Toasted(TooLargeMessage, Error)])
  }

  /** Filtering distributes over concatenation, so it keeps the input order. */
  lemma {:induction false} AcceptedAppend(a: seq<File>, b: seq<File>)
    ensures Accepted(a + b) == Accepted(a) + Accepted(b)
    ensures Rejections(a + b) == Rejections(a) + Rejections(b)
  {
    if b == [] {
      assert a + b == a;
    } else {
      var init := b[..|b| - 1];
      assert (a + b)[..|a + b| - 1] == a + init;
      AcceptedAppend(a, init);
    }
  }

  /** One file: a chip when it fits, a single error notification when it does not. */
  lemma AcceptedSingle(f: File)
    ensures Accepted([f]) == (if Fits(f) then [ItemOf(f)] else [])
    ensures Rejections([f]) == (if Fits(f) then [] else [Toasted(TooLargeMessage, Error)])
  {
    assert [f][..0] == [];
  }

  /** Every file is either listed or reported, never both; every chip is of a file that fits. */
  lemma {:induction false} AcceptedPartition(files: seq<File>)
    ensures |Accepted(files)| + |Rejections(files)| == |files|
    ensures forall item :: item in Accepted(files) ==> item.size <= MaxFileSize
    ensures forall e :: e in Rejections(files) ==> e == Toasted(TooLargeMessage, Error)
  {
    if files != [] {
      AcceptedPartition(files[..|files| - 1]);
    }
  }

  /** When every file fits, each becomes a chip, in input order. */
  lemma {:induction false} AcceptedAllFit(files: seq<File>)
    requires forall k :: 0 <= k < |files| ==> Fits(files[k])
    ensures |Accepted(files)| == |files|
    ensures forall k :: 0 <= k < |files| ==> Accepted(files)[k] == ItemOf(files[k])
    ensures Rejections(files) == []
  {
    if files != [] {
      var init := files[..|files| - 1];
      AcceptedAllFit(init);
      assert Accepted(files) == Accepted(init) + [ItemOf(files[|files| - 1])];
      assert Rejections(files) == Rejections(init);
      forall k | 0 <= k < |files| ensures Accepted(files)[k] == ItemOf(files[k]) {
        if k < |init| { assert files[k] == init[k]; }
      }
    }
  }

  /** Exactly 10 MiB is accepted; one byte more is rejected. */
  lemma SizeBoundary(name: string, mimeType: string)
    ensures Accepted([File(name, mimeType, 10485760)]) == [ItemOf(File(name, mimeType, 10485760))]
    ensures Accepted([File(name, mimeType, 10485761)]) == []
    ensures Rejections([File(name, mimeType, 10485761)]) == [Toasted(TooLargeMessage, Error)]
  {
    AcceptedSingle(File(name, mimeType, 10485760));
    AcceptedSingle(File(name, mimeType, 10485761));
  }

  /** The `#fileList` element and the page it notifies. */
  class FileList {
    var items: seq<FileItem>
    const page: Page

    constructor (page: Page)
      ensures items == [] && this.page == page
    {
      items := [];
      this.page := page;
    }

    /** `handleFiles(files)`. */
    method HandleFiles(files: seq<File>)
      modifies this`items, page
      ensures items == old(items) + Accepted(files)
      ensures page.events == old(page.events) + Rejections(files)
      ensures page.overlays == old(page.overlays)
    {
      for i := 0 to |files|
        invariant items == old(items) + Accepted(files[..i])
        invariant page.events == old(page.events) + Rejections(files[..i])
        invariant page.overlays == old(page.overlays)
      {
        assert files[..i + 1][..i] == files[..i];
        var file := files[i];
        if file.size > 10 * 1024 * 1024 {
          page.ShowToast(TooLargeMessage, Error);
          continue;
        }
        var icon := FileIcon(file.mimeType);
        items := items + [FileItem(icon, file.name, file.size)];
      }
      assert files[..|files|] == files;
    }

    /** The remove icon of the chip at `index`: `fileItem.remove()`. */
    method RemoveItem(index: nat)
      requires index < |items|
      modifies this`items
      ensures items == old(items)[..index] + old(items)[index + 1..]
    {
      items := items[..index] + items[index + 1..];
    }
  }
}
