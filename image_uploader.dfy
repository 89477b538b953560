/** The product gallery of the admin pages
    (src/components/admin/ImageUploader.tsx): a list of image addresses, the
    index of the main one, the address being typed, and what was last
    reported to the parent form through `onChange`.

    Uploaded files arrive as their data URLs, already read, in the order the
    reads completed; the drag-and-drop highlighting is presentation only. */
module ImageUploader {
  import opened Text

  const HttpPrefix: string := "http://"
  const HttpsPrefix: string := "https://"

  /** The test of handleAddFromUrl (src/components/admin/ImageUploader.tsx:47). */
  predicate AcceptedUrl(url: string) {
    url != "" && (StartsWith(url, HttpPrefix) || StartsWith(url, HttpsPrefix))
  }

  /** `images.filter((_, i) => i !== index)`: every image but the one at
      `index`, in order; an index past the end removes nothing. */
  function RemoveAt(images: seq<string>, index: nat): (r: seq<string>)
    ensures index < |images| ==> |r| == |images| - 1
    ensures index < |images| ==> forall i :: 0 <= i < |r| ==> r[i] == if i < index then images[i] else images[i + 1]
    ensures index >= |images| ==> r == images
  {
    if index < |images| then images[..index] + images[index + 1..] else images
  }

  /** handleRemoveImage's new main index (src/components/admin/ImageUploader.tsx:87-93). */
  function PrimaryAfterRemove(primary: nat, index: nat): nat {
    if index == primary then 0 else if index < primary then primary - 1 else primary
  }

  /** Whenever there are images, the main index points at one of them, and
      without images it is back at zero. */
  predicate PrimaryInRange(images: seq<string>, primary: nat) {
    primary == 0 || primary < |images|
  }

  /** Removing an image keeps the main index in range. */
  lemma RemoveKeepsPrimaryInRange(images: seq<string>, primary: nat, index: nat)
    requires PrimaryInRange(images, primary)
    ensures PrimaryInRange(RemoveAt(images, index), PrimaryAfterRemove(primary, index))
  {
  }

  /** Removing an image other than the main one keeps the same image as the
      main one; removing the main one makes the first image the main one. */
  lemma RemoveKeepsPrimaryImage(images: seq<string>, primary: nat, index: nat)
    requires primary < |images| && index < |images|
    ensures index != primary ==>
      var r := RemoveAt(images, index);
      PrimaryAfterRemove(primary, index) < |r| && r[PrimaryAfterRemove(primary, index)] == images[primary]
    ensures index == primary ==> PrimaryAfterRemove(primary, index) == 0
  {
  }

  /** What updateParent reports (src/components/admin/ImageUploader.tsx:16-22):
      the main image and the whole list, or nothing when the list is empty. */
  function ParentView(images: seq<string>, primary: nat): (r: (string, seq<string>))
    requires PrimaryInRange(images, primary)
    ensures r.1 == images
    ensures |images| == 0 ==> r.0 == ""
    ensures |images| > 0 ==> r.0 in images && r.0 == images[primary]
  {
    if |images| > 0 then (images[primary], images) else ("", [])
  }

  class Gallery {
    var images: seq<string>
    var primary: nat
    var urlInput: string
    var showUrlInput: bool
    /** The last values passed to `onChange`. */
    var parentMain: string
    var parentImages: seq<string>

    /** The main index is in range and the parent form always has the
        gallery's current main image and list. */
    ghost predicate Valid()
      reads this
    {
      PrimaryInRange(images, primary) && (parentMain, parentImages) == ParentView(images, primary)
    }

    constructor ()
      ensures Valid()
      ensures images == [] && primary == 0 && urlInput == "" && !showUrlInput
    {
      images := [];
      primary := 0;
      urlInput := "";
      showUrlInput := false;
      parentMain := "";
      parentImages := [];
    }

    method UpdateParent(newImages: seq<string>, newPrimary: nat)
      requires PrimaryInRange(newImages, newPrimary)
      modifies this`parentMain, this`parentImages
      ensures (parentMain, parentImages) == ParentView(newImages, newPrimary)
    {
      if |newImages| > 0 {
        parentMain := newImages[newPrimary];
        parentImages := newImages;
      } else {
        parentMain := "";
        parentImages := [];
      }
    }

    /** Typing in the address box. */
    method SetUrlInput(text: string)
      modifies this`urlInput
      ensures urlInput == text
    {
      urlInput := text;
    }

    /** The button that shows or hides the address box. */
    method ToggleUrlInput()
      modifies this`showUrlInput
      ensures showUrlInput == !old(showUrlInput)
    {
      showUrlInput := !showUrlInput;
    }

    /** handleAddFromUrl (src/components/admin/ImageUploader.tsx:46-56): an
        accepted address goes at the end, the box is cleared and hidden, and
        the parent is told; any other address only raises an alert. */
    method HandleAddFromUrl() returns (accepted: bool)
      requires Valid()
      modifies this
      ensures Valid()
      ensures accepted <==> AcceptedUrl(old(urlInput))
      ensures accepted ==>
        images == old(images) + [old(urlInput)] && primary == old(primary) && urlInput == "" && !showUrlInput
      ensures !accepted ==>
        images == old(images) && primary == old(primary) && urlInput == old(urlInput)
        && showUrlInput == old(showUrlInput) && parentMain == old(parentMain) && parentImages == old(parentImages)
    {
      if urlInput != "" && (StartsWith(urlInput, HttpPrefix) || StartsWith(urlInput, HttpsPrefix)) {
        var newImages := images + [urlInput];
        images := newImages;
        UpdateParent(newImages, primary);
        urlInput := "";
        showUrlInput := false;
        accepted := true;
      } else {
        accepted := false;
      }
    }

    /** handleSetPrimary (src/components/admin/ImageUploader.tsx:80-83); the
        star buttons exist only for the images shown. */
    method HandleSetPrimary(index: nat)
      requires Valid() && index < |images|
      modifies this`primary, this`parentMain, this`parentImages
      ensures Valid()
      ensures primary == index && parentMain == images[index]
    {
      primary := index;
      UpdateParent(images, index);
    }

    /** handleRemoveImage (src/components/admin/ImageUploader.tsx:85-98). */
    method HandleRemoveImage(index: nat)
      requires Valid()
      modifies this`images, this`primary, this`parentMain, this`parentImages
      ensures Valid()
      ensures images == RemoveAt(old(images), index)
      ensures primary == PrimaryAfterRemove(old(primary), index)
    {
      var newImages := RemoveAt(images, index);
      var newPrimaryIndex := primary;
      if index == primary {
        newPrimaryIndex := 0;
      } else if index < primary {
        newPrimaryIndex := primary - 1;
      }
      RemoveKeepsPrimaryInRange(images, primary, index);
      images := newImages;
      primary := newPrimaryIndex;
      UpdateParent(newImages, newPrimaryIndex);
    }

    /** handleFileProcessing (src/components/admin/ImageUploader.tsx:24-44),
        with `contents` the data URLs in the order the reads finished: each
        finished read is collected and counted down, and only when the count
        reaches zero are the new images appended and the parent told. No
        files change nothing. */
    method HandleFileProcessing(contents: seq<string>)
      requires Valid()
      modifies this`images, this`parentMain, this`parentImages
      ensures Valid()
      ensures images == old(images) + contents
      ensures |contents| == 0 ==> parentMain == old(parentMain) && parentImages == old(parentImages)
    {
      var newImages: seq<string> := [];
      var filesToProcess := |contents|;
      if filesToProcess == 0 {
        assert old(images) + contents == images;
        return;
      }
      var i := 0;
      while i < |contents|
        invariant 0 <= i <= |contents|
        invariant newImages == contents[..i]
        invariant filesToProcess == |contents| - i
        invariant images == if i == |contents| then old(images) + contents else old(images)
        invariant Valid()
      {
        newImages := newImages + [contents[i]];
        filesToProcess := filesToProcess - 1;
        if filesToProcess == 0 {
          assert newImages == contents;
          var combined := images + newImages;
          images := combined;
          UpdateParent(combined, primary);
        }
        i := i + 1;
      }
    }
  }
}
