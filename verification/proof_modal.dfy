/**
 * The proof modal: the draft a trader assembles (screenshots and a
 * description) and the proof record it submits for a listing.
 */
module ProofModal {
  import opened Wrappers
  import opened JsString
  import opened JsArray

  /** Evidence attached to a listing. A freshly submitted proof is unverified. */
  datatype ProofData = ProofData(
    id: string,
    screenshots: seq<string>,
    description: string,
    timestamp: string,
    verified: bool,
    verificationNotes: Option<string>)

  /**
   * A file handed over by the drop zone or the file picker: its MIME type and
   * the data URL that reading it produces. The data URL is opaque here.
   */
  datatype File = File(mimeType: string, dataUrl: string)

  predicate IsImage(f: File)
  {
    StartsWith(f.mimeType, "image/")
  }

  /** The image files of a batch: `files.filter(file => file.type.startsWith('image/'))`. */
  function ImageFiles(files: seq<File>): (images: seq<File>)
    ensures |images| <= |files|
    ensures forall i :: 0 <= i < |images| ==> StartsWith(images[i].mimeType, "image/")
  {
    Filter(files, IsImage)
  }

  /** The data URLs read from `files`, one per file, in order. */
  function DataUrls(files: seq<File>): (urls: seq<string>)
    ensures |urls| == |files|
  {
    seq(|files|, i requires 0 <= i < |files| => files[i].dataUrl)
  }

  /**
   * `s.filter((_, i) => i !== index)`: the element at `index` is dropped; an
   * index outside the list drops nothing.
   */
  function WithoutIndex(s: seq<string>, index: int): (r: seq<string>)
    ensures 0 <= index < |s| ==> r == s[..index] + s[index + 1..]
    ensures !(0 <= index < |s|) ==> r == s
    decreases |s|
  {
    if s == [] then []
    else (if index == 0 then [] else [s[0]]) + WithoutIndex(s[1..], index - 1)
  }

  /** Every screenshot that a batch of files contributes comes from an image file of that batch. */
  lemma {:induction false} ScreenshotsComeFromImages(files: seq<File>, url: string)
    requires url in DataUrls(ImageFiles(files))
    ensures exists f :: f in files && IsImage(f) && f.dataUrl == url
  {
    var images := ImageFiles(files);
    var k :| 0 <= k < |images| && DataUrls(images)[k] == url;
    assert images[k] in images;
    FilterMember(files, IsImage, images[k]);
  }

  /**
   * A batch contributes what its parts contribute one after the other, so a
   * batch whose reads complete file by file, with other draft edits in between,
   * is `HandleFiles` applied to each part in turn.
   */
  lemma BatchSplits(first: seq<File>, rest: seq<File>)
    ensures DataUrls(ImageFiles(first + rest)) == DataUrls(ImageFiles(first)) + DataUrls(ImageFiles(rest))
  {
    FilterAppend(first, rest, IsImage);
  }

  /** The proof modal's draft state (`proofData`). */
  class ProofDraft {
    var screenshots: seq<string>
    var description: string

    constructor ()
      ensures screenshots == [] && description == ""
    {
      screenshots := [];
      description := "";
    }

    /**
     * `handleFiles`: each image file is read and its data URL appended to the
     * screenshots, one file at a time; non-image files are skipped.
     */
    method HandleFiles(files: seq<File>)
      modifies this
      ensures screenshots == old(screenshots) + DataUrls(ImageFiles(files))
      ensures old(screenshots) <= screenshots
      ensures description == old(description)
    {
      var imageFiles := ImageFiles(files);
      var i := 0;
      while i < |imageFiles|
        invariant 0 <= i <= |imageFiles|
        invariant screenshots == old(screenshots) + DataUrls(imageFiles[..i])
        invariant description == old(description)
      {
        assert DataUrls(imageFiles[..i + 1]) == DataUrls(imageFiles[..i]) + [imageFiles[i].dataUrl];
        screenshots := screenshots + [imageFiles[i].dataUrl];
        i := i + 1;
      }
      assert imageFiles[..i] == imageFiles;
    }

    /** The description textarea's `onChange`. */
    method SetDescription(text: string)
      modifies this
      ensures description == text && screenshots == old(screenshots)
    {
      description := text;
    }

    /** `removeScreenshot(index)`: the remove button of one uploaded screenshot. */
    method RemoveScreenshot(index: int)
      modifies this
      ensures screenshots == WithoutIndex(old(screenshots), index)
      ensures 0 <= index < |old(screenshots)| ==> |screenshots| == |old(screenshots)| - 1
      ensures description == old(description)
    {
      screenshots := WithoutIndex(screenshots, index);
    }

    /** The "Submit Proof" button is enabled only once a screenshot is uploaded. */
    predicate SubmitEnabled()
      reads this
    {
      |screenshots| != 0
    }

    /**
     * `handleSubmit`: the proof built from the draft, with the id and
     * timestamp supplied by the clock. It is always unverified and has no notes.
     */
    function HandleSubmit(id: string, timestamp: string): (proof: ProofData)
      reads this
      ensures !proof.verified && proof.verificationNotes == None
      ensures proof.screenshots == screenshots && proof.description == description
      ensures proof.id == id && proof.timestamp == timestamp
      ensures SubmitEnabled() ==> proof.screenshots != []
    {
      ProofData(id, screenshots, description, timestamp, false, None)
    }
  }
}
