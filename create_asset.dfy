/** `src/pages/CreateAsset.tsx`: the listing form's file lists, their
    validation, the upload progress map and the submit handler. */
module CreateAsset {
  import opened Common
  import opened Digits
  import opened Text
  import opened Lighthouse

  const MaxImageSize: nat := 10 * 1024 * 1024
  const MaxDocumentSize: nat := 25 * 1024 * 1024
  const DocumentTypes: seq<string> := [
    "application/pdf",
    "application/msword",
    "application/vnd.openxmlformats-officedocument.wordprocessingml.document"]

  /** The asset id every listing is made under. */
  const ListedAssetId: nat := 1

  /** A toast shown to the user. */
  datatype Notice = Notice(title: string, description: string)

  /** Why an image is refused: the size is checked first, then the type. */
  function ImageRejection(file: File): (notice: Option<Notice>)
    ensures notice.None? <==> file.size <= MaxImageSize && StartsWith(file.mimeType, "image/")
    ensures file.size > MaxImageSize ==> notice == Some(Notice("File too large", file.name + " is larger than 10MB"))
    ensures file.size <= MaxImageSize && !StartsWith(file.mimeType, "image/") ==>
              notice == Some(Notice("Invalid file type", file.name + " is not an image file"))
  {
    if file.size > MaxImageSize then Some(Notice("File too large", file.name + " is larger than 10MB"))
    else if !StartsWith(file.mimeType, "image/") then Some(Notice("Invalid file type", file.name + " is not an image file"))
    else None
  }

  /** Why a document is refused: the size is checked first, then the type
      against PDF, DOC and DOCX. */
  function DocumentRejection(file: File): (notice: Option<Notice>)
    ensures notice.None? <==> file.size <= MaxDocumentSize && file.mimeType in DocumentTypes
    ensures file.size > MaxDocumentSize ==> notice == Some(Notice("File too large", file.name + " is larger than 25MB"))
    ensures file.size <= MaxDocumentSize && file.mimeType !in DocumentTypes ==>
              notice == Some(Notice("Invalid file type", file.name + " is not a valid document type (PDF, DOC, DOCX)"))
  {
    if file.size > MaxDocumentSize then Some(Notice("File too large", file.name + " is larger than 25MB"))
    else if file.mimeType !in DocumentTypes then
      Some(Notice("Invalid file type", file.name + " is not a valid document type (PDF, DOC, DOCX)"))
    else None
  }

  /** `files.filter(...)`: the files the validator lets through, in order. */
  function Accepted(files: seq<File>, rejection: File -> Option<Notice>): seq<File>
  {
    if files == [] then []
    else (if rejection(files[0]).None? then [files[0]] else []) + Accepted(files[1..], rejection)
  }

  /** The toasts the validator shows, one per refused file, in order. */
  function Notices(files: seq<File>, rejection: File -> Option<Notice>): seq<Notice>
  {
    if files == [] then []
    else (if rejection(files[0]).Some? then [rejection(files[0]).value] else []) + Notices(files[1..], rejection)
  }

  /** A file is kept exactly when it is one of the input files that the
      validator accepts, and each file is either kept or reported. */
  lemma {:induction false} AcceptedMeaning(files: seq<File>, rejection: File -> Option<Notice>)
    ensures forall f :: f in Accepted(files, rejection) <==> f in files && rejection(f).None?
    ensures |Accepted(files, rejection)| + |Notices(files, rejection)| == |files|
  {
    if files != [] {
      AcceptedMeaning(files[1..], rejection);
      assert files == [files[0]] + files[1..];
    }
  }

  /** Validation keeps the input order: a selection split in two is
      validated part by part. */
  lemma {:induction false} AcceptedAppend(front: seq<File>, back: seq<File>, rejection: File -> Option<Notice>)
    ensures Accepted(front + back, rejection) == Accepted(front, rejection) + Accepted(back, rejection)
  {
    if front == [] {
      assert front + back == back;
    } else {
      var joined := front + back;
      assert joined[0] == front[0];
      assert joined[1..] == front[1..] + back;
      AcceptedAppend(front[1..], back, rejection);
      var head := if rejection(front[0]).None? then [front[0]] else [];
      assert Accepted(joined, rejection) == head + Accepted(joined[1..], rejection);
      assert Accepted(front, rejection) == head + Accepted(front[1..], rejection);
      assert head + (Accepted(front[1..], rejection) + Accepted(back, rejection))
             == (head + Accepted(front[1..], rejection)) + Accepted(back, rejection);
    }
  }

  /** `prev.filter((_, i) => i !== index)`. */
  function DropPosition<T>(s: seq<T>, index: int): seq<T>
    decreases |s|
  {
    if s == [] then []
    else DropPosition(s[..|s| - 1], index) + (if |s| - 1 != index then [s[|s| - 1]] else [])
  }

  /** Dropping a position removes exactly that element and keeps the others
      in order; a position outside the list changes nothing. */
  lemma {:induction false} DropPositionMeaning<T>(s: seq<T>, index: int)
    ensures 0 <= index < |s| ==> DropPosition(s, index) == s[..index] + s[index + 1..]
    ensures !(0 <= index < |s|) ==> DropPosition(s, index) == s
    decreases |s|
  {
    if s != [] {
      var last := |s| - 1;
      DropPositionMeaning(s[..last], index);
      if index == last {
        assert s[..index] + s[index + 1..] == s[..last];
      } else if 0 <= index < last {
        assert s[..last][..index] == s[..index];
        assert s[..last][index + 1..] + [s[last]] == s[index + 1..];
      } else {
        assert s[..last] + [s[last]] == s;
      }
    }
  }

  /** After a drop, the elements before the position keep their index and
      those after it move down by one. */
  lemma DropPositionIndex<T>(s: seq<T>, index: int)
    ensures |DropPosition(s, index)| == if 0 <= index < |s| then |s| - 1 else |s|
    ensures forall k :: 0 <= k < |DropPosition(s, index)| && !(0 <= index <= k) ==> DropPosition(s, index)[k] == s[k]
    ensures forall k :: 0 <= index <= k < |DropPosition(s, index)| ==> DropPosition(s, index)[k] == s[k + 1]
  {
    DropPositionMeaning(s, index);
    if 0 <= index < |s| {
      var d := DropPosition(s, index);
      forall k | 0 <= k < |d| ensures d[k] == (if index <= k then s[k + 1] else s[k]) {
        if index <= k {
          assert d[k] == s[index + 1..][k - index];
        } else {
          assert d[k] == s[..index][k];
        }
      }
    }
  }

  /** Lists of equal length stay of equal length, so a file and its upload
      result stay side by side. */
  lemma DropPositionAligned<T, U>(s: seq<T>, t: seq<U>, index: int)
    requires |s| == |t|
    ensures |DropPosition(s, index)| == |DropPosition(t, index)| == if 0 <= index < |s| then |s| - 1 else |s|
    ensures forall k :: 0 <= k < |DropPosition(s, index)| && !(0 <= index <= k) ==>
              DropPosition(s, index)[k] == s[k] && DropPosition(t, index)[k] == t[k]
    ensures forall k :: 0 <= index <= k < |DropPosition(s, index)| ==>
              DropPosition(s, index)[k] == s[k + 1] && DropPosition(t, index)[k] == t[k + 1]
  {
    DropPositionIndex(s, index);
    DropPositionIndex(t, index);
  }

  datatype FileKind = Images | Documents
  {
    function Name(): string
    {
      match this
      case Images => "images"
      case Documents => "documents"
    }
  }

  /** `${type}-${index}`: the progress map's key for one file. */
  function ProgressKey(kind: FileKind, index: nat): string
  {
    kind.Name() + "-" + Decimal(index)
  }

  /** Distinct files of either kind have distinct keys. */
  lemma ProgressKeyInjective(kind1: FileKind, index1: nat, kind2: FileKind, index2: nat)
    requires ProgressKey(kind1, index1) == ProgressKey(kind2, index2)
    ensures kind1 == kind2 && index1 == index2
  {
    var key := ProgressKey(kind1, index1);
    assert key[0] == kind1.Name()[0] && key[0] == kind2.Name()[0];
    var n := |kind1.Name()| + 1;
    assert key[n..] == Decimal(index1);
    assert ProgressKey(kind2, index2)[n..] == Decimal(index2);
    ToBaseInjective(index1, index2, 10);
  }

  /** The keys of the first `count` files of a kind. */
  function KeysBelow(kind: FileKind, count: nat): set<string>
  {
    set index: nat | index < count :: ProgressKey(kind, index)
  }

  /** The progress map after a batch's `onProgress` calls. */
  function ApplyReports(progress: map<string, int>, kind: FileKind, trace: seq<ProgressReport>): map<string, int>
    decreases |trace|
  {
    if trace == [] then progress
    else
      var report := trace[|trace| - 1];
      ApplyReports(progress, kind, trace[..|trace| - 1])[ProgressKey(kind, report.fileIndex) := report.percent]
  }

  /** Reports about the first `count` files touch only their keys. */
  lemma {:induction false} ApplyReportsWithin(progress: map<string, int>, kind: FileKind, trace: seq<ProgressReport>, count: nat)
    requires forall k :: 0 <= k < |trace| ==> trace[k].fileIndex < count
    ensures ApplyReports(progress, kind, trace) - KeysBelow(kind, count) == progress - KeysBelow(kind, count)
    decreases |trace|
  {
    if trace != [] {
      var last := |trace| - 1;
      ApplyReportsWithin(progress, kind, trace[..last], count);
      assert ProgressKey(kind, trace[last].fileIndex) in KeysBelow(kind, count);
    }
  }

  /** The files of a list together with what uploading each one meets. */
  function UploadsOf(files: seq<File>, services: nat -> UploadService): (uploads: seq<FileUpload>)
    ensures |uploads| == |files|
  {
    seq(|files|, i requires 0 <= i < |files| => FileUpload(files[i], services(i)))
  }

  /** One step of `handleSubmit` that reaches an outside service. */
  datatype SubmitStep =
    | UploadImages(count: nat)
    | UploadDocuments(count: nat)
    | ListAsset(assetId: nat, totalSupply: Option<int>)

  /** The upload step for a list of `count` files: none for an empty list. */
  function UploadStep(kind: FileKind, count: nat): seq<SubmitStep>
  {
    if count == 0 then [] else [if kind == Images then UploadImages(count) else UploadDocuments(count)]
  }

  /** The outside calls of a submit: the images, then the documents, then
      the listing under asset id 1 with the parsed token supply. */
  function ListingSteps(imageCount: nat, documentCount: nat, tokenSupplyField: string): seq<SubmitStep>
  {
    UploadStep(Images, imageCount) + UploadStep(Documents, documentCount)
    + [ListAsset(ListedAssetId, ParseInt(tokenSupplyField))]
  }

  /** The progress map after both batches of a submit have reported. */
  function SubmitProgress(progress: map<string, int>, apiKey: string, images: seq<File>, documents: seq<File>,
                          imageServices: nat -> UploadService, documentServices: nat -> UploadService): map<string, int>
  {
    var afterImages := ApplyReports(progress, Images, ProgressTrace(apiKey, UploadsOf(images, imageServices)));
    ApplyReports(afterImages, Documents, ProgressTrace(apiKey, UploadsOf(documents, documentServices)))
  }

  /** A submit always ends with one listing call, made after every upload,
      and uploads exactly the non-empty lists, images first. */
  lemma ListingStepsShape(imageCount: nat, documentCount: nat, tokenSupplyField: string)
    ensures var steps := ListingSteps(imageCount, documentCount, tokenSupplyField);
            |steps| == 1 + (if imageCount > 0 then 1 else 0) + (if documentCount > 0 then 1 else 0)
            && steps[|steps| - 1] == ListAsset(1, ParseInt(tokenSupplyField))
            && (forall i :: 0 <= i < |steps| - 1 ==> !steps[i].ListAsset?)
            && (UploadImages(imageCount) in steps <==> imageCount > 0)
            && (UploadDocuments(documentCount) in steps <==> documentCount > 0)
            && (imageCount > 0 ==> steps[0] == UploadImages(imageCount))
  {
  }

  /** The reports of a submit touch only the keys of its own files: every
      other progress entry is left as it was. */
  lemma SubmitProgressOtherKeys(progress: map<string, int>, apiKey: string, images: seq<File>, documents: seq<File>,
                                imageServices: nat -> UploadService, documentServices: nat -> UploadService)
    ensures SubmitProgress(progress, apiKey, images, documents, imageServices, documentServices)
              - KeysBelow(Images, |images|) - KeysBelow(Documents, |documents|)
            == progress - KeysBelow(Images, |images|) - KeysBelow(Documents, |documents|)
  {
    var imageUploads := UploadsOf(images, imageServices);
    var documentUploads := UploadsOf(documents, documentServices);
    ProgressInFileOrder(apiKey, imageUploads);
    ProgressInFileOrder(apiKey, documentUploads);
    var afterImages := ApplyReports(progress, Images, ProgressTrace(apiKey, imageUploads));
    ApplyReportsWithin(progress, Images, ProgressTrace(apiKey, imageUploads), |images|);
    ApplyReportsWithin(afterImages, Documents, ProgressTrace(apiKey, documentUploads), |documents|);
    var result := SubmitProgress(progress, apiKey, images, documents, imageServices, documentServices);
    var imageKeys, documentKeys := KeysBelow(Images, |images|), KeysBelow(Documents, |documents|);
    MinusSwap(result, imageKeys, documentKeys);
    MinusSwap(afterImages, imageKeys, documentKeys);
    assert result - documentKeys - imageKeys == afterImages - documentKeys - imageKeys;
    assert afterImages - imageKeys - documentKeys == progress - imageKeys - documentKeys;
  }

  lemma MinusSwap(m: map<string, int>, a: set<string>, b: set<string>)
    ensures m - a - b == m - b - a
  {
    assert (m - a - b).Keys == (m - b - a).Keys;
  }

  /** The form's state. */
  class AssetForm {
    var uploadedImages: seq<File>
    var uploadedDocuments: seq<File>
    var uploadedImageResults: seq<UploadResult>
    var uploadedDocumentResults: seq<UploadResult>
    var uploadProgress: map<string, int>
    var isUploading: bool
    var isLoading: bool

    constructor ()
      ensures uploadedImages == [] && uploadedDocuments == []
      ensures uploadedImageResults == [] && uploadedDocumentResults == []
      ensures uploadProgress == map[] && !isUploading && !isLoading
    {
      uploadedImages, uploadedDocuments := [], [];
      uploadedImageResults, uploadedDocumentResults := [], [];
      uploadProgress := map[];
      isUploading, isLoading := false, false;
    }

    /** `handleImageUpload`: the valid images are appended after the ones
        already listed; each refused file gets a notice. */
    method HandleImageUpload(files: seq<File>) returns (notices: seq<Notice>)
      modifies this`uploadedImages
      ensures uploadedImages == old(uploadedImages) + Accepted(files, ImageRejection)
      ensures notices == Notices(files, ImageRejection)
    {
      var validFiles := Accepted(files, ImageRejection);
      notices := Notices(files, ImageRejection);
      if |validFiles| == 0 {
        return;
      }
      uploadedImages := uploadedImages + validFiles;
    }

    /** `handleDocumentUpload`: the same for documents. */
    method HandleDocumentUpload(files: seq<File>) returns (notices: seq<Notice>)
      modifies this`uploadedDocuments
      ensures uploadedDocuments == old(uploadedDocuments) + Accepted(files, DocumentRejection)
      ensures notices == Notices(files, DocumentRejection)
    {
      var validFiles := Accepted(files, DocumentRejection);
      notices := Notices(files, DocumentRejection);
      if |validFiles| == 0 {
        return;
      }
      uploadedDocuments := uploadedDocuments + validFiles;
    }

    /** `removeImage(index)`: the same position leaves both image lists. */
    method RemoveImage(index: int)
      modifies this`uploadedImages, this`uploadedImageResults
      ensures uploadedImages == DropPosition(old(uploadedImages), index)
      ensures uploadedImageResults == DropPosition(old(uploadedImageResults), index)
    {
      uploadedImages := DropPosition(uploadedImages, index);
      uploadedImageResults := DropPosition(uploadedImageResults, index);
    }

    /** `removeDocument(index)`: the same position leaves both document
        lists. */
    method RemoveDocument(index: int)
      modifies this`uploadedDocuments, this`uploadedDocumentResults
      ensures uploadedDocuments == DropPosition(old(uploadedDocuments), index)
      ensures uploadedDocumentResults == DropPosition(old(uploadedDocumentResults), index)
    {
      uploadedDocuments := DropPosition(uploadedDocuments, index);
      uploadedDocumentResults := DropPosition(uploadedDocumentResults, index);
    }

    /** The `onProgress` callback, report after report:
        `uploadProgress[type-index] := progress`. */
    method RecordProgress(kind: FileKind, trace: seq<ProgressReport>)
      modifies this`uploadProgress
      ensures uploadProgress == ApplyReports(old(uploadProgress), kind, trace)
    {
      var j := 0;
      while j < |trace|
        invariant 0 <= j <= |trace|
        invariant uploadProgress == ApplyReports(old(uploadProgress), kind, trace[..j])
      {
        assert trace[..j + 1][..j] == trace[..j];
        uploadProgress := uploadProgress[ProgressKey(kind, trace[j].fileIndex) := trace[j].percent];
        j := j + 1;
      }
      assert trace[..|trace|] == trace;
    }

    /** Delete the progress keys of the first `count` files of a kind. */
    method ClearProgress(kind: FileKind, count: nat)
      modifies this`uploadProgress
      ensures uploadProgress == old(uploadProgress) - KeysBelow(kind, count)
    {
      var k := 0;
      while k < count
        invariant 0 <= k <= count
        invariant uploadProgress == old(uploadProgress) - KeysBelow(kind, k)
      {
        assert KeysBelow(kind, k + 1) == KeysBelow(kind, k) + {ProgressKey(kind, k)};
        uploadProgress := uploadProgress - {ProgressKey(kind, k)};
        k := k + 1;
      }
    }

    /** The batch upload with its `onProgress` callback: each report sets
        the file's progress key. */
    method UploadBatch(kind: FileKind, files: seq<File>, apiKey: string, services: nat -> UploadService)
      returns (results: seq<UploadResult>)
      modifies this`uploadProgress
      ensures results == CollectResults(apiKey, UploadsOf(files, services))
      ensures uploadProgress == ApplyReports(old(uploadProgress), kind, ProgressTrace(apiKey, UploadsOf(files, services)))
    {
      var trace;
      results, trace := UploadMultipleEncryptedFiles(apiKey, UploadsOf(files, services));
      RecordProgress(kind, trace);
    }

    /** The batch's results go after the kind's earlier results. */
    method AppendResults(kind: FileKind, results: seq<UploadResult>)
      modifies this`uploadedImageResults, this`uploadedDocumentResults
      ensures kind == Images ==>
                uploadedImageResults == old(uploadedImageResults) + results
                && uploadedDocumentResults == old(uploadedDocumentResults)
      ensures kind == Documents ==>
                uploadedDocumentResults == old(uploadedDocumentResults) + results
                && uploadedImageResults == old(uploadedImageResults)
    {
      if kind == Images {
        uploadedImageResults := uploadedImageResults + results;
      } else {
        uploadedDocumentResults := uploadedDocumentResults + results;
      }
    }

    /** `uploadFilesToLighthouse(files, type)`: upload the batch, append its
        results to the kind's result list and clear the batch's progress
        keys; every other key stays. The batch upload never throws, so the
        error branch is not reached. */
    method UploadFilesToLighthouse(kind: FileKind, files: seq<File>, apiKey: string, services: nat -> UploadService)
      modifies this`isUploading, this`uploadProgress, this`uploadedImageResults, this`uploadedDocumentResults
      ensures !isUploading
      ensures uploadProgress == old(uploadProgress) - KeysBelow(kind, |files|)
      ensures kind == Images ==>
                uploadedImageResults == old(uploadedImageResults) + CollectResults(apiKey, UploadsOf(files, services))
                && uploadedDocumentResults == old(uploadedDocumentResults)
      ensures kind == Documents ==>
                uploadedDocumentResults == old(uploadedDocumentResults) + CollectResults(apiKey, UploadsOf(files, services))
                && uploadedImageResults == old(uploadedImageResults)
    {
      isUploading := true;
      var uploads := UploadsOf(files, services);
      ProgressInFileOrder(apiKey, uploads);
      ApplyReportsWithin(uploadProgress, kind, ProgressTrace(apiKey, uploads), |files|);
      var results := UploadBatch(kind, files, apiKey, services);
      AppendResults(kind, results);
      ClearProgress(kind, |files|);
      isUploading := false;
    }

    /** Steps 1 and 2 of `handleSubmit`: a non-empty list is uploaded and
        its progress recorded under its own keys; an empty one is skipped. */
    method UploadListed(kind: FileKind, files: seq<File>, apiKey: string, services: nat -> UploadService)
      returns (step: seq<SubmitStep>)
      modifies this`uploadProgress
      ensures step == UploadStep(kind, |files|)
      ensures uploadProgress == ApplyReports(old(uploadProgress), kind, ProgressTrace(apiKey, UploadsOf(files, services)))
    {
      step := [];
      if |files| > 0 {
        step := [if kind == Images then UploadImages(|files|) else UploadDocuments(|files|)];
        var _ := UploadBatch(kind, files, apiKey, services);
      } else {
        assert UploadsOf(files, services) == [];
      }
    }

    /** After a successful listing: the four lists and the progress map are
        emptied. */
    method ResetForm()
      modifies this`uploadedImages, this`uploadedDocuments, this`uploadedImageResults,
               this`uploadedDocumentResults, this`uploadProgress
      ensures uploadedImages == [] && uploadedDocuments == []
      ensures uploadedImageResults == [] && uploadedDocumentResults == []
      ensures uploadProgress == map[]
    {
      uploadProgress := map[];
      uploadedImages, uploadedDocuments := [], [];
      uploadedImageResults, uploadedDocumentResults := [], [];
    }

    /** The body of `handleSubmit` past the wallet gate: the images (if
        any), then the documents (if any), then `listAsset(1, …)`; a
        successful listing empties the four lists and the progress map.
        `listing` is what `listAsset` gives back or throws; the upload
        results themselves are not kept. */
    method SubmitListing(tokenSupplyField: string, apiKey: string,
                         imageServices: nat -> UploadService, documentServices: nat -> UploadService,
                         listing: Result<string>)
      returns (steps: seq<SubmitStep>)
      modifies this`uploadedImages, this`uploadedDocuments, this`uploadedImageResults,
               this`uploadedDocumentResults, this`uploadProgress
      ensures steps == ListingSteps(|old(uploadedImages)|, |old(uploadedDocuments)|, tokenSupplyField)
      ensures listing.Ok? ==>
                uploadedImages == [] && uploadedDocuments == []
                && uploadedImageResults == [] && uploadedDocumentResults == []
                && uploadProgress == map[]
      ensures listing.Err? ==>
                uploadedImages == old(uploadedImages) && uploadedDocuments == old(uploadedDocuments)
                && uploadedImageResults == old(uploadedImageResults)
                && uploadedDocumentResults == old(uploadedDocumentResults)
                && uploadProgress == SubmitProgress(old(uploadProgress), apiKey, old(uploadedImages),
                                                    old(uploadedDocuments), imageServices, documentServices)
    {
      var totalSupply := ParseInt(tokenSupplyField);
      var imageStep := UploadListed(Images, uploadedImages, apiKey, imageServices);
      var documentStep := UploadListed(Documents, uploadedDocuments, apiKey, documentServices);
      steps := imageStep + documentStep + [ListAsset(ListedAssetId, totalSupply)];
      if listing.Ok? {
        ResetForm();
      }
    }

    /** `handleSubmit`: without a wallet nothing is uploaded or listed;
        `isLoading` is off again on every exit. */
    method HandleSubmit(ethereum: Ethereum, tokenSupplyField: string, apiKey: string,
                        imageServices: nat -> UploadService, documentServices: nat -> UploadService,
                        listing: Result<string>)
      returns (steps: seq<SubmitStep>)
      modifies this
      ensures !isLoading && isUploading == old(isUploading)
      ensures !IsWalletConnected(ethereum) ==>
                steps == []
                && uploadedImages == old(uploadedImages) && uploadedDocuments == old(uploadedDocuments)
                && uploadedImageResults == old(uploadedImageResults)
                && uploadedDocumentResults == old(uploadedDocumentResults)
                && uploadProgress == old(uploadProgress)
      ensures IsWalletConnected(ethereum) ==>
                steps == ListingSteps(|old(uploadedImages)|, |old(uploadedDocuments)|, tokenSupplyField)
      ensures IsWalletConnected(ethereum) && listing.Ok? ==>
                uploadedImages == [] && uploadedDocuments == []
                && uploadedImageResults == [] && uploadedDocumentResults == []
                && uploadProgress == map[]
      ensures IsWalletConnected(ethereum) && listing.Err? ==>
                uploadedImages == old(uploadedImages) && uploadedDocuments == old(uploadedDocuments)
                && uploadedImageResults == old(uploadedImageResults)
                && uploadedDocumentResults == old(uploadedDocumentResults)
                && uploadProgress == SubmitProgress(old(uploadProgress), apiKey, old(uploadedImages),
                                                    old(uploadedDocuments), imageServices, documentServices)
    {
      isLoading := true;
      steps := [];
      if IsWalletConnected(ethereum) {
        steps := SubmitListing(tokenSupplyField, apiKey, imageServices, documentServices, listing);
      }
      isLoading := false;
    }
  }
}
