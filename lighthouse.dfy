/** `src/lib/lighthouse.ts`: encrypted uploads to Lighthouse storage. The
    injected wallet and the Lighthouse SDK are oracles: what each request
    returns or throws is given, not computed. */
module Lighthouse {
  import opened Common
  import opened Text

  const ApiKeyMissingMessage := "Lighthouse API key is not configured. Please add VITE_LIGHTHOUSE_API_KEY to your .env file."
  const SignFailedMessage := "Failed to sign the message."
  const DecryptUrlPrefix := "https://decrypt.mesh3.network/evm/"

  /** A browser `File`. */
  datatype File = File(name: string, size: nat, mimeType: string)

  /** `window.ethereum`, with the outcome of each request made to it:
      `eth_requestAccounts`, Lighthouse's `getAuthMessage`, `personal_sign`
      and `eth_accounts`. */
  datatype Ethereum =
    | Absent
    | Present(
        requestAccounts: Result<seq<string>>,
        authMessage: Result<string>,
        personalSign: Result<string>,
        accounts: Result<seq<string>>)

  datatype AuthSignature = AuthSignature(signature: string, signerAddress: string)

  /** One entry of `output.data` from `lighthouse.uploadEncrypted`. */
  datatype FileData = FileData(hash: string, name: string, size: string)

  datatype UploadResult = UploadResult(hash: string, name: string, size: string, decryptUrl: string)

  /** `signAuthMessage`: the first account signs Lighthouse's auth message;
      every failure, an empty account list included, gives `null`. */
  function SignAuthMessage(ethereum: Ethereum): (auth: Option<AuthSignature>)
    ensures auth.Some? <==>
              ethereum.Present? && ethereum.requestAccounts.Ok? && |ethereum.requestAccounts.value| > 0
              && ethereum.authMessage.Ok? && ethereum.personalSign.Ok?
    ensures auth.Some? ==>
              auth.value == AuthSignature(ethereum.personalSign.value, ethereum.requestAccounts.value[0])
  {
    match ethereum
    case Absent => None
    case Present(requestAccounts, authMessage, personalSign, _) =>
      if requestAccounts.Err? || |requestAccounts.value| == 0 || authMessage.Err? || personalSign.Err? then None
      else Some(AuthSignature(personalSign.value, requestAccounts.value[0]))
  }

  /** The link that decrypts a stored file, from its content hash. */
  function DecryptUrl(hash: string): string
  {
    DecryptUrlPrefix + hash
  }

  /** The content hash named by a decrypt link. */
  function HashOfDecryptUrl(url: string): Option<string>
  {
    if StartsWith(url, DecryptUrlPrefix) then Some(url[|DecryptUrlPrefix|..]) else None
  }

  lemma DecryptUrlRoundTrip(hash: string)
    ensures HashOfDecryptUrl(DecryptUrl(hash)) == Some(hash)
  {
    assert (DecryptUrlPrefix + hash)[..|DecryptUrlPrefix|] == DecryptUrlPrefix;
  }

  /** `uploadEncryptedFile`: the API key check comes before anything else
      (an unset key is the empty string), then signing, then the upload;
      the first entry of the SDK's answer becomes the result, an empty
      answer gives `null`, and an SDK error is rethrown as it is. */
  function UploadEncryptedFile(apiKey: string, ethereum: Ethereum, response: Result<seq<FileData>>)
    : (r: Result<Option<UploadResult>>)
    ensures apiKey == [] ==> r == Err(Fail(ApiKeyMissingMessage))
    ensures apiKey != [] && SignAuthMessage(ethereum).None? ==> r == Err(Fail(SignFailedMessage))
    ensures apiKey != [] && SignAuthMessage(ethereum).Some? && response.Err? ==> r == Err(response.error)
    ensures r == Ok(None) <==> apiKey != [] && SignAuthMessage(ethereum).Some? && response == Ok([])
    ensures apiKey != [] && SignAuthMessage(ethereum).Some? && response.Ok? && |response.value| > 0 ==>
              r.Ok? && r.value.Some?
    ensures r.Ok? && r.value.Some? ==>
              response.Ok? && |response.value| > 0
              && var data := response.value[0];
              r.value.value.hash == data.hash && r.value.value.name == data.name && r.value.value.size == data.size
              && HashOfDecryptUrl(r.value.value.decryptUrl) == Some(data.hash)
  {
    if apiKey == [] then Err(Fail(ApiKeyMissingMessage))
    else if SignAuthMessage(ethereum).None? then Err(Fail(SignFailedMessage))
    else match response
      case Err(e) => Err(e)
      case Ok(data) =>
        if |data| == 0 then Ok(None)
        else
          DecryptUrlRoundTrip(data[0].hash);
          Ok(Some(UploadResult(data[0].hash, data[0].name, data[0].size, DecryptUrl(data[0].hash))))
  }

  /** What the outside world does for one file: how the wallet answers when
      asked to sign, what the SDK answers, and the percentages of the
      progress reports the SDK makes while uploading (whole numbers here). */
  datatype UploadService = UploadService(ethereum: Ethereum, response: Result<seq<FileData>>, progressReports: seq<int>)

  /** One file of a batch with what happens when it is uploaded. */
  datatype FileUpload = FileUpload(file: File, service: UploadService)

  /** An `onProgress(fileIndex, progress)` call. */
  datatype ProgressReport = ProgressReport(fileIndex: nat, percent: int)

  function Outcome(apiKey: string, upload: FileUpload): Result<Option<UploadResult>>
  {
    UploadEncryptedFile(apiKey, upload.service.ethereum, upload.service.response)
  }

  /** What a file adds to the batch's results: its result when the upload
      succeeds with one, nothing when it throws or gives `null`. */
  function Kept(apiKey: string, upload: FileUpload): seq<UploadResult>
  {
    var outcome := Outcome(apiKey, upload);
    if outcome.Ok? && outcome.value.Some? then [outcome.value.value] else []
  }

  /** The results of a batch, file by file. */
  function CollectResults(apiKey: string, uploads: seq<FileUpload>): seq<UploadResult>
    decreases |uploads|
  {
    if uploads == [] then []
    else CollectResults(apiKey, uploads[..|uploads| - 1]) + Kept(apiKey, uploads[|uploads| - 1])
  }

  /** The `onProgress` calls made while the file at `index` uploads: the
      SDK's progress reports, once signing has succeeded. */
  function ReportsFor(apiKey: string, index: nat, upload: FileUpload): seq<ProgressReport>
  {
    var reports := upload.service.progressReports;
    if apiKey != [] && SignAuthMessage(upload.service.ethereum).Some? then
      seq(|reports|, k requires 0 <= k < |reports| => ProgressReport(index, reports[k]))
    else []
  }

  /** Every `onProgress` call of a batch, in order. */
  function ProgressTrace(apiKey: string, uploads: seq<FileUpload>): seq<ProgressReport>
    decreases |uploads|
  {
    if uploads == [] then []
    else ProgressTrace(apiKey, uploads[..|uploads| - 1]) + ReportsFor(apiKey, |uploads| - 1, uploads[|uploads| - 1])
  }

  /** `uploadMultipleEncryptedFiles`: upload the files one at a time in
      index order, keeping each successful result and carrying on past
      every failure. */
  method UploadMultipleEncryptedFiles(apiKey: string, uploads: seq<FileUpload>)
    returns (results: seq<UploadResult>, progress: seq<ProgressReport>)
    ensures results == CollectResults(apiKey, uploads)
    ensures progress == ProgressTrace(apiKey, uploads)
  {
    results, progress := [], [];
    var i := 0;
    while i < |uploads|
      invariant 0 <= i <= |uploads|
      invariant results == CollectResults(apiKey, uploads[..i])
      invariant progress == ProgressTrace(apiKey, uploads[..i])
    {
      assert uploads[..i + 1][..i] == uploads[..i];
      progress := progress + ReportsFor(apiKey, i, uploads[i]);
      var result := Outcome(apiKey, uploads[i]);
      if result.Ok? && result.value.Some? {
        results := results + [result.value.value];
      }
      i := i + 1;
    }
    assert uploads[..|uploads|] == uploads;
  }

  /** At most one result per file. */
  lemma {:induction false} CollectResultsLength(apiKey: string, uploads: seq<FileUpload>)
    ensures |CollectResults(apiKey, uploads)| <= |uploads|
    decreases |uploads|
  {
    if uploads != [] {
      CollectResultsLength(apiKey, uploads[..|uploads| - 1]);
    }
  }

  /** The batch splits at any point: results keep the files' order. */
  lemma {:induction false} CollectResultsAppend(apiKey: string, front: seq<FileUpload>, back: seq<FileUpload>)
    ensures CollectResults(apiKey, front + back) == CollectResults(apiKey, front) + CollectResults(apiKey, back)
    decreases |back|
  {
    if back == [] {
      assert front + back == front;
    } else {
      var last := |back| - 1;
      assert (front + back)[..|front + back| - 1] == front + back[..last];
      CollectResultsAppend(apiKey, front, back[..last]);
    }
  }

  /** A file whose upload fails or gives `null` adds nothing. */
  lemma SkipsFailure(apiKey: string, uploads: seq<FileUpload>, failed: FileUpload)
    requires !(Outcome(apiKey, failed).Ok? && Outcome(apiKey, failed).value.Some?)
    ensures CollectResults(apiKey, uploads + [failed]) == CollectResults(apiKey, uploads)
  {
    assert (uploads + [failed])[..|uploads|] == uploads;
  }

  /** Every result comes from the upload of some file of the batch. */
  lemma {:induction false} ResultsComeFromFiles(apiKey: string, uploads: seq<FileUpload>, r: UploadResult)
    requires r in CollectResults(apiKey, uploads)
    ensures exists i :: 0 <= i < |uploads| && Outcome(apiKey, uploads[i]) == Ok(Some(r))
    decreases |uploads|
  {
    var last := |uploads| - 1;
    if r in CollectResults(apiKey, uploads[..last]) {
      ResultsComeFromFiles(apiKey, uploads[..last], r);
      var i :| 0 <= i < last && Outcome(apiKey, uploads[..last][i]) == Ok(Some(r));
      assert uploads[..last][i] == uploads[i];
    } else {
      assert Outcome(apiKey, uploads[last]) == Ok(Some(r));
    }
  }

  /** When every file uploads, the results are exactly the files' results,
      one for one. */
  lemma {:induction false} AllSucceed(apiKey: string, uploads: seq<FileUpload>)
    requires forall i :: 0 <= i < |uploads| ==> Outcome(apiKey, uploads[i]).Ok? && Outcome(apiKey, uploads[i]).value.Some?
    ensures |CollectResults(apiKey, uploads)| == |uploads|
    ensures forall i :: 0 <= i < |uploads| ==> CollectResults(apiKey, uploads)[i] == Outcome(apiKey, uploads[i]).value.value
    decreases |uploads|
  {
    if uploads != [] {
      var last := |uploads| - 1;
      var front := uploads[..last];
      assert forall i :: 0 <= i < last ==> front[i] == uploads[i];
      AllSucceed(apiKey, front);
      var outcome := Outcome(apiKey, uploads[last]);
      var results := CollectResults(apiKey, uploads);
      assert results == CollectResults(apiKey, front) + [outcome.value.value];
      forall i | 0 <= i < |uploads| ensures results[i] == Outcome(apiKey, uploads[i]).value.value {
        if i < last {
          assert results[i] == CollectResults(apiKey, front)[i];
        }
      }
    }
  }

  /** Progress is reported file by file: every call names a file of the
      batch, and the indices never go back. */
  lemma {:induction false} ProgressInFileOrder(apiKey: string, uploads: seq<FileUpload>)
    ensures forall k :: 0 <= k < |ProgressTrace(apiKey, uploads)| ==> ProgressTrace(apiKey, uploads)[k].fileIndex < |uploads|
    ensures forall j, k :: 0 <= j <= k < |ProgressTrace(apiKey, uploads)| ==>
              ProgressTrace(apiKey, uploads)[j].fileIndex <= ProgressTrace(apiKey, uploads)[k].fileIndex
    decreases |uploads|
  {
    if uploads != [] {
      var last := |uploads| - 1;
      ProgressInFileOrder(apiKey, uploads[..last]);
      var front, tail := ProgressTrace(apiKey, uploads[..last]), ReportsFor(apiKey, last, uploads[last]);
      assert forall k :: 0 <= k < |tail| ==> tail[k].fileIndex == last;
      var trace := front + tail;
      assert ProgressTrace(apiKey, uploads) == trace;
      assert forall k :: 0 <= k < |front| ==> front[k].fileIndex < last;
      assert forall k :: 0 <= k < |trace| ==> trace[k] == if k < |front| then front[k] else tail[k - |front|];
    }
  }

  /** `isWalletConnected`. */
  function IsWalletConnected(ethereum: Ethereum): (connected: bool)
    ensures connected <==> ethereum != Absent
  {
    ethereum.Present?
  }

  /** `getCurrentWalletAddress`: the first of `eth_accounts`, or `null`
      without a wallet, on an error, or for an empty list. */
  function GetCurrentWalletAddress(ethereum: Ethereum): (address: Option<string>)
    ensures address.Some? <==> ethereum.Present? && ethereum.accounts.Ok? && |ethereum.accounts.value| > 0
    ensures address.Some? ==> address.value == ethereum.accounts.value[0]
  {
    if ethereum.Absent? || ethereum.accounts.Err? || |ethereum.accounts.value| == 0 then None
    else Some(ethereum.accounts.value[0])
  }
}
