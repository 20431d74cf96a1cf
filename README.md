# RWA tokenization marketplace — a Dafny model of its front-end logic

The application is a React front end for tokenized real-world assets. Owners
list an asset with images and documents, which are encrypted and stored with
Lighthouse. Buyers browse and filter the marketplace, pass an identity check,
and pay for RWA tokens in USDT on an EVM chain. This project models the
logic of that front end and proves what it does:

- `contracts.dfy` (`Contracts`): the two-phase purchase flow. It checks for
  a wallet, converts USD to 6-decimal USDT units, reads the balance and the
  allowance, approves only when the allowance is short, then calls
  `buyTokens(0, amount)` and reports progress. The USDT token and the sale
  contract are one ledger class (`UsdtLedger`) holding a balance map, an
  allowance map and the log of transactions that reached the chain. Each
  ledger method is proved equal to a specification function over a `Chain`
  value, and the lemmas about the flow are stated on those functions. The
  module also holds the classification of a transaction receipt.
- `marketplace.dfy` (`Marketplace`): the asset filter (search, category,
  price range), the total-value badge, and the state of the verification
  dialog (`MarketplacePage`).
- `create_asset.dfy` (`CreateAsset`): the upload validators, the file lists
  of the listing form and their editing, the progress map keyed
  `type-index`, and the order of the submit handler's steps (`AssetForm`).
- `lighthouse.dfy` (`Lighthouse`): one encrypted upload with its guards and
  result mapping, and the sequential batch loop that keeps the successful
  results in order.
- `asset_contract.dfy` (`AssetContract`): the payload for `listAsset`, with
  two amounts scaled by 10^18, the token-id fallback, `checkAllowance`, and
  the network switch (the chain id in hexadecimal, as EIP-3326's
  `wallet_switchEthereumChain` takes it; error 4902).
- `connect_wallet.dfy` (`ConnectWallet`): address abbreviation, the
  component's two branches and the copy feedback.
- Shared modules:
  - `digits.dfy` (`Digits`): positional notation in bases 2–16.
  - `text.dfy` (`Text`): the JavaScript string operations used:
    `indexOf`, `includes`, `toLowerCase`, `split`, `replace` and `parseInt`.
  - `units.dfy` (`Units`): ethers' `parseUnits` / `formatUnits`, with
    their round trip.
  - `common.dfy` (`Common`): `Option`, `Result` and the error value.

Wallets, the chain, the Lighthouse SDK and the clipboard are oracles. What
each call returns or throws is a parameter (`Env`, `Submission`, `Ethereum`,
`UploadService`, `Result` values); none of it is computed. Every `await` is
one sequential step. A thrown JavaScript `Error` is the value `Error(message,
code)`, and "rethrown unchanged" means the same value comes back.

## Model

| member | source | states |
|---|---|---|
| Contracts.GetProviderAndSigner | src/lib/contracts.ts:22-33 | without an injected wallet it throws "Please install MetaMask or another Web3 wallet"; otherwise the signer request's outcome (its address or its error) |
| Contracts.ConvertUsdToUsdt | src/lib/contracts.ts:115-117 | the conversion fails only with ethers' two errors: not a decimal number, or too many decimals; a non-zero result is negative exactly when the string starts with "-" |
| Contracts.FormatUsdtAmount | src/lib/contracts.ts:120-122 | the formatted amount is never empty and starts with "-" exactly when the amount is negative |
| Contracts.ConvertWholeDollars | src/lib/contracts.ts:115-117 | a whole-dollar amount becomes exactly dollars × 1 000 000 USDT units |
| Contracts.ConvertDollarsAndCents | src/lib/contracts.ts:115-117 | `W.F` with at most six fraction digits becomes W·10^6 + F·10^(6−k) for k fraction digits: exact, nothing rounded |
| Contracts.ConvertRefusesSubMicroAmounts | src/lib/contracts.ts:115-117 | a non-zero seventh fraction digit makes the conversion fail instead of rounding |
| Contracts.FormatDenotesSameAmount | src/lib/contracts.ts:114-122 | `formatUSDTAmount` of a converted amount converts back to the same amount (decoder of the encoder) |
| Contracts.Chain.Execute | src/lib/contracts.ts:67-73 | executing a call changes balances and allowances only; the transaction log is untouched |
| Contracts.ApproveSetsAllowance | src/lib/contracts.ts:61-78 | a mined `approve` sets exactly the (signer, spender) allowance to the amount; every other allowance and all balances stay |
| Contracts.BuyMovesFunds | src/lib/contracts.ts:81-98 | a mined purchase debits the buyer by the amount, credits the sale contract by the amount, and leaves every other balance unchanged |
| Contracts.PurchaseNeedsWallet | src/lib/contracts.ts:22-25 | without a wallet or signer, or with an amount the conversion refuses, the flow fails before any read, submission or progress report; otherwise it continues with the signer's address and the converted amount |
| Contracts.PurchaseStopsOnShortBalance | src/lib/contracts.ts:139-142 | a short balance fails after "checking" with the error naming the required and available amounts, and nothing is submitted |
| Contracts.PurchaseWithAllowance | src/lib/contracts.ts:159-166 | with enough allowance no approve is sent and at most one `buyTokens(0, amount)` is; the approval hash is ""; success iff the purchase is mined; each failure is rethrown as it is |
| Contracts.PurchaseWithApproval | src/lib/contracts.ts:145-158 | with a short allowance exactly one `approve(sale contract, amount)` is sent; the purchase is sent only after the approval is mined; both hashes are returned; each failure is rethrown as it is |
| Contracts.PurchaseProgress | src/lib/contracts.ts:136-160 | the progress trace is one of [checking], [checking, approving], [checking, approving, purchasing] or [checking, purchasing]: checking is always first and purchasing, when reported, last |
| Contracts.ApprovingReported | src/lib/contracts.ts:147-148 | "approving" is reported iff both reads succeed, the balance covers the amount and the allowance does not |
| Contracts.GetTransactionStatus | src/lib/contracts.ts:174-200 | the status is pending iff there is no receipt; confirmed with its block number and gas used iff the status is 1; failed on any other status and on any error |
| Contracts.UsdtLedger.Submit | src/lib/contracts.ts:67-70 | the ledger after signing, broadcasting and waiting is `SubmitTo` of the old ledger |
| Contracts.UsdtLedger.GetUsdtBalance | src/lib/contracts.ts:101-112 | the wallet guard, then `balanceOf(user)` of the current ledger |
| Contracts.UsdtLedger.CheckUsdtAllowance | src/lib/contracts.ts:48-58 | the wallet guard, then `allowance(owner, spender)` of the current ledger |
| Contracts.UsdtLedger.ApproveUsdt | src/lib/contracts.ts:61-78 | the new ledger and result are `ApproveOn` of the old ledger |
| Contracts.UsdtLedger.BuyRwaTokens | src/lib/contracts.ts:81-98 | the new ledger and result are `BuyOn` of the old ledger |
| Contracts.UsdtLedger.PurchaseRwaTokens | src/lib/contracts.ts:125-171 | result, progress trace and new ledger are `PurchaseOn` of the old ledger |
| Contracts.UsdtLedger.PurchaseAsUser | src/lib/contracts.ts:136-166 | result, progress trace and new ledger after the conversion are `PurchaseUnits` of the old ledger |
| Marketplace.FilteredAssets | src/pages/Marketplace.tsx:177-193 | an asset is in the result iff it is in the input and matches search, category and price; the result is no longer than the input |
| Marketplace.FilteredAssetsAppend | src/pages/Marketplace.tsx:177 | filtering a concatenation is the concatenation of the filtered parts: the original order is kept |
| Marketplace.EmptySearchMatchesAll | src/pages/Marketplace.tsx:178-179 | an empty search term matches every asset |
| Marketplace.SearchMeaning | src/pages/Marketplace.tsx:178-179 | the search matches iff the lower-cased term occurs in the lower-cased title or description |
| Marketplace.PriceRangeMeaning | src/pages/Marketplace.tsx:182-190 | "all" keeps every price; "lo-hi" keeps exactly lo ≤ price ≤ hi; "lo+" keeps exactly price ≥ lo |
| Marketplace.TotalValue | src/pages/Marketplace.tsx:267 | the fold of an empty list is 0, and the badge is never negative when no asset has a negative worth |
| Marketplace.BadgeTotal | src/pages/Marketplace.tsx:267 | the badge's left fold of price × tokenSupply over the filtered assets equals the sum over exactly the assets the filters keep |
| Marketplace.FindAsset | src/pages/Marketplace.tsx:145-146 | `None` iff no asset has the id; otherwise the first asset with that id |
| Marketplace.AddressLabel | src/pages/Marketplace.tsx:347 | "Not Connected" without an address; otherwise the same abbreviation as the wallet button |
| Marketplace.MarketplacePage.HandleBuy | src/pages/Marketplace.tsx:135-149 | when not connected nothing changes; otherwise the found asset (or none) is selected, verification is reset and the dialog opens |
| Marketplace.MarketplacePage.BuyNowEnabled | src/pages/Marketplace.tsx:352-359 | Buy Now is enabled exactly when the verification flag is set |
| Marketplace.MarketplacePage.HandleVerificationError | src/pages/Marketplace.tsx:159-165 | a failed identity check shows the destructive "Verification Failed" notice and changes no page state, so Buy Now stays as it was |
| Marketplace.MarketplacePage.HandleSuccessfulVerification | src/pages/Marketplace.tsx:151-157 | Buy Now becomes enabled |
| Marketplace.MarketplacePage.SetModalOpen | src/pages/Marketplace.tsx:293 | the dialog's open flag follows the request; nothing else changes |
| Marketplace.MarketplacePage.HandlePurchase | src/pages/Marketplace.tsx:167-175 | the dialog closes, the selection is cleared and verification is reset |
| Marketplace.MarketplacePage.ClickBuyNow | src/pages/Marketplace.tsx:352-359 | the click reaches `HandlePurchase` only while verified; otherwise nothing changes |
| CreateAsset.ImageRejection | src/pages/CreateAsset.tsx:29-47 | an image is accepted iff size ≤ 10 MiB and the type starts with "image/"; the size is checked first, and each refusal names the file |
| CreateAsset.DocumentRejection | src/pages/CreateAsset.tsx:56-75 | a document is accepted iff size ≤ 25 MiB and the type is PDF, DOC or DOCX; the size is checked first |
| CreateAsset.AcceptedMeaning | src/pages/CreateAsset.tsx:29-47 | a file is kept iff it is an input file the validator accepts; every file is either kept or reported |
| CreateAsset.AcceptedAppend | src/pages/CreateAsset.tsx:28-29 | validating a concatenation validates each part in order: input order is kept |
| CreateAsset.DropPositionMeaning | src/pages/CreateAsset.tsx:122-130 | removing index i gives s[..i] + s[i+1..]; an index out of range changes nothing |
| CreateAsset.DropPositionIndex | src/pages/CreateAsset.tsx:123 | after a removal, elements before the index keep their position and those after it move down by one |
| CreateAsset.DropPositionAligned | src/pages/CreateAsset.tsx:122-130 | two lists of equal length stay of equal length and aligned element by element after the same removal |
| CreateAsset.ProgressKeyInjective | src/pages/CreateAsset.tsx:87 | distinct (type, index) pairs have distinct progress keys |
| CreateAsset.ApplyReportsWithin | src/pages/CreateAsset.tsx:86-89 | progress reports about the first n files touch only those files' keys |
| CreateAsset.ListingStepsShape | src/pages/CreateAsset.tsx:168-216 | a submit uploads exactly the non-empty lists, images first, and ends with one `listAsset(1, parseInt(token-supply))` after every upload |
| CreateAsset.SubmitProgressOtherKeys | src/pages/CreateAsset.tsx:175-202 | the submit's progress reports leave every key other than its own files' keys unchanged |
| CreateAsset.AssetForm.HandleImageUpload | src/pages/CreateAsset.tsx:27-52 | the accepted images are appended after the existing ones, in input order; one notice per refused file |
| CreateAsset.AssetForm.HandleDocumentUpload | src/pages/CreateAsset.tsx:54-80 | the accepted documents are appended after the existing ones, in input order; one notice per refused file |
| CreateAsset.AssetForm.RemoveImage | src/pages/CreateAsset.tsx:122-125 | the same index leaves both image lists |
| CreateAsset.AssetForm.RemoveDocument | src/pages/CreateAsset.tsx:127-130 | the same index leaves both document lists |
| CreateAsset.AssetForm.RecordProgress | src/pages/CreateAsset.tsx:86-89 | each report sets its `type-index` key, report after report |
| CreateAsset.AssetForm.ClearProgress | src/pages/CreateAsset.tsx:103-108 | exactly the keys `type-k` for k below the file count are deleted |
| CreateAsset.AssetForm.UploadFilesToLighthouse | src/pages/CreateAsset.tsx:82-120 | the batch's results are appended to its kind's list only; the progress map ends as before minus the batch's keys; `isUploading` ends false |
| CreateAsset.AssetForm.SubmitListing | src/pages/CreateAsset.tsx:161-231 | the outside calls are `ListingSteps`; a successful listing empties the four lists and the progress map; a failed one keeps the lists and leaves the upload reports |
| CreateAsset.AssetForm.HandleSubmit | src/pages/CreateAsset.tsx:146-243 | without a wallet nothing is uploaded, listed or changed; `isLoading` is false on every exit |
| Lighthouse.SignAuthMessage | src/lib/lighthouse.ts:23-47 | a signature is returned iff there is a wallet, a first account, an auth message and a signature; it is signed by the first account |
| Lighthouse.DecryptUrlRoundTrip | src/lib/lighthouse.ts:95 | the decrypt URL names the file's hash: the hash is read back from it |
| Lighthouse.UploadEncryptedFile | src/lib/lighthouse.ts:56-110 | a missing API key throws before signing; a failed signature throws; an SDK error is rethrown; null iff the answer is empty; a non-empty answer gives a result, and that result is the first entry with its decrypt URL |
| Lighthouse.UploadMultipleEncryptedFiles | src/lib/lighthouse.ts:113-138 | the loop's results and progress calls are `CollectResults` and `ProgressTrace` of the files in index order |
| Lighthouse.CollectResultsLength | src/lib/lighthouse.ts:117-137 | at most one result per file |
| Lighthouse.CollectResultsAppend | src/lib/lighthouse.ts:119-130 | the results of a split batch are the results of each part, in order |
| Lighthouse.SkipsFailure | src/lib/lighthouse.ts:128-134 | a file whose upload throws or gives null adds nothing |
| Lighthouse.ResultsComeFromFiles | src/lib/lighthouse.ts:128-130 | every result is the upload result of some file of the batch |
| Lighthouse.AllSucceed | src/lib/lighthouse.ts:119-137 | when every upload succeeds, result i is file i's result |
| Lighthouse.ProgressInFileOrder | src/lib/lighthouse.ts:119-126 | every progress call names a file of the batch, and the file indices never decrease |
| Lighthouse.IsWalletConnected | src/lib/lighthouse.ts:141-143 | connected iff a wallet is injected |
| Lighthouse.GetCurrentWalletAddress | src/lib/lighthouse.ts:146-160 | the first account iff there is a wallet, the request succeeds and the list is non-empty; otherwise null |
| AssetContract.ToPayload | src/lib/contract.ts:74-86 | text fields and hash lists are copied; both amounts are `parseEther` of the form's strings and the supply is `BigInt` of its number; fields fail in order: an unparsable value, then a non-integer supply (the `RangeError`), then an unparsable minimum investment |
| AssetContract.PayloadScalesWholeValues | src/lib/contract.ts:81-83 | whole-ether amounts appear in the payload multiplied by 10^18 |
| AssetContract.PayloadAmountsRoundTrip | src/lib/contract.ts:81-83 | the payload's amounts format back to strings that parse to the same amounts |
| AssetContract.ToBigInt | src/lib/contract.ts:82 | `BigInt` of a number succeeds exactly for an integer, with its value; any other number gives the "cannot be converted to a BigInt" `RangeError` |
| AssetContract.FirstLogTokenId | src/lib/contract.ts:100 | a token id is read only from a first log whose event the contract's ABI declares, and then it is that log's `tokenId` |
| AssetContract.TokenIdOf | src/lib/contract.ts:100 | the first log's token id, or 0 when it is absent |
| AssetContract.ListAssetOnContract | src/lib/contract.ts:69-107 | wallet and payload errors come before sending; amounts outside `uint256` fail with "value out-of-bounds" before sending; the payload is sent iff all of these pass and the wallet broadcasts; success iff the transaction is mined, with the token id from the first log |
| AssetContract.ListingRefusesUnencodable | src/lib/contract.ts:91 | a negative supply, a negative value or a value of 2^256 wei or more fails with "value out-of-bounds" and nothing is sent |
| AssetContract.ListingTokenIdAlwaysZero | src/lib/contract.ts:26-46 | with the registry's ABI as written (no events), every successful listing reports token id 0 at line 100 |
| AssetContract.ListingReportsEmittedTokenId | src/lib/contract.ts:97-100 | with the listing event declared in the ABI, a listing whose first log is that event reports the token id the event carries |
| AssetContract.CheckAllowanceAsWritten | src/lib/contract.ts:110-122 | the check as written returns true only when the contract object has a `signer` and an `allowance` function |
| AssetContract.CheckAllowanceAlwaysRefuses | src/lib/contract.ts:112-120 | on the registry contract as built, the check as written returns false for every input |
| AssetContract.CheckAllowance | src/lib/contract.ts:110-122 | intended check: true iff the signer is available, the read succeeds and allowance ≥ parseEther(amount); false on any error |
| AssetContract.CheckAllowanceWholeEther | src/lib/contract.ts:117 | for a whole-ether amount the intended check compares against amount × 10^18 |
| AssetContract.GetCurrentNetwork | src/lib/contract.ts:138-146 | throws without a wallet; otherwise the chain id the wallet reports |
| AssetContract.ChainIdParamRoundTrip | src/lib/contract.ts:157 | the parameter is "0x" and lower-case hexadecimal digits without a leading zero that read back as the chain id |
| AssetContract.ChainIdParamInjective | src/lib/contract.ts:157 | distinct chain ids give distinct parameters |
| AssetContract.SwitchToCorrectNetwork | src/lib/contract.ts:149-166 | throws without a wallet; otherwise the switch request carries the hexadecimal chain id; code 4902 becomes the "add the network with chain ID N" error; any other error is rethrown as it is |
| ConnectWallet.FormatAddress | src/components/ConnectWallet.tsx:44-46 | the first six characters, "...", then the last four (the whole string on each side when shorter) |
| ConnectWallet.FormatFullAddress | src/components/ConnectWallet.tsx:45 | a 42-character address becomes 13 characters and keeps its "0x" |
| ConnectWallet.FormatAddressKeepsEnds | src/components/ConnectWallet.tsx:45 | equal abbreviations of addresses of ten or more characters mean equal first six and last four characters |
| ConnectWallet.ConnectWalletButton.Render | src/components/ConnectWallet.tsx:48-97 | the account branch is taken iff connected with an address; the Connect button is disabled iff loading; the error line shows iff there is an error |
| ConnectWallet.ConnectWalletButton.HandleCopyAddress | src/components/ConnectWallet.tsx:24-42 | without an address nothing changes; otherwise `copied` turns on iff the clipboard write succeeds |
| ConnectWallet.ConnectWalletButton.CopyTimerElapsed | src/components/ConnectWallet.tsx:33 | `copied` turns off |
| Units.ParseUnits | src/lib/contracts.ts:116 | a string outside the decimal grammar gives "invalid FixedNumber string value"; the only other error is "too many decimals for format"; a non-zero result is negative exactly when the string starts with "-" |
| Units.FormatUnits | src/lib/contracts.ts:121 | the written amount is never empty and starts with "-" exactly when the amount is negative |
| Units.LexWritten | src/lib/contracts.ts:116 | every well-formed decimal string reads back as its sign, whole digits and fraction digits |
| Units.FormatParseRoundTrip | src/lib/contracts.ts:116-121 | `parseUnits(formatUnits(v, d), d) == v` for every integer v |
| Units.ParseWholeNumber | src/lib/contract.ts:81-83 | a whole number n parses to n × 10^decimals |
| Units.ParseWithFraction | src/lib/contracts.ts:116 | `W.F` with at most `decimals` fraction digits parses to W·10^d + F·10^(d−k) for k fraction digits |
| Units.ParseRefusesExtraDigits | src/lib/contracts.ts:116 | a non-zero digit beyond `decimals` places is refused |
| Units.FractionDigitsValue | src/lib/contracts.ts:121 | the fraction `formatUnits` writes is 1 to `decimals` digits that denote the remainder |
| Units.TrimTrailingZerosShape | src/lib/contracts.ts:121 | trimming drops only trailing zeros and keeps at least one character |
| Digits.ToBaseRoundTrip | src/lib/contract.ts:157 | `toString(base)` is a non-empty digit string with no leading zero that reads back as the number |
| Digits.ToBaseInjective | src/lib/contract.ts:157 | distinct numbers have distinct renderings |
| Digits.FromBaseAppend | src/lib/contracts.ts:116 | reading a concatenation shifts the left part by the length of the right part |
| Digits.PadLeftValue | src/lib/contracts.ts:121 | left padding with zeros keeps the value |
| Text.IndexOfFirst | src/pages/Marketplace.tsx:184 | `indexOf` returns the first occurrence, or the length when there is none |
| Text.IncludesMeaning | src/pages/Marketplace.tsx:178-179 | `includes` holds iff the term occurs at some index |
| Text.SplitPair | src/pages/Marketplace.tsx:184 | "a-b" with separator-free parts splits into [a, b] |
| Text.SplitWithout | src/pages/Marketplace.tsx:184 | a string without the separator splits into itself |
| Text.ParseInt | src/pages/Marketplace.tsx:186-188 | `NaN` (`None`) exactly when no decimal digit follows the optional sign; the result is never negative without a leading "-" and never positive after one |
| Text.ParseIntDecimal | src/pages/Marketplace.tsx:186-188 | `parseInt` reads back every decimal numeral |

## Left out

- Rendering, styling, routing, toasts and `console` output are not modelled. A toast is modelled only where it is the outcome of a check or the whole effect of a handler (`Notice`, `Toast`).
- Floating point is not modelled:
  - `pricePerToken` (src/pages/CreateAsset.tsx:165);
  - `percentageDone` (src/lib/lighthouse.ts:51, 76); the SDK's progress values arrive as whole numbers;
  - the `number.toString()` step of `convertUSDToUSDT` (src/lib/contracts.ts:116) and of `totalValue` and `minInvestment` in `listAssetOnContract` (src/lib/contract.ts:81, 83). Each amount enters as the decimal string that step would produce.
- Contracts.ConvertUsdToUsdt: the conversion takes a decimal string, not a JavaScript number, so exponent notation (`1e21`) is not covered.
- The ethers, MetaMask, Lighthouse and Self SDK internals are not modelled. Their answers and errors are parameters. `SelfAppBuilder` (src/pages/Marketplace.tsx:108-133) is left out; its outcome reaches the page only through the two verification handlers.
- Contracts.BuyMovesFunds: the RWA sale contract's code is not part of this model. `buyTokens(0, amount)` is modelled as an EIP-20 `transferFrom` of the amount from the buyer to the sale contract; the asset index 0 is recorded but has no effect.
- Contracts.PurchaseUnits: the balance and allowance reads go through a fixed Core Testnet2 RPC provider (src/lib/contracts.ts:28, 50-51, 103-104), while `approve` and `buyTokens` are signed and sent through the wallet's provider on whatever network the wallet is on (src/lib/contracts.ts:29-30, 37-44). The model assumes the wallet is on Core Testnet2, so both act on one ledger (`Chain`); a wallet on another network, where the reads and the writes reach different ledgers, is not modelled. The same holds for `Contracts.PurchaseOn` and the lemmas about the purchase flow.
- Error messages: `Contracts.OutOfBoundsMessage`, `Units.InvalidValueMessage` and `Units.TooManyDecimalsMessage` are the short messages of ethers' errors. The thrown `message` also carries the argument, the value, the error code and the library version, which are not modelled.
- Contracts.PurchaseOn: the source asks for the signer's address before converting the amount. Both steps are pure here, so only their failure order matters, and the model keeps it.
- Units.FormatParseRoundTrip: ethers' `FixedNumber` width limit is not modelled; amounts are unbounded integers. The only bound kept is the ABI's `uint256` range on every submitted amount: `Contracts.Encodable` for `approve` and `buyTokens`, `AssetContract.PayloadEncodable` for `listAsset`.
- AssetContract.ToPayload: the supply is a JavaScript number seen only as `BigInt` sees it (an integer, or not); a non-integer is carried as its `toString()` text, not as a floating-point value.
- AssetContract.ChainIdParam: the target chain id is a natural number. A negative or fractional JavaScript number would give a "-" or a "." in `toString(16)`; no caller passes one.
- Marketplace: `Asset.price` and `Asset.tokenSupply` are integers, while the source's fields are JavaScript numbers. The listed assets are whole numbers, but a fractional price or supply is not modelled.
- Text.ParseInt: `parseInt`'s leading whitespace, `0x` prefix and radix guessing are not modelled. Only an optional sign and decimal digits are read, which covers the price-range strings and numeric form fields.
- Text.ToLower: only ASCII letters are lower-cased; other Unicode case mappings are not modelled.
- Lighthouse.UploadEncryptedFile: an unset API key is the empty string. The `import.meta.env` lookup is not modelled.
- CreateAsset.AssetForm.UploadFilesToLighthouse: the `catch` branch is not modelled, because the batch upload never throws (each file's error is caught inside it). The method's frame excludes `isLoading`, so that flag is unchanged.
- CreateAsset: `listAsset` is imported from a module that does not export it (src/pages/CreateAsset.tsx:13, 216). It is an opaque call whose outcome is a parameter. The drag-and-drop handlers (src/pages/CreateAsset.tsx:132-144) only forward to the upload handlers.
- AssetContract: `approveTokens` (src/lib/contract.ts:125-135) is not modelled; nothing in the modelled pages calls it. The `tokenAddress` argument of `checkAllowance` is unused by the source and is dropped.
- Not part of this model: src/pages/Portfolio.tsx, src/pages/Analytics.tsx and src/pages/Home.tsx (display-only aggregates over mock data), src/components/Navigation.tsx, src/components/AssetCard.tsx and contracts/scripts/deploy.ts.
- Concurrency and React's batching of state updates are not modelled. Each handler runs to completion as one method, and each `setX(prev => …)` is an assignment in program order.

## Findings

| source | as written | input that shows it | evidently intended | confidence | as-written member | corrected member |
|---|---|---|---|---|---|---|
| src/lib/contract.ts:110-122 | `checkAllowance` reads `contract.signer.getAddress()` and calls `contract.allowance(...)` on a contract built with ethers v6 (`BrowserProvider`). That object has no `signer` property (v6 calls it `runner`), and its ABI lists only `listAsset`. The first access throws, and the `catch` returns `false`. | any wallet, any allowance, and amount "1" with an allowance of 10^30 wei: the result is `false` | `true` iff the signer's allowance covers `parseEther(amount)`, `false` on a real error | not executed | AssetContract.CheckAllowanceAsWritten, AssetContract.CheckAllowanceAlwaysRefuses | AssetContract.CheckAllowance, AssetContract.CheckAllowanceWholeEther |
| src/lib/contract.ts:100 | `listAssetOnContract` reads the token id from `receipt.logs[0]?.args?.tokenId`. ethers decodes a log's `args` only for an event in the contract's ABI, and the registry's ABI declares no event. No log has `args`, so the fallback `"0"` is returned. | a mined listing whose first log is an event carrying `tokenId` 7: the result is 0 | the token id the listing event carries, with that event declared in the ABI | not executed | AssetContract.ListingTokenIdAlwaysZero | AssetContract.ListingReportsEmittedTokenId |
