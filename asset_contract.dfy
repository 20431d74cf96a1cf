/** `src/lib/contract.ts`: listing an asset on the asset-registry contract,
    its allowance check and the wallet's network switch. The wallet, the
    contract and the chain are oracles. */
module AssetContract {
  import opened Common
  import opened Digits
  import opened Units
  import Contracts

  /** `ethers.parseEther`: 18 decimals. */
  const EtherDecimals: nat := 18
  const UnknownChainCode: int := 4902

  /** A JavaScript number as `BigInt` sees it: an integer, or any other
      number (a fraction, `NaN`, an infinity), kept as `toString()` shows it. */
  datatype JsNumber = Integral(value: int) | NonIntegral(shown: string)

  /** The `RangeError` `BigInt` throws for a number that is not an integer. */
  function NotIntegerMessage(shown: string): string
  {
    "The number " + shown + " cannot be converted to a BigInt because it is not an integer"
  }

  /** `BigInt(n)` of a number: its value, or a `RangeError`. */
  function ToBigInt(n: JsNumber): (r: Result<int>)
    ensures r.Ok? <==> n.Integral?
    ensures n.Integral? ==> r.value == n.value
    ensures n.NonIntegral? ==> r.error == Fail(NotIntegerMessage(n.shown))
  {
    match n
    case Integral(v) => Ok(v)
    case NonIntegral(shown) => Err(Fail(NotIntegerMessage(shown)))
  }

  /** The form's data (`AssetData`); `totalValue` and `minInvestment` are the
      decimal strings of the numbers (`toString()`). */
  datatype AssetData = AssetData(
    title: string, description: string, category: string, location: string,
    tokenName: string, tokenSymbol: string,
    totalValue: string, tokenSupply: JsNumber, minInvestment: string,
    imageHashes: seq<string>, documentHashes: seq<string>)

  /** The tuple passed to `listAsset`. */
  datatype ListingPayload = ListingPayload(
    title: string, description: string, category: string, location: string,
    tokenName: string, tokenSymbol: string,
    totalValue: int, tokenSupply: int, minInvestment: int,
    imageHashes: seq<string>, documentHashes: seq<string>)

  /** The three amounts fit the tuple's `uint256` fields, as ethers' ABI
      coder demands before anything is sent. */
  predicate PayloadEncodable(p: ListingPayload)
  {
    Contracts.Encodable(p.totalValue) && Contracts.Encodable(p.tokenSupply) && Contracts.Encodable(p.minInvestment)
  }

  /** `getContract`: the wallet guard, then the signer. */
  function GetContract(wallet: Contracts.Wallet): Result<Contracts.Address>
  {
    Contracts.GetProviderAndSigner(wallet)
  }

  /** The payload built from the form: text and hash lists copied, the two
      amounts scaled to 18 decimals, the supply through `BigInt`; the fields
      are evaluated in order and the first that fails throws. */
  function ToPayload(data: AssetData): (r: Result<ListingPayload>)
    ensures r.Ok? <==>
              ParseUnits(data.totalValue, EtherDecimals).Ok? && data.tokenSupply.Integral?
              && ParseUnits(data.minInvestment, EtherDecimals).Ok?
    ensures ParseUnits(data.totalValue, EtherDecimals).Err? ==> r == Err(ParseUnits(data.totalValue, EtherDecimals).error)
    ensures ParseUnits(data.totalValue, EtherDecimals).Ok? && data.tokenSupply.NonIntegral? ==>
              r == Err(Fail(NotIntegerMessage(data.tokenSupply.shown)))
    ensures ParseUnits(data.totalValue, EtherDecimals).Ok? && data.tokenSupply.Integral?
            && ParseUnits(data.minInvestment, EtherDecimals).Err? ==>
              r == Err(ParseUnits(data.minInvestment, EtherDecimals).error)
    ensures r.Ok? ==>
              var p := r.value;
              p.title == data.title && p.description == data.description && p.category == data.category
              && p.location == data.location && p.tokenName == data.tokenName && p.tokenSymbol == data.tokenSymbol
              && p.tokenSupply == data.tokenSupply.value
              && p.imageHashes == data.imageHashes && p.documentHashes == data.documentHashes
              && Ok(p.totalValue) == ParseUnits(data.totalValue, EtherDecimals)
              && Ok(p.minInvestment) == ParseUnits(data.minInvestment, EtherDecimals)
  {
    var totalValue := ParseUnits(data.totalValue, EtherDecimals);
    if totalValue.Err? then Err(totalValue.error)
    else
      var tokenSupply := ToBigInt(data.tokenSupply);
      if tokenSupply.Err? then Err(tokenSupply.error)
      else
        var minInvestment := ParseUnits(data.minInvestment, EtherDecimals);
        if minInvestment.Err? then Err(minInvestment.error)
        else Ok(ListingPayload(data.title, data.description, data.category, data.location,
                               data.tokenName, data.tokenSymbol,
                               totalValue.value, tokenSupply.value, minInvestment.value,
                               data.imageHashes, data.documentHashes))
  }

  /** A value in whole ether is that many times `10^18` in the payload. */
  lemma PayloadScalesWholeValues(data: AssetData, totalValue: nat, minInvestment: nat)
    requires data.totalValue == Decimal(totalValue) && data.minInvestment == Decimal(minInvestment)
    requires data.tokenSupply.Integral?
    ensures ToPayload(data).Ok?
    ensures ToPayload(data).value.totalValue == totalValue * Pow(10, EtherDecimals)
    ensures ToPayload(data).value.minInvestment == minInvestment * Pow(10, EtherDecimals)
  {
    ParseWholeNumber(totalValue, EtherDecimals);
    ParseWholeNumber(minInvestment, EtherDecimals);
  }

  /** The payload's amounts read back, with `formatEther`, as the form's
      amounts: no value is rounded on the way to the contract. */
  lemma PayloadAmountsRoundTrip(data: AssetData)
    requires ToPayload(data).Ok?
    ensures ParseUnits(FormatUnits(ToPayload(data).value.totalValue, EtherDecimals), EtherDecimals)
            == ParseUnits(data.totalValue, EtherDecimals)
    ensures ParseUnits(FormatUnits(ToPayload(data).value.minInvestment, EtherDecimals), EtherDecimals)
            == ParseUnits(data.minInvestment, EtherDecimals)
  {
    FormatParseRoundTrip(ToPayload(data).value.totalValue, EtherDecimals);
    FormatParseRoundTrip(ToPayload(data).value.minInvestment, EtherDecimals);
  }

  /** The `Contract` object `getContract` builds, as far as this module uses
      it: whether it has a `signer` property (ethers v6 names the signer
      `runner` and has none), and the functions and events of its ABI. */
  datatype ContractObject = ContractObject(hasSignerProperty: bool, abiFunctions: set<string>, abiEvents: set<string>)

  /** The registry contract as built: ethers v6, an ABI with the function
      `listAsset` and no event. */
  const RegistryContract := ContractObject(false, {"listAsset"}, {})

  /** A log of the listing's receipt: the event it records and that event's
      `tokenId` argument, if it has one. */
  datatype ReceiptLog = ReceiptLog(event: string, tokenId: Option<nat>)

  /** `receipt.logs[0]?.args?.tokenId`: ethers decodes the `args` of a log
      only when the contract's ABI declares its event; any other log has no
      `args`. */
  function FirstLogTokenId(contract: ContractObject, logs: seq<ReceiptLog>): (tokenId: Option<nat>)
    ensures tokenId.Some? ==> |logs| > 0 && logs[0].event in contract.abiEvents && logs[0].tokenId == tokenId
    ensures |logs| > 0 && logs[0].event in contract.abiEvents ==> tokenId == logs[0].tokenId
  {
    if |logs| > 0 && logs[0].event in contract.abiEvents then logs[0].tokenId else None
  }

  /** `... || "0"`: the first log's token id; a missing one, or a zero
      (falsy) one, gives zero. */
  function TokenIdOf(firstLogTokenId: Option<nat>): (tokenId: nat)
    ensures firstLogTokenId.Some? ==> tokenId == firstLogTokenId.value
    ensures firstLogTokenId.None? ==> tokenId == 0
  {
    match firstLogTokenId
    case Some(id) => id
    case None => 0
  }

  /** The outcome of `listAssetOnContract`: the payload it sent (when it got
      that far) and its result. */
  datatype Listing = Listing(sent: Option<ListingPayload>, result: Result<nat>)

  /** `listAssetOnContract(assetData)` against `contract`: wallet guard,
      payload, `listAsset` (whose arguments ethers encodes before sending),
      wait for the receipt, token id from its first log; every error is
      rethrown as it is. */
  function ListAssetOnContract(wallet: Contracts.Wallet, contract: ContractObject, data: AssetData,
                               submission: Contracts.Submission, logs: seq<ReceiptLog>): (listing: Listing)
    ensures GetContract(wallet).Err? ==> listing == Listing(None, Err(GetContract(wallet).error))
    ensures GetContract(wallet).Ok? && ToPayload(data).Err? ==> listing == Listing(None, Err(ToPayload(data).error))
    ensures GetContract(wallet).Ok? && ToPayload(data).Ok? && !PayloadEncodable(ToPayload(data).value) ==>
              listing == Listing(None, Err(Fail(Contracts.OutOfBoundsMessage)))
    ensures listing.sent.Some? <==>
              GetContract(wallet).Ok? && ToPayload(data).Ok? && PayloadEncodable(ToPayload(data).value)
              && submission.Broadcast?
    ensures listing.sent.Some? ==> listing.sent.value == ToPayload(data).value
    ensures listing.result.Ok? <==>
              GetContract(wallet).Ok? && ToPayload(data).Ok? && PayloadEncodable(ToPayload(data).value)
              && submission.Broadcast? && submission.succeeds
    ensures listing.result.Ok? ==> listing.result.value == TokenIdOf(FirstLogTokenId(contract, logs))
  {
    var signer := GetContract(wallet);
    if signer.Err? then Listing(None, Err(signer.error))
    else
      var payload := ToPayload(data);
      if payload.Err? then Listing(None, Err(payload.error))
      else if !PayloadEncodable(payload.value) then Listing(None, Err(Fail(Contracts.OutOfBoundsMessage)))
      else match submission
        case Rejected(e) => Listing(None, Err(e))
        case Broadcast(_, succeeds, revertError) =>
          Listing(Some(payload.value),
                  if succeeds then Ok(TokenIdOf(FirstLogTokenId(contract, logs))) else Err(revertError))
  }

  /** A negative supply, a negative value (`"-1"`, say) or a value of
      `2^256` wei or more never reaches the chain: the listing fails with
      the coder's error. */
  lemma ListingRefusesUnencodable(wallet: Contracts.Wallet, contract: ContractObject, data: AssetData,
                                  submission: Contracts.Submission, logs: seq<ReceiptLog>)
    requires GetContract(wallet).Ok? && ToPayload(data).Ok?
    requires || data.tokenSupply.value < 0
             || (data.totalValue[0] == '-' && ToPayload(data).value.totalValue != 0)
             || ToPayload(data).value.totalValue >= Contracts.Uint256Limit
    ensures ListAssetOnContract(wallet, contract, data, submission, logs)
            == Listing(None, Err(Fail(Contracts.OutOfBoundsMessage)))
  {
  }

  /** As written, the registry's ABI declares no event, so no log is
      decoded and every listing reports token id zero. */
  lemma ListingTokenIdAlwaysZero(wallet: Contracts.Wallet, data: AssetData, submission: Contracts.Submission,
                                 logs: seq<ReceiptLog>)
    requires ListAssetOnContract(wallet, RegistryContract, data, submission, logs).result.Ok?
    ensures ListAssetOnContract(wallet, RegistryContract, data, submission, logs).result.value == 0
  {
  }

  /** As evidently intended, with the listing event in the ABI: a mined
      listing whose first log is that event reports the token id it
      carries. */
  lemma ListingReportsEmittedTokenId(wallet: Contracts.Wallet, contract: ContractObject, data: AssetData,
                                     submission: Contracts.Submission, logs: seq<ReceiptLog>, tokenId: nat)
    requires ListAssetOnContract(wallet, contract, data, submission, logs).result.Ok?
    requires |logs| > 0 && logs[0].event in contract.abiEvents && logs[0].tokenId == Some(tokenId)
    ensures ListAssetOnContract(wallet, contract, data, submission, logs).result == Ok(tokenId)
  {
  }

  /** `checkAllowance(tokenAddress, amount)` as written: reading
      `contract.signer.getAddress` or calling `contract.allowance` on a
      contract without them throws, and any throw gives `false`. */
  function CheckAllowanceAsWritten(wallet: Contracts.Wallet, contract: ContractObject,
                                   allowanceRead: Result<nat>, amount: string): (approved: bool)
    ensures approved ==>
              contract.hasSignerProperty && "allowance" in contract.abiFunctions
              && GetContract(wallet).Ok? && allowanceRead.Ok? && ParseUnits(amount, EtherDecimals).Ok?
              && allowanceRead.value >= ParseUnits(amount, EtherDecimals).value
  {
    if GetContract(wallet).Err? || !contract.hasSignerProperty || "allowance" !in contract.abiFunctions then false
    else if allowanceRead.Err? then false
    else
      var wei := ParseUnits(amount, EtherDecimals);
      wei.Ok? && allowanceRead.value >= wei.value
  }

  /** As written, the check refuses even an allowance that covers the
      amount many times over. */
  lemma CheckAllowanceAlwaysRefuses(wallet: Contracts.Wallet, allowanceRead: Result<nat>, amount: string)
    ensures !CheckAllowanceAsWritten(wallet, RegistryContract, allowanceRead, amount)
  {
  }

  /** `checkAllowance` as evidently intended: the signer's allowance to the
      registry against `amount` in ether, `false` on any error. */
  function CheckAllowance(wallet: Contracts.Wallet, allowanceRead: Result<nat>, amount: string): (approved: bool)
    ensures approved <==>
              GetContract(wallet).Ok? && allowanceRead.Ok? && ParseUnits(amount, EtherDecimals).Ok?
              && allowanceRead.value >= ParseUnits(amount, EtherDecimals).value
  {
    if GetContract(wallet).Err? || allowanceRead.Err? then false
    else
      var wei := ParseUnits(amount, EtherDecimals);
      wei.Ok? && allowanceRead.value >= wei.value
  }

  /** With a whole-ether amount the intended check compares against the
      amount times `10^18`. */
  lemma CheckAllowanceWholeEther(wallet: Contracts.Wallet, allowance: nat, amount: nat)
    requires GetContract(wallet).Ok?
    ensures CheckAllowance(wallet, Ok(allowance), Decimal(amount)) <==> allowance >= amount * Pow(10, EtherDecimals)
  {
    ParseWholeNumber(amount, EtherDecimals);
  }

  /** `getCurrentNetwork`: the wallet guard, then the chain id it reports. */
  function GetCurrentNetwork(wallet: Contracts.Wallet, chainId: Result<nat>): (r: Result<nat>)
    ensures wallet.NoWallet? ==> r == Err(Fail(Contracts.NoWalletMessage))
    ensures wallet.Injected? ==> r == chainId
  {
    if wallet.NoWallet? then Err(Fail(Contracts.NoWalletMessage)) else chainId
  }

  /** The `chainId` parameter of `wallet_switchEthereumChain` (EIP-3326):
      `0x` and the lower-case hexadecimal digits. */
  function ChainIdParam(chainId: nat): string
  {
    "0x" + ToBase(chainId, 16)
  }

  /** The parameter names the chain: it reads back as the same number, its
      digits are lower-case hexadecimal with no leading zero, and distinct
      chains get distinct parameters. */
  lemma ChainIdParamRoundTrip(chainId: nat)
    ensures var param := ChainIdParam(chainId);
            |param| >= 3 && param[..2] == "0x" && AllDigits(param[2..], 16)
            && FromBase(param[2..], 16) == chainId
            && (param[2] == '0' ==> chainId == 0)
  {
    ToBaseRoundTrip(chainId, 16);
    assert ChainIdParam(chainId)[2..] == ToBase(chainId, 16);
  }

  lemma ChainIdParamInjective(m: nat, n: nat)
    requires ChainIdParam(m) == ChainIdParam(n)
    ensures m == n
  {
    ChainIdParamRoundTrip(m);
    ChainIdParamRoundTrip(n);
  }

  function UnknownChainMessage(chainId: nat): string
  {
    "Please add the network with chain ID " + Decimal(chainId) + " to your wallet"
  }

  /** The outcome of `switchToCorrectNetwork`: the `chainId` it asked the
      wallet for (when it asked) and its result. */
  datatype Switch = Switch(requested: Option<string>, result: Result<Unit>)

  /** `switchToCorrectNetwork(targetChainId)`: the wallet guard, then the
      switch request; error 4902 (chain unknown to the wallet) becomes an
      error naming the chain, any other error is rethrown as it is. */
  function SwitchToCorrectNetwork(wallet: Contracts.Wallet, targetChainId: nat, switchFault: Option<Error>): (s: Switch)
    ensures wallet.NoWallet? ==> s == Switch(None, Err(Fail(Contracts.NoWalletMessage)))
    ensures wallet.Injected? ==> s.requested == Some(ChainIdParam(targetChainId))
    ensures wallet.Injected? ==>
              (s.result.Ok? <==> switchFault.None?)
              && (switchFault.Some? && switchFault.value.code == Some(UnknownChainCode) ==>
                    s.result == Err(Fail(UnknownChainMessage(targetChainId))))
              && (switchFault.Some? && switchFault.value.code != Some(UnknownChainCode) ==>
                    s.result == Err(switchFault.value))
  {
    if wallet.NoWallet? then Switch(None, Err(Fail(Contracts.NoWalletMessage)))
    else
      var request := Some(ChainIdParam(targetChainId));
      match switchFault
      case None => Switch(request, Ok(Unit))
      case Some(e) =>
        if e.code == Some(UnknownChainCode) then Switch(request, Err(Fail(UnknownChainMessage(targetChainId))))
        else Switch(request, Err(e))
  }
}
