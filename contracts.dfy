/** The stable-coin purchase flow of `src/lib/contracts.ts`: USD amounts as
    6-decimal USDT integers, balance and allowance reads on the USDT token
    (the EIP-20 `balanceOf`, `allowance` and `approve` methods), the
    approve-then-buy sequence against the RWA sale contract with its progress
    reports, and the classification of a transaction receipt. The chain is an
    abstract ledger: a balance map, an allowance map and the log of the
    transactions that reached it. The source reads through a fixed Core
    Testnet2 RPC provider and writes through the wallet's provider; one
    ledger for both means the wallet is taken to be on Core Testnet2. */
module Contracts {
  import opened Common
  import opened Digits
  import opened Units

  type Address = string

  const UsdtContractAddress: Address := "0x2A0452216398b7667e5eB12243Db68575ED3cF1B"
  const RwaContractAddress: Address := "0xa892f8D31a30Da10400bb4CFf9302a2c32E49131"
  const UsdtDecimals: nat := 6

  /** The RWA sale contract's asset index used by every purchase. */
  const PurchaseAssetId: nat := 0

  /** One more than the largest `uint256`. */
  const Uint256Limit: nat := 0x1_0000_0000_0000_0000_0000_0000_0000_0000_0000_0000_0000_0000_0000_0000_0000_0000

  const NoWalletMessage := "Please install MetaMask or another Web3 wallet"
  /** What the ABI encoder throws for a `uint256` argument out of range: the
      error's short message; the thrown `message` appends the argument, the
      value, the code and the library version in parentheses. */
  const OutOfBoundsMessage := "value out-of-bounds"

  /** `window.ethereum`: absent, or present together with the outcome of
      asking it for a signer and its address. */
  datatype Wallet = NoWallet | Injected(signer: Result<Address>)

  /** `getProviderAndSigner`: the wallet guard, then the signer's address. */
  function GetProviderAndSigner(wallet: Wallet): (r: Result<Address>)
    ensures wallet.NoWallet? ==> r == Err(Fail(NoWalletMessage))
    ensures wallet.Injected? ==> r == wallet.signer
  {
    match wallet
    case NoWallet => Err(Fail(NoWalletMessage))
    case Injected(signer) => signer
  }

  /** `convertUSDToUSDT`: the decimal string of a USD amount (the number's
      `toString()`) as a count of USDT's smallest unit, `10^-6`. */
  function ConvertUsdToUsdt(usdAmount: string): (r: Result<int>)
    ensures r.Err? ==> r.error == Fail(InvalidValueMessage) || r.error == Fail(TooManyDecimalsMessage)
    ensures r.Ok? ==> |usdAmount| > 0 && (r.value != 0 ==> (r.value < 0 <==> usdAmount[0] == '-'))
  {
    ParseUnits(usdAmount, UsdtDecimals)
  }

  /** `formatUSDTAmount`: a USDT integer amount as a decimal string. */
  function FormatUsdtAmount(amount: int): (s: string)
    ensures |s| > 0 && (s[0] == '-' <==> amount < 0)
  {
    FormatUnits(amount, UsdtDecimals)
  }

  /** A USD amount in whole dollars is that many millions of USDT units. */
  lemma ConvertWholeDollars(dollars: nat)
    ensures ConvertUsdToUsdt(Decimal(dollars)) == Ok(dollars * 1000000)
  {
    ParseWholeNumber(dollars, UsdtDecimals);
    MicroUnitsPerDollar();
  }

  lemma MicroUnitsPerDollar()
    ensures Pow(10, UsdtDecimals) == 1000000
  {
  }

  /** A USD amount `W.F` with at most six fraction digits is `W` times a
      million (see `MicroUnitsPerDollar`) plus the fraction in millionths:
      exact, nothing rounded. */
  lemma ConvertDollarsAndCents(whole: string, fraction: string)
    requires AllDigits(whole, 10) && AllDigits(fraction, 10) && |whole| + |fraction| > 0
    requires |fraction| <= UsdtDecimals
    ensures ConvertUsdToUsdt(whole + "." + fraction)
            == Ok(FromBase(whole, 10) * Pow(10, UsdtDecimals) + FromBase(fraction, 10) * Pow(10, UsdtDecimals - |fraction|))
  {
    ParseWithFraction(whole, fraction, UsdtDecimals);
  }

  /** A seventh fraction digit other than zero is refused, not rounded. */
  lemma ConvertRefusesSubMicroAmounts(whole: string, fraction: string)
    requires AllDigits(whole, 10) && AllDigits(fraction, 10)
    requires |fraction| > UsdtDecimals && !AllZeros(fraction[UsdtDecimals..])
    ensures ConvertUsdToUsdt(whole + "." + fraction).Err?
  {
    ParseRefusesExtraDigits(whole, fraction, UsdtDecimals);
  }

  /** `formatUSDTAmount` decodes what `convertUSDToUSDT` encodes: the string
      it writes denotes the same amount as the string that was read. */
  lemma FormatDenotesSameAmount(usdAmount: string)
    requires ConvertUsdToUsdt(usdAmount).Ok?
    ensures ConvertUsdToUsdt(FormatUsdtAmount(ConvertUsdToUsdt(usdAmount).value)) == ConvertUsdToUsdt(usdAmount)
  {
    FormatParseRoundTrip(ConvertUsdToUsdt(usdAmount).value, UsdtDecimals);
  }

  /** The error `purchaseRWATokens` throws when the balance is short. */
  function InsufficientBalance(required: int, available: int): Error
  {
    Fail("Insufficient USDT balance. Required: " + FormatUsdtAmount(required)
         + ", Available: " + FormatUsdtAmount(available))
  }

  /** A state-changing call sent to the chain. */
  datatype Call =
    | Approve(owner: Address, spender: Address, amount: nat)
    | BuyTokens(buyer: Address, assetId: nat, amount: nat)

  /** A call that reached the chain, under its hash; `succeeded` is false
      when it reverted. */
  datatype Transaction = Transaction(call: Call, hash: string, succeeded: bool)

  /** What becomes of a call handed to the wallet: `Rejected` when signing or
      broadcasting throws (nothing reaches the chain); `Broadcast` when it
      reaches the chain under `hash`, where it takes effect if `succeeds`
      and the call can execute, and otherwise reverts so that waiting for
      the receipt throws `revertError`. */
  datatype Submission =
    | Rejected(error: Error)
    | Broadcast(hash: string, succeeds: bool, revertError: Error)

  /** Everything outside the code that the purchase flow depends on. */
  datatype Env = Env(
    wallet: Wallet,
    balanceFault: Option<Error>,    // `balanceOf` throws this, if present
    allowanceFault: Option<Error>,  // `allowance` throws this, if present
    approval: Submission,           // fate of the `approve` transaction
    purchase: Submission)           // fate of the `buyTokens` transaction

  datatype PurchaseResult = PurchaseResult(approvalTxHash: string, purchaseTxHash: string)

  /** An `onProgress(step, message)` call. */
  datatype ProgressEvent = ProgressEvent(step: string, message: string)

  const Checking := ProgressEvent("checking", "Checking USDT balance and allowance...")
  const Approving := ProgressEvent("approving", "Approving USDT spending...")
  const Purchasing := ProgressEvent("purchasing", "Purchasing RWA tokens...")

  /** `0 <= amount < 2^256`: what the ABI encoder accepts for `uint256`. */
  predicate Encodable(amount: int)
  {
    0 <= amount < Uint256Limit
  }

  /** What the chain holds: USDT balances, USDT allowances keyed by
      `(owner, spender)`, and every transaction that reached it, in order. */
  datatype Chain = Chain(
    balances: map<Address, nat>,
    allowances: map<(Address, Address), nat>,
    transactions: seq<Transaction>)
  {
    /** EIP-20 `balanceOf(owner)`. */
    function BalanceOf(owner: Address): nat
    {
      if owner in balances then balances[owner] else 0
    }

    /** EIP-20 `allowance(owner, spender)`. */
    function Allowance(owner: Address, spender: Address): nat
    {
      if (owner, spender) in allowances then allowances[(owner, spender)] else 0
    }

    /** Whether a call can execute: `approve` always can; `buyTokens` pulls
        the amount with `transferFrom`, which needs the buyer's balance and
        the sale contract's allowance to cover it. */
    predicate CanExecute(call: Call)
    {
      match call
      case Approve(_, _, _) => true
      case BuyTokens(buyer, _, amount) => BalanceOf(buyer) >= amount && Allowance(buyer, RwaContractAddress) >= amount
    }

    /** The effect of a call that executes: `approve` sets the spender's
        allowance; a purchase moves the amount from the buyer to the sale
        contract and spends that much of the sale contract's allowance. */
    function Execute(call: Call): (after: Chain)
      requires CanExecute(call)
      ensures after.transactions == transactions
    {
      match call
      case Approve(owner, spender, amount) =>
        this.(allowances := allowances[(owner, spender) := amount])
      case BuyTokens(buyer, _, amount) =>
        var debited := balances[buyer := BalanceOf(buyer) - amount];
        var credited := debited[RwaContractAddress := (if RwaContractAddress in debited then debited[RwaContractAddress] else 0) + amount];
        this.(balances := credited,
              allowances := allowances[(buyer, RwaContractAddress) := Allowance(buyer, RwaContractAddress) - amount])
    }
  }

  /** The outcome of one contract call: what the caller gets back and the
      chain afterwards. */
  datatype Sent = Sent(result: Result<string>, chain: Chain)

  /** Sign, broadcast and wait for one call (`contract.f(...)` then
      `tx.wait()`); the result is the transaction hash. */
  function SubmitTo(chain: Chain, call: Call, submission: Submission): Sent
  {
    match submission
    case Rejected(e) => Sent(Err(e), chain)
    case Broadcast(hash, succeeds, revertError) =>
      var takesEffect := succeeds && chain.CanExecute(call);
      var after := if takesEffect then chain.Execute(call) else chain;
      Sent(if takesEffect then Ok(hash) else Err(revertError),
           after.(transactions := chain.transactions + [Transaction(call, hash, takesEffect)]))
  }

  /** `getUSDTBalance(user)`: the wallet guard, then `balanceOf(user)`. */
  function BalanceRead(wallet: Wallet, fault: Option<Error>, chain: Chain, user: Address): Result<nat>
  {
    var signer := GetProviderAndSigner(wallet);
    if signer.Err? then Err(signer.error)
    else if fault.Some? then Err(fault.value)
    else Ok(chain.BalanceOf(user))
  }

  /** `checkUSDTAllowance(owner, spender)`: the wallet guard, then
      `allowance(owner, spender)`. */
  function AllowanceRead(wallet: Wallet, fault: Option<Error>, chain: Chain, owner: Address, spender: Address): Result<nat>
  {
    var signer := GetProviderAndSigner(wallet);
    if signer.Err? then Err(signer.error)
    else if fault.Some? then Err(fault.value)
    else Ok(chain.Allowance(owner, spender))
  }

  /** `approveUSDT(spender, amount)`: `approve` signed by the wallet's
      account; any failure is rethrown as it is. */
  function ApproveOn(wallet: Wallet, submission: Submission, chain: Chain, spender: Address, amount: int): Sent
  {
    var signer := GetProviderAndSigner(wallet);
    if signer.Err? then Sent(Err(signer.error), chain)
    else if !Encodable(amount) then Sent(Err(Fail(OutOfBoundsMessage)), chain)
    else SubmitTo(chain, Approve(signer.value, spender, amount), submission)
  }

  /** `buyRWATokens(amount)`: `buyTokens(0, amount)` on the sale contract,
      signed by the wallet's account; any failure is rethrown as it is. */
  function BuyOn(wallet: Wallet, submission: Submission, chain: Chain, amount: int): Sent
  {
    var signer := GetProviderAndSigner(wallet);
    if signer.Err? then Sent(Err(signer.error), chain)
    else if !Encodable(amount) then Sent(Err(Fail(OutOfBoundsMessage)), chain)
    else SubmitTo(chain, BuyTokens(signer.value, PurchaseAssetId, amount), submission)
  }

  /** The outcome of the purchase flow: its result, the `onProgress` calls
      in order, and the chain afterwards. */
  datatype Purchase = Purchase(result: Result<PurchaseResult>, progress: seq<ProgressEvent>, chain: Chain)

  /** `purchaseRWATokens(usdAmount, onProgress)` as a function of what it
      meets: the wallet guard and the conversion of the amount, then the
      rest of the flow for that account and amount. */
  function PurchaseOn(usdAmount: string, env: Env, chain: Chain): Purchase
  {
    var signer := GetProviderAndSigner(env.wallet);
    if signer.Err? then Purchase(Err(signer.error), [], chain)
    else
      var converted := ConvertUsdToUsdt(usdAmount);
      if converted.Err? then Purchase(Err(converted.error), [], chain)
      else PurchaseUnits(signer.value, converted.value, env, chain)
  }

  /** The flow for account `user` and `amount` USDT units: check the
      balance, approve the sale contract when its allowance is short, then
      buy. */
  function PurchaseUnits(user: Address, amount: int, env: Env, chain: Chain): Purchase
  {
    var balance := BalanceRead(env.wallet, env.balanceFault, chain, user);
    if balance.Err? then Purchase(Err(balance.error), [Checking], chain)
    else if balance.value < amount then Purchase(Err(InsufficientBalance(amount, balance.value)), [Checking], chain)
    else
      var allowance := AllowanceRead(env.wallet, env.allowanceFault, chain, user, RwaContractAddress);
      if allowance.Err? then Purchase(Err(allowance.error), [Checking], chain)
      else if allowance.value < amount then
        var approval := ApproveOn(env.wallet, env.approval, chain, RwaContractAddress, amount);
        if approval.result.Err? then Purchase(Err(approval.result.error), [Checking, Approving], approval.chain)
        else
          var purchase := BuyOn(env.wallet, env.purchase, approval.chain, amount);
          if purchase.result.Err? then Purchase(Err(purchase.result.error), [Checking, Approving, Purchasing], purchase.chain)
          else Purchase(Ok(PurchaseResult(approval.result.value, purchase.result.value)), [Checking, Approving, Purchasing], purchase.chain)
      else
        var purchase := BuyOn(env.wallet, env.purchase, chain, amount);
        if purchase.result.Err? then Purchase(Err(purchase.result.error), [Checking, Purchasing], purchase.chain)
        else Purchase(Ok(PurchaseResult("", purchase.result.value)), [Checking, Purchasing], purchase.chain)
  }

  /** Both reads succeed and `user`'s balance covers the amount. */
  predicate Covered(user: Address, amount: int, env: Env, chain: Chain)
  {
    GetProviderAndSigner(env.wallet).Ok? && env.balanceFault.None? && env.allowanceFault.None?
    && chain.BalanceOf(user) >= amount
  }

  /** A mined approval sets exactly the spender's allowance to the amount;
      balances never change. */
  lemma ApproveSetsAllowance(wallet: Wallet, submission: Submission, chain: Chain, spender: Address, amount: int)
    ensures ApproveOn(wallet, submission, chain, spender, amount).chain.balances == chain.balances
    ensures ApproveOn(wallet, submission, chain, spender, amount).result.Ok? ==>
              var owner := GetProviderAndSigner(wallet).value;
              var after := ApproveOn(wallet, submission, chain, spender, amount).chain;
              Encodable(amount) && after.Allowance(owner, spender) == amount
              && (forall o, s :: (o, s) != (owner, spender) ==> after.Allowance(o, s) == chain.Allowance(o, s))
  {
  }

  /** A mined purchase moves exactly the amount from the buyer to the sale
      contract and leaves every other balance as it was. */
  lemma BuyMovesFunds(wallet: Wallet, submission: Submission, chain: Chain, amount: int)
    requires GetProviderAndSigner(wallet).Ok? && GetProviderAndSigner(wallet).value != RwaContractAddress
    ensures var buyer, after := GetProviderAndSigner(wallet).value, BuyOn(wallet, submission, chain, amount).chain;
            BuyOn(wallet, submission, chain, amount).result.Ok? ==>
              after.BalanceOf(buyer) == chain.BalanceOf(buyer) - amount
              && after.BalanceOf(RwaContractAddress) == chain.BalanceOf(RwaContractAddress) + amount
              && (forall a :: a != buyer && a != RwaContractAddress ==> after.BalanceOf(a) == chain.BalanceOf(a))
  {
  }

  /** Without a wallet or a signer, or with an amount `parseUnits` refuses,
      the flow fails at once: nothing is read, sent or reported. Otherwise
      it goes on with the wallet's account and the amount in USDT units. */
  lemma PurchaseNeedsWallet(usdAmount: string, env: Env, chain: Chain)
    ensures GetProviderAndSigner(env.wallet).Err? ==>
              PurchaseOn(usdAmount, env, chain) == Purchase(Err(GetProviderAndSigner(env.wallet).error), [], chain)
    ensures GetProviderAndSigner(env.wallet).Ok? && ConvertUsdToUsdt(usdAmount).Err? ==>
              PurchaseOn(usdAmount, env, chain) == Purchase(Err(ConvertUsdToUsdt(usdAmount).error), [], chain)
    ensures GetProviderAndSigner(env.wallet).Ok? && ConvertUsdToUsdt(usdAmount).Ok? ==>
              PurchaseOn(usdAmount, env, chain)
              == PurchaseUnits(GetProviderAndSigner(env.wallet).value, ConvertUsdToUsdt(usdAmount).value, env, chain)
  {
  }

  /** A balance short of the amount stops the flow after "checking" with an
      error naming both amounts; nothing is sent. */
  lemma PurchaseStopsOnShortBalance(user: Address, amount: int, env: Env, chain: Chain)
    requires GetProviderAndSigner(env.wallet).Ok? && env.balanceFault.None?
    requires chain.BalanceOf(user) < amount
    ensures PurchaseUnits(user, amount, env, chain)
            == Purchase(Err(InsufficientBalance(amount, chain.BalanceOf(user))), [Checking], chain)
  {
  }

  /** When the allowance already covers the amount: no approval is sent, at
      most one `buyTokens(0, amount)` is, the approval hash is empty, and
      the purchase succeeds exactly when the chain mines it. */
  lemma PurchaseWithAllowance(user: Address, amount: int, env: Env, chain: Chain)
    requires GetProviderAndSigner(env.wallet) == Ok(user) && Covered(user, amount, env, chain)
    requires chain.Allowance(user, RwaContractAddress) >= amount
    ensures var p := PurchaseUnits(user, amount, env, chain);
            var sent := Encodable(amount) && env.purchase.Broadcast?;
            p.progress == [Checking, Purchasing]
            && p.chain.transactions
               == chain.transactions
                  + (if sent then [Transaction(BuyTokens(user, PurchaseAssetId, amount), env.purchase.hash, env.purchase.succeeds)] else [])
            && (p.result.Ok? <==> sent && env.purchase.succeeds)
            && (p.result.Ok? ==> p.result.value == PurchaseResult("", env.purchase.hash))
            && (!Encodable(amount) ==> p.result == Err(Fail(OutOfBoundsMessage)))
            && (Encodable(amount) && env.purchase.Rejected? ==> p.result == Err(env.purchase.error))
            && (sent && !env.purchase.succeeds ==> p.result == Err(env.purchase.revertError))
  {
  }

  /** When the allowance is short: exactly one `approve(sale contract,
      amount)` is sent, the purchase is sent only once it is mined, both
      hashes come back, and each failure is rethrown as it is. */
  lemma PurchaseWithApproval(user: Address, amount: int, env: Env, chain: Chain)
    requires GetProviderAndSigner(env.wallet) == Ok(user) && Covered(user, amount, env, chain)
    requires chain.Allowance(user, RwaContractAddress) < amount
    ensures var p := PurchaseUnits(user, amount, env, chain);
            var asked := Encodable(amount) && env.approval.Broadcast?;
            var approved := asked && env.approval.succeeds;
            var sent := approved && env.purchase.Broadcast?;
            p.progress == [Checking, Approving] + (if approved then [Purchasing] else [])
            && p.chain.transactions
               == chain.transactions
                  + (if asked then [Transaction(Approve(user, RwaContractAddress, amount), env.approval.hash, env.approval.succeeds)] else [])
                  + (if sent then [Transaction(BuyTokens(user, PurchaseAssetId, amount), env.purchase.hash, env.purchase.succeeds)] else [])
            && (p.result.Ok? <==> sent && env.purchase.succeeds)
            && (p.result.Ok? ==> p.result.value == PurchaseResult(env.approval.hash, env.purchase.hash))
            && (!Encodable(amount) ==> p.result == Err(Fail(OutOfBoundsMessage)))
            && (Encodable(amount) && env.approval.Rejected? ==> p.result == Err(env.approval.error))
            && (asked && !env.approval.succeeds ==> p.result == Err(env.approval.revertError))
            && (approved && env.purchase.Rejected? ==> p.result == Err(env.purchase.error))
            && (sent && !env.purchase.succeeds ==> p.result == Err(env.purchase.revertError))
  {
  }

  /** Progress is reported in the flow's order: the trace is one of four
      sequences, "checking" always comes first. */
  lemma PurchaseProgress(user: Address, amount: int, env: Env, chain: Chain)
    ensures PurchaseUnits(user, amount, env, chain).progress
            in [[Checking], [Checking, Approving], [Checking, Approving, Purchasing], [Checking, Purchasing]]
  {
  }

  /** "approving" is reported exactly when the flow goes on to approve: both
      reads succeed, the balance covers the amount and the allowance does
      not. */
  lemma ApprovingReported(user: Address, amount: int, env: Env, chain: Chain)
    ensures Approving in PurchaseUnits(user, amount, env, chain).progress
            <==> Covered(user, amount, env, chain) && chain.Allowance(user, RwaContractAddress) < amount
  {
  }

  /** A transaction receipt as far as `getTransactionStatus` looks at it. */
  datatype Receipt = Receipt(status: int, blockNumber: nat, gasUsed: nat)

  datatype TxStatus = Pending | Confirmed(blockNumber: nat, gasUsed: nat) | Failed

  /** `getTransactionStatus(txHash)`: `lookup` is what
      `getTransactionReceipt` gives back (no receipt yet, a receipt, or an
      error it throws). */
  function GetTransactionStatus(wallet: Wallet, lookup: Result<Option<Receipt>>): (status: TxStatus)
    ensures status == Pending <==> GetProviderAndSigner(wallet).Ok? && lookup == Ok(None)
    ensures status.Confirmed? <==>
              GetProviderAndSigner(wallet).Ok? && lookup.Ok? && lookup.value.Some? && lookup.value.value.status == 1
    ensures status.Confirmed? ==>
              status.blockNumber == lookup.value.value.blockNumber && status.gasUsed == lookup.value.value.gasUsed
    ensures status == Failed <==>
              GetProviderAndSigner(wallet).Err? || lookup.Err? || (lookup.value.Some? && lookup.value.value.status != 1)
  {
    if GetProviderAndSigner(wallet).Err? || lookup.Err? then Failed
    else match lookup.value
      case None => Pending
      case Some(receipt) =>
        if receipt.status == 1 then Confirmed(receipt.blockNumber, receipt.gasUsed) else Failed
  }

  /** The USDT token and the RWA sale contract as one ledger that the
      wallet's transactions update in place. */
  class UsdtLedger {
    var balances: map<Address, nat>
    var allowances: map<(Address, Address), nat>
    var transactions: seq<Transaction>

    constructor (initial: Chain)
      ensures State() == initial
    {
      balances, allowances, transactions := initial.balances, initial.allowances, initial.transactions;
    }

    function State(): Chain
      reads this
    {
      Chain(balances, allowances, transactions)
    }

    method SetState(next: Chain)
      modifies this
      ensures State() == next
    {
      balances, allowances, transactions := next.balances, next.allowances, next.transactions;
    }

    /** Sign, broadcast and wait for one call. */
    method Submit(call: Call, submission: Submission) returns (r: Result<string>)
      modifies this
      ensures Sent(r, State()) == SubmitTo(old(State()), call, submission)
    {
      match submission
      case Rejected(e) =>
        r := Err(e);
      case Broadcast(hash, succeeds, revertError) =>
        var takesEffect := succeeds && State().CanExecute(call);
        if takesEffect {
          SetState(State().Execute(call));
          r := Ok(hash);
        } else {
          r := Err(revertError);
        }
        transactions := transactions + [Transaction(call, hash, takesEffect)];
    }

    method GetUsdtBalance(wallet: Wallet, fault: Option<Error>, user: Address) returns (r: Result<nat>)
      ensures r == BalanceRead(wallet, fault, State(), user)
    {
      var signer := GetProviderAndSigner(wallet);
      if signer.Err? {
        return Err(signer.error);
      }
      if fault.Some? {
        return Err(fault.value);
      }
      r := Ok(State().BalanceOf(user));
    }

    method CheckUsdtAllowance(wallet: Wallet, fault: Option<Error>, owner: Address, spender: Address)
      returns (r: Result<nat>)
      ensures r == AllowanceRead(wallet, fault, State(), owner, spender)
    {
      var signer := GetProviderAndSigner(wallet);
      if signer.Err? {
        return Err(signer.error);
      }
      if fault.Some? {
        return Err(fault.value);
      }
      r := Ok(State().Allowance(owner, spender));
    }

    method ApproveUsdt(wallet: Wallet, submission: Submission, spender: Address, amount: int)
      returns (r: Result<string>)
      modifies this
      ensures Sent(r, State()) == ApproveOn(wallet, submission, old(State()), spender, amount)
    {
      var signer := GetProviderAndSigner(wallet);
      if signer.Err? {
        return Err(signer.error);
      }
      if !Encodable(amount) {
        return Err(Fail(OutOfBoundsMessage));
      }
      r := Submit(Approve(signer.value, spender, amount), submission);
    }

    method BuyRwaTokens(wallet: Wallet, submission: Submission, amount: int) returns (r: Result<string>)
      modifies this
      ensures Sent(r, State()) == BuyOn(wallet, submission, old(State()), amount)
    {
      var signer := GetProviderAndSigner(wallet);
      if signer.Err? {
        return Err(signer.error);
      }
      if !Encodable(amount) {
        return Err(Fail(OutOfBoundsMessage));
      }
      r := Submit(BuyTokens(signer.value, PurchaseAssetId, amount), submission);
    }

    /** `purchaseRWATokens`: the wallet guard and the conversion, then the
        rest of the flow. */
    method PurchaseRwaTokens(usdAmount: string, env: Env) returns (r: Result<PurchaseResult>, progress: seq<ProgressEvent>)
      modifies this
      ensures Purchase(r, progress, State()) == PurchaseOn(usdAmount, env, old(State()))
    {
      var signer := GetProviderAndSigner(env.wallet);
      if signer.Err? {
        return Err(signer.error), [];
      }
      var converted := ConvertUsdToUsdt(usdAmount);
      if converted.Err? {
        return Err(converted.error), [];
      }
      r, progress := PurchaseAsUser(signer.value, converted.value, env);
    }

    /** The flow past the conversion, for the wallet's account `user`. */
    method PurchaseAsUser(user: Address, amount: int, env: Env) returns (r: Result<PurchaseResult>, progress: seq<ProgressEvent>)
      modifies this
      ensures Purchase(r, progress, State()) == PurchaseUnits(user, amount, env, old(State()))
    {
      progress := [Checking];
      var balance := GetUsdtBalance(env.wallet, env.balanceFault, user);
      if balance.Err? {
        return Err(balance.error), progress;
      }
      if balance.value < amount {
        return Err(InsufficientBalance(amount, balance.value)), progress;
      }
      var allowance := CheckUsdtAllowance(env.wallet, env.allowanceFault, user, RwaContractAddress);
      if allowance.Err? {
        return Err(allowance.error), progress;
      }
      if allowance.value < amount {
        progress := progress + [Approving];
        var approvalTxHash := ApproveUsdt(env.wallet, env.approval, RwaContractAddress, amount);
        if approvalTxHash.Err? {
          return Err(approvalTxHash.error), progress;
        }
        progress := progress + [Purchasing];
        var purchaseTxHash := BuyRwaTokens(env.wallet, env.purchase, amount);
        if purchaseTxHash.Err? {
          return Err(purchaseTxHash.error), progress;
        }
        r := Ok(PurchaseResult(approvalTxHash.value, purchaseTxHash.value));
      } else {
        progress := progress + [Purchasing];
        var purchaseTxHash := BuyRwaTokens(env.wallet, env.purchase, amount);
        if purchaseTxHash.Err? {
          return Err(purchaseTxHash.error), progress;
        }
        r := Ok(PurchaseResult("", purchaseTxHash.value));
      }
    }
  }
}
