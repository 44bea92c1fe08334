/** The client logic of the title-creation script: the minimum-balance check,
    the contract funding step, the bounded retry, the search for the created
    asset identifier and the order in which the script runs them.  Every
    algod call is an oracle parameter: `call(i)` is what the i-th attempt
    of a retried call returns or raises, and a plain `Result` is the outcome
    of a call made once. */
module TitleClient {
  import opened Outcomes
  import opened Asa

  const MAX_RETRIES: nat := 3
  /** RETRY_DELAY, 2 seconds, in tenths of a second. */
  const RETRY_DELAY_TENTHS: nat := 20
  const BASE_MIN_BALANCE: nat := 100_000
  const MIN_BALANCE_PER_ASSET: nat := 100_000
  const MIN_TXN_FEE: nat := 1_000
  const FUNDING_AMOUNT: nat := 25_000
  /** The arguments the script passes to create_title. */
  const TEST_LAND_ID: string := "TEST-PLOT-001"
  const TEST_METADATA_URL: string := "ipfs://QmTest123"

  datatype ClientError =
    | InsufficientBalance(have: nat, need: nat)
    /** "Could not determine created asset ID" */
    | AssetIdUnknown
    /** An exception an algod call raised. */
    | NetworkError(message: Raised)

  /** The message of an exception raised by an algod call. */
  type Raised = string
  type TxId = string

  // ---------------------------------------------------------------------
  // Bounded retry

  function Pow2(i: nat): nat {
    if i == 0 then 1 else 2 * Pow2(i - 1)
  }

  /** The wait after failed attempt i, in tenths of a second:
      RETRY_DELAY * 2^i + 0.1 * i seconds. */
  function WaitTenths(i: nat): nat {
    RETRY_DELAY_TENTHS * Pow2(i) + i
  }

  /** With three attempts there are at most two waits: 2.0 s and 4.1 s. */
  lemma BackoffSchedule()
    ensures WaitTenths(0) == 20 && WaitTenths(1) == 41
  {
    assert Pow2(1) == 2;
  }

  /** What retry_with_backoff yields from attempt i on: the first attempt
      that returns, or the exception of the last attempt. */
  function RetriedFrom<T, E>(call: nat -> Result<T, E>, i: nat): (r: Result<T, E>)
    requires i < MAX_RETRIES
    ensures exists k :: i <= k < MAX_RETRIES && r == call(k) && forall j :: i <= j < k ==> call(j).Failure?
    ensures r.Success? <==> exists k :: i <= k < MAX_RETRIES && call(k).Success?
    ensures r.Failure? ==> r == call(MAX_RETRIES - 1)
    decreases MAX_RETRIES - i
  {
    if i == MAX_RETRIES - 1 || call(i).Success? then call(i) else RetriedFrom(call, i + 1)
  }

  function Retried<T, E>(call: nat -> Result<T, E>): (r: Result<T, E>)
  {
    RetriedFrom(call, 0)
  }

  /** retry_with_backoff: calls at most MAX_RETRIES times, returns the first
      result, re-raises the last exception, and waits WaitTenths(i) after
      each failed attempt i but the last. */
  method RetryWithBackoff<T, E>(call: nat -> Result<T, E>) returns (r: Result<T, E>, attempts: nat, waits: seq<nat>)
    ensures 1 <= attempts <= MAX_RETRIES
    ensures r == call(attempts - 1) && r == Retried(call)
    ensures forall i :: 0 <= i < attempts - 1 ==> call(i).Failure?
    ensures r.Failure? ==> attempts == MAX_RETRIES
    ensures |waits| == attempts - 1
    ensures forall i :: 0 <= i < |waits| ==> waits[i] == WaitTenths(i)
  {
    attempts := 0;
    waits := [];
    while true
      invariant attempts < MAX_RETRIES
      invariant forall i :: 0 <= i < attempts ==> call(i).Failure?
      invariant Retried(call) == RetriedFrom(call, attempts)
      invariant |waits| == attempts
      invariant forall i :: 0 <= i < |waits| ==> waits[i] == WaitTenths(i)
      decreases MAX_RETRIES - attempts
    {
      r := call(attempts);
      attempts := attempts + 1;
      if r.Success? || attempts == MAX_RETRIES {
        return;
      }
      waits := waits + [WaitTenths(attempts - 1)];
    }
  }

  // ---------------------------------------------------------------------
  // Minimum balance

  datatype AssetHolding = AssetHolding(assetId: AssetId, amount: nat)
  /** The two fields of algod's account_info the script reads; a missing
      key is None. */
  datatype AccountInfo = AccountInfo(amount: Option<nat>, assets: Option<seq<AssetHolding>>)

  function Balance(info: AccountInfo): nat {
    info.amount.GetOr(0)
  }

  function AssetCount(info: AccountInfo): nat {
    |info.assets.GetOr([])|
  }

  /** The ledger's minimum balance for an account opted in to `assetCount`
      assets: 0.1 ALGO, plus 0.1 ALGO per asset. */
  function LedgerMinBalance(assetCount: nat): nat {
    BASE_MIN_BALANCE + assetCount * MIN_BALANCE_PER_ASSET
  }

  /** check_account_balance, given what its account_info call returned or
      raised: a raised error propagates; otherwise it fails exactly when the
      balance is below the base minimum plus the per-asset minimum plus the
      operation's cost, and returns the balance. */
  function CheckAccountBalance(fetched: Result<AccountInfo, Raised>, operationCost: nat)
    : (r: Result<nat, ClientError>)
    ensures fetched.Failure? ==> r == Failure(NetworkError(fetched.error))
    ensures fetched.Success? ==>
      var info := fetched.value;
      && (r.Success? <==> Balance(info) >= BASE_MIN_BALANCE + AssetCount(info) * MIN_BALANCE_PER_ASSET + operationCost)
      && (r.Success? ==> r.value == Balance(info))
      && (r.Failure? ==> r.error == InsufficientBalance(Balance(info), LedgerMinBalance(AssetCount(info)) + operationCost))
  {
    match fetched
    case Failure(e) => Failure(NetworkError(e))
    case Success(info) =>
      var need := LedgerMinBalance(AssetCount(info)) + operationCost;
      if Balance(info) < need then Failure(InsufficientBalance(Balance(info), need))
      else Success(Balance(info))
  }

  /** The check passes exactly when paying the operation's cost leaves the
      account at or above its ledger minimum; an account_info without
      `amount` or `assets` reads as balance 0 and no assets. */
  lemma BalanceCheckMeaning(info: AccountInfo, operationCost: nat)
    ensures CheckAccountBalance(Success(info), operationCost).Success? <==>
            Balance(info) - operationCost >= LedgerMinBalance(AssetCount(info))
    ensures info.amount.None? ==> Balance(info) == 0
    ensures info.assets.None? ==> AssetCount(info) == 0
  {
  }

  // ---------------------------------------------------------------------
  // Funding the contract

  /** What the admin must be able to spend for the funding step: the amount
      sent plus the fees of the funding, create and opt-in transactions. */
  function FundingOperationCost(): (c: nat)
    ensures c == 28_000
  {
    FUNDING_AMOUNT + MIN_TXN_FEE * 3
  }

  datatype Payment = Payment(sender: Address, receiver: Address, amount: nat)

  /** fund_contract_account: checks the admin's balance against the funding
      cost, then builds the payment of FUNDING_AMOUNT to the contract and
      submits and confirms it, each algod call under retry_with_backoff.
      `sent` is the payment handed to send_transaction, if it got that far;
      `r` is the confirmation round. */
  method FundContractAccount(adminAddress: Address, appAddress: Address,
                             adminInfo: Result<AccountInfo, Raised>,
                             suggest: nat -> Result<(), Raised>,
                             send: nat -> Result<TxId, Raised>,
                             confirm: nat -> Result<nat, Raised>)
    returns (r: Result<nat, ClientError>, sent: Option<Payment>)
    ensures CheckAccountBalance(adminInfo, FundingOperationCost()).Failure? ==>
      sent.None? && r == Failure(CheckAccountBalance(adminInfo, FundingOperationCost()).error)
    ensures sent.Some? <==> CheckAccountBalance(adminInfo, FundingOperationCost()).Success? && Retried(suggest).Success?
    ensures sent.Some? ==> sent.value == Payment(adminAddress, appAddress, FUNDING_AMOUNT)
    ensures r.Success? <==> sent.Some? && Retried(send).Success? && Retried(confirm).Success?
    ensures r.Success? ==> r.value == Retried(confirm).value
    ensures r.Failure? && CheckAccountBalance(adminInfo, FundingOperationCost()).Success? ==> r.error.NetworkError?
  {
    sent := None;
    var check := CheckAccountBalance(adminInfo, FundingOperationCost());
    if check.Failure? {
      return Failure(check.error), sent;
    }
    var params, _, _ := RetryWithBackoff(suggest);
    if params.Failure? {
      return Failure(NetworkError(params.error)), sent;
    }
    var payment := Payment(adminAddress, appAddress, FUNDING_AMOUNT);
    sent := Some(payment);
    var txId, _, _ := RetryWithBackoff(send);
    if txId.Failure? {
      return Failure(NetworkError(txId.error)), sent;
    }
    var confirmed, _, _ := RetryWithBackoff(confirm);
    if confirmed.Failure? {
      return Failure(NetworkError(confirmed.error)), sent;
    }
    r := Success(confirmed.value);
  }

  // ---------------------------------------------------------------------
  // Finding the created asset identifier

  /** One entry of "inner-txns"; `assetIndex` is its "asset-index" key. */
  datatype InnerTxnInfo = InnerTxnInfo(assetIndex: Option<AssetId>)
  /** pending_transaction_info's answer; `innerTxns` is its "inner-txns" key. */
  datatype TxInfo = TxInfo(innerTxns: Option<seq<InnerTxnInfo>>)

  /** Python truthiness of an optional integer: present and nonzero. */
  predicate Truthy(v: Option<AssetId>) {
    v.Some? && v.value != 0
  }

  /** The asset-index of the first inner transaction that carries a truthy one. */
  function FirstAssetIndex(txns: seq<InnerTxnInfo>): (r: Option<AssetId>)
    ensures r.None? <==> forall i :: 0 <= i < |txns| ==> !Truthy(txns[i].assetIndex)
    ensures r.Some? ==> r.value != 0
    ensures r.Some? ==>
      exists i :: 0 <= i < |txns| && txns[i].assetIndex == r && forall j :: 0 <= j < i ==> !Truthy(txns[j].assetIndex)
  {
    if txns == [] then None
    else if Truthy(txns[0].assetIndex) then txns[0].assetIndex
    else
      var rest := FirstAssetIndex(txns[1..]);
      assert forall i :: 1 <= i < |txns| ==> txns[i] == txns[1..][i - 1];
      rest
  }

  /** What find_asset_id_in_transaction answers for a pending_transaction_info
      outcome: None when the call raised or there is no "inner-txns" key. */
  function AssetIdInPending(pending: Result<TxInfo, Raised>): (r: Option<AssetId>)
    ensures r.Some? ==> r.value != 0
    ensures pending.Failure? || pending.value.innerTxns.None? ==> r.None?
  {
    if pending.Failure? || pending.value.innerTxns.None? then None
    else FirstAssetIndex(pending.value.innerTxns.value)
  }

  /** find_asset_id_in_transaction: scans the inner transactions in order and
      returns at the first truthy asset-index; never raises. */
  method FindAssetIdInTransaction(pending: Result<TxInfo, Raised>) returns (r: Option<AssetId>)
    ensures r == AssetIdInPending(pending)
  {
    if pending.Failure? || pending.value.innerTxns.None? {
      return None;
    }
    var txns := pending.value.innerTxns.value;
    var i := 0;
    while i < |txns|
      invariant 0 <= i <= |txns|
      invariant FirstAssetIndex(txns[i..]) == FirstAssetIndex(txns)
    {
      var assetIndex := txns[i].assetIndex;
      if Truthy(assetIndex) {
        return assetIndex;
      }
      assert txns[i..][1..] == txns[i + 1..];
      i := i + 1;
    }
    r := None;
  }

  /** One entry of the composer's abi_results; `returnValue` is None when
      the return value could not be decoded. */
  datatype AbiResult = AbiResult(returnValue: Option<AssetId>)

  /** The script's asset-id resolution: the first ABI return value when it is
      truthy, otherwise the inner-transaction search, otherwise the error
      "Could not determine created asset ID". */
  function ResolvedAssetId(abiResults: seq<AbiResult>, pending: Result<TxInfo, Raised>)
    : (r: Result<AssetId, ClientError>)
    ensures |abiResults| > 0 && Truthy(abiResults[0].returnValue) ==> r == Success(abiResults[0].returnValue.value)
    ensures !(|abiResults| > 0 && Truthy(abiResults[0].returnValue)) ==>
      r == if AssetIdInPending(pending).Some? then Success(AssetIdInPending(pending).value) else Failure(AssetIdUnknown)
    ensures r.Success? ==> r.value != 0
    ensures r.Failure? ==> r.error == AssetIdUnknown
  {
    if |abiResults| > 0 && Truthy(abiResults[0].returnValue) then Success(abiResults[0].returnValue.value)
    else
      match AssetIdInPending(pending)
      case Some(id) => Success(id)
      case None => Failure(AssetIdUnknown)
  }

  /** The resolution as the script runs it, reassigning one variable;
      pending_transaction_info is consulted (`searched`) only when the ABI
      return value is not truthy. */
  method DetermineAssetId(abiResults: seq<AbiResult>, pending: Result<TxInfo, Raised>)
    returns (r: Result<AssetId, ClientError>, searched: bool)
    ensures r == ResolvedAssetId(abiResults, pending)
    ensures searched <==> !(|abiResults| > 0 && Truthy(abiResults[0].returnValue))
  {
    var assetId: Option<AssetId> := None;
    if |abiResults| > 0 {
      assetId := abiResults[0].returnValue;
    }
    searched := !Truthy(assetId);
    if searched {
      assetId := FindAssetIdInTransaction(pending);
    }
    if !Truthy(assetId) {
      return Failure(AssetIdUnknown), searched;
    }
    r := Success(assetId.value);
  }

  // ---------------------------------------------------------------------
  // The balance check before the admin's opt-in

  /** The ledger accepts the admin's opt-in to one more asset when, after
      the fee, the balance still covers the minimum for that many assets.
      LedgerMinBalance counts only the base and per-asset amounts, so this is
      exact for an account that holds no applications; an account that
      created or opted in to applications owes more. */
  predicate OptInKeepsMinimum(info: AccountInfo) {
    Balance(info) >= MIN_TXN_FEE + LedgerMinBalance(AssetCount(info) + 1)
  }

  /** The check the script makes before the opt-in, with the transaction
      fee as the whole operation cost. */
  function CheckBeforeOptInAsWritten(fetched: Result<AccountInfo, Raised>): (r: Result<nat, ClientError>)
    ensures fetched.Success? ==>
      (r.Success? <==> Balance(fetched.value) >= LedgerMinBalance(AssetCount(fetched.value)) + MIN_TXN_FEE)
  {
    CheckAccountBalance(fetched, MIN_TXN_FEE)
  }

  /** An admin with 0.101 ALGO and no assets passes that check, yet after
      opting in needs 0.2 ALGO and holds only 0.1: the ledger refuses. */
  lemma AsWrittenCheckAdmitsFailingOptIn()
    ensures var info := AccountInfo(Some(101_000), Some([]));
      CheckBeforeOptInAsWritten(Success(info)).Success? && !OptInKeepsMinimum(info)
  {
  }

  /** The opt-in's cost: its fee plus the minimum-balance increase of one asset. */
  const OPT_IN_OPERATION_COST: nat := MIN_TXN_FEE + MIN_BALANCE_PER_ASSET

  /** The corrected check before the opt-in: for an account that holds no
      applications, it passes exactly when the ledger will accept the
      opt-in's effect on the minimum balance. */
  function CheckBeforeOptIn(fetched: Result<AccountInfo, Raised>): (r: Result<nat, ClientError>)
    ensures fetched.Failure? ==> r == Failure(NetworkError(fetched.error))
    ensures fetched.Success? ==> (r.Success? <==> OptInKeepsMinimum(fetched.value))
    ensures r.Success? ==> r.value == Balance(fetched.value)
  {
    CheckAccountBalance(fetched, OPT_IN_OPERATION_COST)
  }

  /** The check run before the opt-in: the script's own (`corrected` false)
      or the corrected one. */
  function PreOptInCheck(corrected: bool, fetched: Result<AccountInfo, Raised>): Result<nat, ClientError> {
    if corrected then CheckBeforeOptIn(fetched) else CheckBeforeOptInAsWritten(fetched)
  }

  // ---------------------------------------------------------------------
  // The script as a whole

  /** What atc.execute returns that the script reads. */
  datatype ExecuteResult = ExecuteResult(abiResults: seq<AbiResult>)

  /** The ledger transactions the script sends, in order. */
  datatype Step =
    | PaidContract(payment: Payment)
    | CalledCreateTitle(landId: string, metadataUrl: string)
    | SentOptIn(account: Address, asset: AssetId)

  /** The algod node's answer to each call the script makes. */
  datatype Node = Node(
    fundingInfo: Result<AccountInfo, Raised>,
    fundSuggest: nat -> Result<(), Raised>,
    fundSend: nat -> Result<TxId, Raised>,
    fundConfirm: nat -> Result<nat, Raised>,
    callSuggest: nat -> Result<(), Raised>,
    execute: nat -> Result<ExecuteResult, Raised>,
    pending: Result<TxInfo, Raised>,
    optInInfo: Result<AccountInfo, Raised>,
    optInSuggest: nat -> Result<(), Raised>,
    optInSend: nat -> Result<TxId, Raised>,
    optInConfirm: nat -> Result<nat, Raised>)

  /** Step 2 of the script: fetch suggested parameters, then execute the
      create_title call (both under retry), then resolve the asset id.
      `called` says whether the call was handed to atc.execute. */
  method CallCreateTitle(suggest: nat -> Result<(), Raised>, execute: nat -> Result<ExecuteResult, Raised>,
                         pending: Result<TxInfo, Raised>)
    returns (r: Result<AssetId, ClientError>, called: bool)
    ensures called <==> Retried(suggest).Success?
    ensures called && Retried(execute).Success? ==> r == ResolvedAssetId(Retried(execute).value.abiResults, pending)
    ensures !(called && Retried(execute).Success?) ==> r.Failure? && r.error.NetworkError?
  {
    var sp, _, _ := RetryWithBackoff(suggest);
    called := sp.Success?;
    if sp.Failure? {
      return Failure(NetworkError(sp.error)), called;
    }
    var executed, _, _ := RetryWithBackoff(execute);
    if executed.Failure? {
      return Failure(NetworkError(executed.error)), called;
    }
    var searched;
    r, searched := DetermineAssetId(executed.value.abiResults, pending);
  }

  /** Step 3 of the script: the balance check (the script's own when
      `corrected` is false), then the admin's opt-in to the new asset, sent
      and confirmed under retry.  `sent` says whether the opt-in transaction
      was handed to send_transaction. */
  method OptInAdmin(corrected: bool, fetched: Result<AccountInfo, Raised>, suggest: nat -> Result<(), Raised>,
                    send: nat -> Result<TxId, Raised>, confirm: nat -> Result<nat, Raised>)
    returns (r: Result<(), ClientError>, sent: bool)
    ensures PreOptInCheck(corrected, fetched).Failure? ==> !sent && r == Failure(PreOptInCheck(corrected, fetched).error)
    ensures sent <==> PreOptInCheck(corrected, fetched).Success? && Retried(suggest).Success?
    ensures sent && corrected && fetched.Success? ==> OptInKeepsMinimum(fetched.value)
    ensures r.Success? <==> sent && Retried(send).Success? && Retried(confirm).Success?
    ensures r.Failure? && sent ==> r.error.NetworkError?
  {
    sent := false;
    var check := PreOptInCheck(corrected, fetched);
    if check.Failure? {
      return Failure(check.error), sent;
    }
    var params, _, _ := RetryWithBackoff(suggest);
    if params.Failure? {
      return Failure(NetworkError(params.error)), sent;
    }
    sent := true;
    var txId, _, _ := RetryWithBackoff(send);
    if txId.Failure? {
      return Failure(NetworkError(txId.error)), sent;
    }
    var confirmed, _, _ := RetryWithBackoff(confirm);
    if confirmed.Failure? {
      return Failure(NetworkError(confirmed.error)), sent;
    }
    r := Success(());
  }

  /** test_create_title: fund the contract, call create_title, resolve the
      new asset's identifier, check the balance, and opt the admin in.  Each
      step runs once the previous one has returned; the first error ends the
      run.  `steps` lists the transactions sent.  With `corrected` false the
      balance check before the opt-in is the script's own; with it true, the
      corrected one. */
  method TestCreateTitle(adminAddress: Address, appAddress: Address, node: Node, corrected: bool)
    returns (r: Result<AssetId, ClientError>, steps: seq<Step>)
    ensures CheckAccountBalance(node.fundingInfo, FundingOperationCost()).Success? && Retried(node.fundSuggest).Success? ==>
      |steps| >= 1
    ensures |steps| >= 1 && Retried(node.fundSend).Success? && Retried(node.fundConfirm).Success?
            && Retried(node.callSuggest).Success? ==>
      |steps| >= 2
    ensures |steps| >= 2 && Retried(node.execute).Success?
            && ResolvedAssetId(Retried(node.execute).value.abiResults, node.pending).Success?
            && PreOptInCheck(corrected, node.optInInfo).Success? && Retried(node.optInSuggest).Success? ==>
      |steps| == 3
    ensures r.Success? <==> |steps| == 3 && Retried(node.optInSend).Success? && Retried(node.optInConfirm).Success?
    ensures r.Success? && corrected && node.optInInfo.Success? ==> OptInKeepsMinimum(node.optInInfo.value)
    ensures CheckAccountBalance(node.fundingInfo, FundingOperationCost()).Failure? ==> steps == [] && r.Failure?
    ensures |steps| <= 3
    ensures |steps| >= 1 ==> steps[0] == PaidContract(Payment(adminAddress, appAddress, FUNDING_AMOUNT))
    ensures |steps| >= 2 ==> steps[1] == CalledCreateTitle(TEST_LAND_ID, TEST_METADATA_URL) && Retried(node.fundConfirm).Success?
    ensures |steps| == 3 ==>
      && Retried(node.execute).Success?
      && ResolvedAssetId(Retried(node.execute).value.abiResults, node.pending).Success?
      && steps[2] == SentOptIn(adminAddress, ResolvedAssetId(Retried(node.execute).value.abiResults, node.pending).value)
      && PreOptInCheck(corrected, node.optInInfo).Success?
    ensures r.Success? ==> |steps| == 3 && steps[2] == SentOptIn(adminAddress, r.value) && Retried(node.optInConfirm).Success?
    ensures r == Failure(AssetIdUnknown) ==> |steps| == 2
  {
    steps := [];
    var funded, payment := FundContractAccount(adminAddress, appAddress, node.fundingInfo,
                                               node.fundSuggest, node.fundSend, node.fundConfirm);
    if payment.Some? {
      steps := steps + [PaidContract(payment.value)];
    }
    if funded.Failure? {
      return Failure(funded.error), steps;
    }
    var assetId, called := CallCreateTitle(node.callSuggest, node.execute, node.pending);
    if called {
      steps := steps + [CalledCreateTitle(TEST_LAND_ID, TEST_METADATA_URL)];
    }
    if assetId.Failure? {
      return assetId, steps;
    }
    var optedIn, sent := OptInAdmin(corrected, node.optInInfo, node.optInSuggest, node.optInSend, node.optInConfirm);
    if sent {
      steps := steps + [SentOptIn(adminAddress, assetId.value)];
    }
    if optedIn.Failure? {
      return Failure(optedIn.error), steps;
    }
    r := assetId;
  }
}
