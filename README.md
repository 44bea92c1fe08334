# ArdhiChain land titles: a Dafny model

ArdhiChain records land titles on the Algorand ledger. Each title is an asset
(a non-fungible token) minted by a PyTeal/Beaker smart contract. This project
models two parts of the system and proves properties of them.

- **The land-title contract** (`ArdhiChain`, built on `Asa`). It is a state
  machine over one global value and a slice of the ledger. The global value
  is the `admin` address, which is empty bytes until the creation call runs.
  The ledger slice is the asset table and the holdings map. A key
  (address, asset) in the holdings map means the address has opted in.
  `ArdhiChainApp` has one method per entry point: `Create`, `CreateTitle`,
  `AdminTransferTitle` and `UserTransferTitle`, plus `OptInAccount` for the
  accounts' own opt-in transaction. `GetAdmin` and `VerifyRecord` are read-only
  functions.
- **Atomic calls.** An application call is all-or-nothing. When an `Assert`
  or an inner transaction fails, the ledger rejects the call and keeps none of
  its effects. Each method therefore returns a `Result`. On a rejection, its
  contract says the state is unchanged. `UserTransferTitle` snapshots the
  holdings before its two inner transfers and restores them if the second
  one fails.
- **Ledger rules.** The contract relies on the ledger's asset-transfer rules.
  `Asa.Transfer` states them as rejection reasons:
  - the asset exists;
  - a transfer that names an asset sender (a clawback) is issued by the
    asset's clawback address;
  - both sides have opted in;
  - the source holds enough units.

  When an asset is created, its creator holds its whole supply.
- **Invariant.** `ArdhiChainApp.Valid()` holds across every entry point. A
  title is an asset whose creator is the contract. Every title keeps the
  title shape (total 1, decimals 0, unit name "ARDHI", the contract in all
  four role addresses). The contract stays opted in to every title. The
  title's units summed over all holders (`Asa.Supply`) stay exactly 1. The
  ledger never gives an asset the identifier 0.
- **The title-creation client script** (`TitleClient`). This covers:
  - the minimum-balance check;
  - the funding cost and the funding payment;
  - the bounded retry with backoff, with waits in integer tenths of a second;
  - the search for the created asset id among the inner transactions;
  - the order in which the asset id is resolved (ABI return value, then
    inner transactions, then an error);
  - the script's sequence of steps.

  Each algod call is an oracle parameter. A retried call is a function from
  the attempt number to what that attempt returns or raises. A call made
  once is a plain `Result`.

Four facts about the code shape the model:
- The retry helper waits `RETRY_DELAY * 2^i + 0.1 * i` seconds. The waits
  grow exponentially: 2.0 s, then 4.1 s.
- `create_title` does not transfer the new asset to anyone. Its second inner
  transaction is the contract's zero-unit transfer to itself. The asset stays
  with the contract until `admin_transfer_title` moves it.
- `create_title` writes its ABI output from `InnerTxn.created_asset_id()`
  after its second inner transaction is submitted. That field belongs to the
  most recently submitted inner transaction, the zero-unit transfer, so the
  output is 0 rather than the new asset's identifier (see Findings). The
  client script copes with this: when the ABI value is falsy it searches the
  call's inner transactions for the created asset.
- `verify_record` returns the caller's own address for every asset id. The
  code documents this as a simplification, and the model reproduces it.

## Model

| member | source | states |
|---|---|---|
| `Asa.Transfer` | smart_contract/app.py:117-126 | An inner asset transfer succeeds exactly when the asset exists, a clawback is issued by the clawback address, both sides have opted in and the source holds enough units; on success the holdings are the move of those units, otherwise nothing changes |
| `Asa.Move` | smart_contract/app.py:121-124 | Moving n units leaves the set of opted-in holdings as it was, takes n from the source, adds n to the receiver and changes no other holding |
| `Asa.MovePreservesSupply` | smart_contract/app.py:151-171 | Moving units changes no asset's total over all holders |
| `Asa.TransferPreservesSupply` | smart_contract/app.py:151-171 | A successful inner transfer keeps the opted-in holdings and every asset's total over all holders |
| `Asa.SoleHolder` | smart_contract/app.py:73 | When an asset's supply is 1 and one account holds a unit, every other holding of that asset is 0 |
| `Asa.OptIn` | smart_contract/test_create_title.py:201-208 | Balances aside, an opt-in succeeds exactly when the asset exists; it adds an empty holding for the account and changes no existing holding |
| `Asa.OptInPreservesSupply` | smart_contract/test_create_title.py:201-208 | Opting in changes no asset's total over all holders |
| `ArdhiChain.TitleParams` | smart_contract/app.py:71-83 | The configuration create_title submits has the title shape (total 1, decimals 0, unit name "ARDHI", the contract as creator, manager, reserve, freeze and clawback), the land id as name and the metadata URL as url |
| `ArdhiChain.UserTransfer` | smart_contract/app.py:151-171 | The clawback to the contract followed by the transfer to the receiver succeeds exactly when the asset exists, the contract is its clawback address, the sender, the contract and the receiver have all opted in and the sender holds at least one unit; the result is the sender-to-contract move followed by the contract-to-receiver move |
| `ArdhiChain.UserTransferOfTitle` | smart_contract/app.py:142-171 | For a title whose unit the sender holds, the user transfer succeeds exactly when the receiver has opted in; the sender then holds 0, the receiver 1, and every other holding, the contract's included, is unchanged |
| `ArdhiChain.VerifyRecord` | smart_contract/app.py:176-196 | When the ledger accepts the call, verify_record returns the caller's own address whatever asset id it is asked about |
| `ArdhiChain.AsWrittenOutputIsNotTheTitle` | smart_contract/app.py:86-97 | The created-asset field read after the title's configuration is the minted identifier; read after the zero-unit transfer that follows it, it is 0 and differs from any minted identifier |
| `ArdhiChain.SupplyOfUnknownAsset` | smart_contract/app.py:70-84 | An asset identifier that no holding mentions has supply 0, so a freshly created title's supply is the one unit credited to the contract |
| `ArdhiChain.ArdhiChainApp.constructor` | smart_contract/app.py:17-23 | Before the creation call the stored admin is empty bytes, and the invariant holds |
| `ArdhiChain.ArdhiChainApp.GetAdmin` | smart_contract/app.py:198-205 | get_admin returns the stored admin: empty bytes before the creation call, a 32-byte address after it |
| `ArdhiChain.ArdhiChainApp.Create` | smart_contract/app.py:28-45 | The creation call succeeds exactly when it is the first one and the sender is the creator; it then stores the given admin address; otherwise nothing changes |
| `ArdhiChain.ArdhiChainApp.ConfigureAsset` | smart_contract/app.py:70-84 | An asset-configuration inner transaction creates an asset under a fresh identifier and credits its whole supply to its creator |
| `ArdhiChain.ArdhiChainApp.SubmitAssetTransfer` | smart_contract/app.py:118-126 | An inner asset transfer sent by the contract changes the holdings exactly as the ledger's transfer rules say, or not at all |
| `ArdhiChain.ArdhiChainApp.CreateTitle` | smart_contract/app.py:47-100 | create_title succeeds exactly when the sender is the stored admin; it then adds one fresh, nonzero asset identifier with the title configuration and credits its one unit to the contract; otherwise it fails with no state change; the supply invariant is kept. As written its output is 0, never the minted identifier; with the correction (reading the identifier before the second inner transaction) the output is the minted identifier |
| `ArdhiChain.ArdhiChainApp.AdminTransferTitle` | smart_contract/app.py:102-129 | admin_transfer_title fails unless the sender is the stored admin; then it succeeds exactly when the ledger allows one unit to move from the contract to the receiver, and for a title exactly when the contract holds it and the receiver has opted in; on success the contract loses one unit and the receiver gains one, nothing else changes; the invariant is kept |
| `ArdhiChain.ArdhiChainApp.UserTransferTitle` | smart_contract/app.py:131-174 | user_transfer_title fails unless the sender holds exactly one unit; then it succeeds exactly when both inner transfers are allowed, for a title exactly when the receiver has opted in; on success the holdings are the clawback followed by the transfer, so for a title the sender ends with 0, the receiver with 1 and every other holding, the contract's included, is unchanged; on failure nothing changes; the invariant is kept |
| `ArdhiChain.ArdhiChainApp.OptInAccount` | smart_contract/test_create_title.py:201-217 | An account's opt-in changes the holdings as the ledger's opt-in rule says, balances aside, and keeps the invariant |
| `TitleClient.BackoffSchedule` | smart_contract/test_create_title.py:51 | The waits after the first and second failed attempts are 2.0 s and 4.1 s (20 and 41 tenths) |
| `TitleClient.RetriedFrom` | smart_contract/test_create_title.py:43-53 | The retried outcome is the first attempt that returns, or the last attempt's exception; it succeeds exactly when some attempt within the limit succeeds |
| `TitleClient.RetryWithBackoff` | smart_contract/test_create_title.py:43-53 | retry_with_backoff makes between 1 and 3 attempts; every attempt but the last failed; it returns the last attempt's outcome, which is a failure only after the third attempt; after failed attempt i it waits 20 * 2^i + i tenths of a second |
| `TitleClient.CheckAccountBalance` | smart_contract/test_create_title.py:55-72 | The balance check propagates an account_info error; otherwise it fails with have and need exactly when balance < 100_000 + asset count * 100_000 + operation cost, and otherwise returns the balance |
| `TitleClient.BalanceCheckMeaning` | smart_contract/test_create_title.py:57-64 | The check passes exactly when paying the operation cost leaves the ledger minimum for the account's assets; a missing amount reads as 0 and a missing assets list as no assets |
| `TitleClient.FundingOperationCost` | smart_contract/test_create_title.py:79-83 | The funding operation cost is 25_000 + 3 * 1_000 = 28_000 microunits |
| `TitleClient.FundContractAccount` | smart_contract/test_create_title.py:74-108 | Funding sends nothing when the balance check fails and returns its error; the payment it sends is exactly 25_000 from the admin to the contract address, sent only after the check and the suggested parameters succeed; it succeeds exactly when sending and confirmation succeed within their retries |
| `TitleClient.FirstAssetIndex` | smart_contract/test_create_title.py:116-122 | The result is None exactly when no inner transaction carries a truthy asset-index; otherwise it is the nonzero asset-index of the first one that does |
| `TitleClient.AssetIdInPending` | smart_contract/test_create_title.py:110-125 | The search yields None when the transaction lookup raised or there is no inner-txns key, and never a zero identifier |
| `TitleClient.FindAssetIdInTransaction` | smart_contract/test_create_title.py:110-125 | The loop with early return computes exactly the first truthy asset-index of the inner transactions, and never raises |
| `TitleClient.ResolvedAssetId` | smart_contract/test_create_title.py:180-192 | The asset id is the first ABI return value when truthy, else the inner-transaction search's result, else the error "Could not determine created asset ID"; a resolved id is never 0 |
| `TitleClient.DetermineAssetId` | smart_contract/test_create_title.py:180-192 | The step-by-step resolution equals the resolution order above and consults the transaction lookup exactly when the ABI return value is not truthy |
| `TitleClient.CheckBeforeOptInAsWritten` | smart_contract/test_create_title.py:196-199 | The check before the opt-in, as written, passes exactly when the balance covers the current ledger minimum plus one transaction fee |
| `TitleClient.AsWrittenCheckAdmitsFailingOptIn` | smart_contract/test_create_title.py:196-199 | An account with 101_000 microunits and no assets passes that check yet cannot afford the opt-in's higher minimum balance |
| `TitleClient.CheckBeforeOptIn` | smart_contract/test_create_title.py:196-199 | The corrected check propagates an account_info error; for an account that holds no applications it passes exactly when the balance covers the opt-in fee and the ledger minimum for one more asset, and returns the balance |
| `TitleClient.CallCreateTitle` | smart_contract/test_create_title.py:159-192 | The create_title call is made exactly when the suggested parameters are obtained; when it executes, the result is the asset-id resolution; otherwise a network error |
| `TitleClient.OptInAdmin` | smart_contract/test_create_title.py:196-218 | The opt-in is sent exactly when the pre-opt-in balance check (the script's own 1_000-cost check, or the corrected one) and the suggested parameters succeed; a failed check is returned as the error; the step succeeds exactly when the opt-in is sent and then sent and confirmed within the retries; with the corrected check a sent opt-in keeps the minimum balance |
| `TitleClient.TestCreateTitle` | smart_contract/test_create_title.py:127-226 | The script sends nothing when the funding check fails; the transactions it sends are a prefix of: the 25_000 payment to the contract, the create_title call after the payment is confirmed, and the admin's opt-in to the resolved asset id after the pre-opt-in balance check (the script's own or the corrected one); each step is taken whenever the previous steps and its own calls succeed; the run succeeds exactly when all three were sent and the opt-in was sent and confirmed; when no asset id can be resolved, no opt-in is sent |

## Left out

- `smart_contract/deploy.py` is not part of this model. It only compiles the program, submits the application-create transaction and reads back the application id.
- The browser client's service layer (storage providers, provider factory, content migrator, ledger client, ownership resolver, wallet session) is not part of this model.
- Signing, private keys, mnemonics and environment variables are left out. The script's early return when `ADMIN_PRIVATE_KEY` is unset is left out too.
- `time.sleep` is left out. `RetryWithBackoff` returns the waits it would sleep instead.
- Printing and the floating-point formatting of ALGO amounts are left out. All amounts are integer microunits.
- ABI encoding and decoding, method dispatch and PyTeal compilation are left out. Each entry point is a method taking its decoded arguments and the sender.
- Transaction fees and minimum-balance enforcement are left out for every account, the contract's included. The contract code does not compute them; the ledger does.
- `Asa.OptIn` and `ArdhiChain.ArdhiChainApp.OptInAccount`: the ledger slice holds no Algo balances. An opt-in is accepted whatever the account's balance, while the ledger also refuses one that leaves the account below its minimum balance after the fee (the rule `TitleClient.OptInKeepsMinimum` states on the client side).
- Asset freezing, opting out (closing a holding) and the ledger's length limits on asset name, unit name and URL are left out. Title transfers the holders make directly, without the contract, are left out too.
- The `holder_balance` lookup of `verify_record` is left out. It has no effect on the result when the call is accepted.
- The ledger's rule that an application call may only read or move assets and accounts listed in the transaction is left out. A call naming an unlisted asset or receiver is rejected by the ledger and accepted by the model.
- `ArdhiChain.ArdhiChainApp.CreateTitle` takes a flag that selects the output: the code as written (0) or the corrected one (the minted identifier, see Findings). Its second result, `minted`, is the new asset's identifier, which the ledger records whatever the call outputs.
- `TitleClient.TestCreateTitle` and `TitleClient.OptInAdmin` take a flag that selects the pre-opt-in check: the script's own (`CheckBeforeOptInAsWritten`) or the corrected one (`CheckBeforeOptIn`, see Findings). `TestCreateTitle` also does not model reading `tx_ids[0]`, because the pending-transaction lookup is an oracle.
- The model's minimum balance (`LedgerMinBalance`) counts only the base and per-asset amounts. The ledger also charges an account for the applications it created or opted in to, and for their state schemas. `OptInKeepsMinimum` and `CheckBeforeOptIn` are therefore exact only for an account that holds no applications.
- Any algod call that raises is an oracle outcome carrying the exception's message. Its transaction ids and confirmation data are abstract values.

## Findings

| source | as written | input that shows it | evidently intended | confidence | as-written member | corrected member |
|---|---|---|---|---|---|---|
| smart_contract/test_create_title.py:196-199 | Before the admin opts in to the new asset, the balance check uses only the transaction fee (1_000) as the operation cost. An opt-in also raises the account's minimum balance by 100_000. | An admin account with `amount` 101_000 and no assets passes the check. After the opt-in fee it holds 100_000 but needs 200_000, so the ledger refuses the opt-in. | The operation cost of the opt-in is the fee plus the per-asset minimum, 101_000. For an account that holds no applications, the check then passes exactly when the opt-in can be afforded. | medium, not executed | `TitleClient.AsWrittenCheckAdmitsFailingOptIn` | `TitleClient.CheckBeforeOptIn` |
| smart_contract/app.py:97 | After the second `InnerTxnBuilder.Submit()` (the contract's zero-unit transfer to itself), the output is set from `InnerTxn.created_asset_id()`, which reads the most recently submitted inner transaction. An asset transfer creates no asset, so that field is 0. | The admin calls `create_title("TEST-PLOT-001", "ipfs://QmTest123")` when the next asset identifier is 7. Asset 7 is created, and the call outputs 0. | The output is the identifier of the asset the configuration created, read after the first submit, before the second `Begin()`. | high, not executed | `ArdhiChain.AsWrittenOutputIsNotTheTitle` | `ArdhiChain.ArdhiChainApp.CreateTitle` |
