/** The slice of the ledger's asset rules (Algorand Standard Assets) that the
    land-title contract relies on: the asset table, the holdings map, and the
    checks the ledger makes before an asset transfer is applied.  An entry
    for (holder, asset) in the holdings map means the holder has opted in. */
module Asa {
  import opened Outcomes

  type Bytes = seq<bv8>
  /** An account address: 32 bytes (a public key).  The empty byte string,
      the contract's initial admin value, is therefore never an address. */
  type Address = a: Bytes | |a| == 32 witness seq(32, i => 0)
  type AssetId = nat

  datatype AssetParams = AssetParams(
    creator: Address,
    total: nat,
    decimals: nat,
    name: string,
    unitName: string,
    url: string,
    manager: Address,
    reserve: Address,
    freeze: Address,
    clawback: Address)

  datatype HoldingKey = HoldingKey(holder: Address, asset: AssetId)
  type Holdings = map<HoldingKey, nat>

  /** Why the ledger refuses an asset transfer. */
  datatype TransferError =
    | UnknownAsset
    | NotClawback
    | SenderNotOptedIn
    | ReceiverNotOptedIn
    | InsufficientUnits

  /** What a single holding contributes to the supply of `id`. */
  function Share(h: Holdings, k: HoldingKey, id: AssetId): nat
    requires k in h
  {
    if k.asset == id then h[k] else 0
  }

  /** Units of asset `id` summed over every holder. */
  ghost function Supply(h: Holdings, id: AssetId): nat
    decreases |h|
  {
    if h == map[] then 0
    else
      var k :| k in h;
      Share(h, k, id) + Supply(h - {k}, id)
  }

  /** The supply can be split at any holding, not only at the one the
      definition happens to choose. */
  lemma {:induction false} SupplyPick(h: Holdings, k: HoldingKey, id: AssetId)
    requires k in h
    ensures Supply(h, id) == Share(h, k, id) + Supply(h - {k}, id)
    decreases |h|
  {
    var j :| j in h && Supply(h, id) == Share(h, j, id) + Supply(h - {j}, id);
    if j != k {
      var hj, hk := h - {j}, h - {k};
      SupplyPick(hj, k, id);
      SupplyPick(hk, j, id);
      assert Share(hj, k, id) == Share(h, k, id) && Share(hk, j, id) == Share(h, j, id);
      assert hj - {k} == hk - {j};
    }
  }

  /** Overwriting one holding changes the supply by the difference. */
  lemma {:induction false} SupplyUpdate(h: Holdings, k: HoldingKey, v: nat, id: AssetId)
    ensures k in h ==> Supply(h[k := v], id) + Share(h, k, id) == Supply(h, id) + (if k.asset == id then v else 0)
    ensures k !in h ==> Supply(h[k := v], id) == Supply(h, id) + (if k.asset == id then v else 0)
  {
    var h' := h[k := v];
    SupplyPick(h', k, id);
    if k in h {
      SupplyPick(h, k, id);
      assert h' - {k} == h - {k};
    } else {
      assert h' - {k} == h;
    }
  }

  /** No single holding exceeds the supply. */
  lemma SupplyBound(h: Holdings, k: HoldingKey)
    requires k in h
    ensures h[k] <= Supply(h, k.asset)
  {
    SupplyPick(h, k, k.asset);
  }

  /** When the supply of `id` is 1 and `k` holds that unit, every other
      holding of `id` is 0: the unit has exactly one holder. */
  lemma SoleHolder(h: Holdings, k: HoldingKey, other: HoldingKey)
    requires k in h && h[k] == 1 && Supply(h, k.asset) == 1
    requires other in h && other.asset == k.asset && other != k
    ensures h[other] == 0
  {
    SupplyPick(h, k, k.asset);
    SupplyBound(h - {k}, other);
  }

  /** Moves `n` units of `id` from `from` to `to`; both must hold the asset. */
  function Move(h: Holdings, id: AssetId, from: Address, to: Address, n: nat): (r: Holdings)
    requires HoldingKey(from, id) in h && HoldingKey(to, id) in h
    requires n <= h[HoldingKey(from, id)]
    ensures r.Keys == h.Keys
    ensures from != to ==> r[HoldingKey(from, id)] == h[HoldingKey(from, id)] - n
    ensures from != to ==> r[HoldingKey(to, id)] == h[HoldingKey(to, id)] + n
    ensures forall k :: k in h && k != HoldingKey(from, id) && k != HoldingKey(to, id) ==> r[k] == h[k]
    ensures from == to ==> r == h
  {
    if from == to then h
    else
      var kf, kt := HoldingKey(from, id), HoldingKey(to, id);
      h[kf := h[kf] - n][kt := h[kt] + n]
  }

  /** A move changes no asset's supply. */
  lemma MovePreservesSupply(h: Holdings, id: AssetId, from: Address, to: Address, n: nat, any: AssetId)
    requires HoldingKey(from, id) in h && HoldingKey(to, id) in h
    requires n <= h[HoldingKey(from, id)]
    ensures Supply(Move(h, id, from, to, n), any) == Supply(h, any)
  {
    if from != to {
      var kf, kt := HoldingKey(from, id), HoldingKey(to, id);
      var h1 := h[kf := h[kf] - n];
      SupplyUpdate(h, kf, h[kf] - n, any);
      SupplyUpdate(h1, kt, h[kt] + n, any);
    }
  }

  /** The ledger's checks for an asset transfer issued by `txnSender`.  When
      `assetSender` is given the transfer is a clawback: the units leave
      that account and `txnSender` must be the asset's clawback address.
      Otherwise the units leave `txnSender` itself.  A zero-unit transfer to
      oneself by an account that has not opted in is the ledger's opt-in,
      which succeeds; it is modelled by OptIn below, and Transfer refuses it
      with SenderNotOptedIn.  The contract never issues that case: its
      self-transfer in create_title comes from the asset's creator, who
      already holds it. */
  function Transfer(assets: map<AssetId, AssetParams>, h: Holdings, txnSender: Address,
                    assetSender: Option<Address>, receiver: Address, id: AssetId, amount: nat)
    : (r: Result<Holdings, TransferError>)
    ensures r.Success? <==>
      && id in assets
      && (assetSender.Some? ==> txnSender == assets[id].clawback)
      && HoldingKey(assetSender.GetOr(txnSender), id) in h
      && HoldingKey(receiver, id) in h
      && amount <= h[HoldingKey(assetSender.GetOr(txnSender), id)]
    ensures r.Success? ==> r.value == Move(h, id, assetSender.GetOr(txnSender), receiver, amount)
    ensures id !in assets ==> r == Failure(UnknownAsset)
  {
    var from := assetSender.GetOr(txnSender);
    if id !in assets then Failure(UnknownAsset)
    else if assetSender.Some? && txnSender != assets[id].clawback then Failure(NotClawback)
    else if HoldingKey(from, id) !in h then Failure(SenderNotOptedIn)
    else if HoldingKey(receiver, id) !in h then Failure(ReceiverNotOptedIn)
    else if h[HoldingKey(from, id)] < amount then Failure(InsufficientUnits)
    else Success(Move(h, id, from, receiver, amount))
  }

  /** A successful transfer changes no asset's supply and keeps the set of
      opted-in holdings. */
  lemma TransferPreservesSupply(assets: map<AssetId, AssetParams>, h: Holdings, txnSender: Address,
                                assetSender: Option<Address>, receiver: Address, id: AssetId, amount: nat, any: AssetId)
    requires Transfer(assets, h, txnSender, assetSender, receiver, id, amount).Success?
    ensures var h' := Transfer(assets, h, txnSender, assetSender, receiver, id, amount).value;
      h'.Keys == h.Keys && Supply(h', any) == Supply(h, any)
  {
    MovePreservesSupply(h, id, assetSender.GetOr(txnSender), receiver, amount, any);
  }

  /** An account's opt-in to an asset: a zero-unit transfer to itself, which
      adds an empty holding if there was none.  Holdings carry no Algo
      balance, so the ledger's refusal of an opt-in that would leave the
      account below its minimum balance is not part of this rule. */
  function OptIn(assets: map<AssetId, AssetParams>, h: Holdings, account: Address, id: AssetId)
    : (r: Result<Holdings, TransferError>)
    ensures r.Success? <==> id in assets
    ensures r.Success? ==> r.value.Keys == h.Keys + {HoldingKey(account, id)}
    ensures r.Success? ==> forall k :: k in h ==> r.value[k] == h[k]
    ensures r.Success? && HoldingKey(account, id) !in h ==> r.value[HoldingKey(account, id)] == 0
  {
    var k := HoldingKey(account, id);
    if id !in assets then Failure(UnknownAsset)
    else if k in h then Success(h)
    else Success(h[k := 0])
  }

  /** Opting in changes no asset's supply. */
  lemma OptInPreservesSupply(assets: map<AssetId, AssetParams>, h: Holdings, account: Address, id: AssetId, any: AssetId)
    requires OptIn(assets, h, account, id).Success?
    ensures Supply(OptIn(assets, h, account, id).value, any) == Supply(h, any)
  {
    var k := HoldingKey(account, id);
    if k !in h {
      SupplyUpdate(h, k, 0, any);
    }
  }
}
