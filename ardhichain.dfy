/** The ArdhiChain land-title contract: one global value (the admin address)
    plus the part of the ledger its entry points touch (the asset table and
    the holdings map).  Each entry point is one method.  An application call
    is atomic on the ledger: when an assertion or an inner transaction fails,
    the call is rejected and nothing it did is kept. */
module ArdhiChain {
  import opened Outcomes
  import opened Asa

  /** The unit name every title asset carries. */
  const UNIT_NAME: string := "ARDHI"

  datatype Rejection =
    | NotCreator
    | AlreadyCreated
    | NotAdmin
    | NotTitleHolder
    | InnerTransferFailed(reason: TransferError)

  /** The shape of a land title: a single indivisible unit whose four role
      addresses are all the contract, so that only the contract can move it. */
  predicate IsTitle(p: AssetParams, app: Address) {
    && p.creator == app
    && p.total == 1
    && p.decimals == 0
    && p.unitName == UNIT_NAME
    && p.manager == app && p.reserve == app && p.freeze == app && p.clawback == app
  }

  /** The asset configuration create_title submits, issued by the contract. */
  function TitleParams(app: Address, landId: string, metadataUrl: string): (p: AssetParams)
    ensures IsTitle(p, app)
    ensures p.name == landId && p.url == metadataUrl
  {
    AssetParams(app, 1, 0, landId, UNIT_NAME, metadataUrl, app, app, app, app)
  }

  /** The holdings after user_transfer_title's two inner transfers: a
      clawback of one unit from `sender` to the contract, then one unit from
      the contract to `receiver`.  Both succeed exactly when the contract is
      the asset's clawback address, the sender, the contract and the
      receiver have all opted in, and the sender holds a unit. */
  function UserTransfer(assets: map<AssetId, AssetParams>, h: Holdings, app: Address,
                        sender: Address, receiver: Address, id: AssetId)
    : (r: Result<Holdings, TransferError>)
    ensures r.Success? <==>
      && id in assets && assets[id].clawback == app
      && HoldingKey(sender, id) in h && HoldingKey(app, id) in h && HoldingKey(receiver, id) in h
      && h[HoldingKey(sender, id)] >= 1
    ensures r.Success? ==> r.value == Move(Move(h, id, sender, app, 1), id, app, receiver, 1)
  {
    match Transfer(assets, h, app, Some(sender), app, id, 1)
    case Failure(e) => Failure(e)
    case Success(mid) => Transfer(assets, mid, app, Some(app), receiver, id, 1)
  }

  /** For a title whose one unit `sender` holds, a user transfer succeeds
      exactly when the receiver has opted in; the sender then holds 0, the
      receiver 1, and every other holding (the contract's included, unless it
      is the receiver) is as before. */
  lemma UserTransferOfTitle(assets: map<AssetId, AssetParams>, h: Holdings, app: Address,
                            sender: Address, receiver: Address, id: AssetId)
    requires id in assets && IsTitle(assets[id], app)
    requires HoldingKey(app, id) in h && Supply(h, id) == 1
    requires HoldingKey(sender, id) in h && h[HoldingKey(sender, id)] == 1
    requires sender != receiver
    ensures UserTransfer(assets, h, app, sender, receiver, id).Success? <==> HoldingKey(receiver, id) in h
    ensures UserTransfer(assets, h, app, sender, receiver, id).Success? ==>
      var h' := UserTransfer(assets, h, app, sender, receiver, id).value;
      && h'.Keys == h.Keys
      && h'[HoldingKey(sender, id)] == 0
      && h'[HoldingKey(receiver, id)] == 1
      && forall k :: k in h && k != HoldingKey(sender, id) && k != HoldingKey(receiver, id) ==> h'[k] == h[k]
  {
    var ks, ka, kr := HoldingKey(sender, id), HoldingKey(app, id), HoldingKey(receiver, id);
    if sender != app {
      SoleHolder(h, ks, ka);
    }
    if kr in h {
      SoleHolder(h, ks, kr);
    }
  }

  /** verify_record's answer when the ledger accepts the call: the caller's
      own address, whatever asset is asked about.  The contract documents
      this as a simplification. */
  function VerifyRecord(sender: Address, asaId: AssetId): (owner: Address)
    ensures owner == sender
  {
    sender
  }

  /** An inner transaction create_title submits: the title's configuration,
      which the ledger answers with the new asset's identifier, or an asset
      transfer. */
  datatype InnerTxn =
    | AssetConfig(params: AssetParams, created: AssetId)
    | AssetTransfer(assetSender: Option<Address>, receiver: Address, asset: AssetId, amount: nat)

  /** `InnerTxn.created_asset_id()`: the created-asset field of the most
      recently submitted inner transaction.  Only a configuration that
      creates an asset sets it; for a transfer it reads 0. */
  function CreatedAssetId(last: InnerTxn): AssetId {
    if last.AssetConfig? then last.created else 0
  }

  /** After create_title's second submit the most recent inner transaction
      is the zero-unit transfer, so reading the created-asset field there
      yields 0, never the identifier of the title just minted; read after
      the first submit, the field is that identifier. */
  lemma AsWrittenOutputIsNotTheTitle(app: Address, landId: string, metadataUrl: string, minted: AssetId)
    requires minted != 0
    ensures var config := AssetConfig(TitleParams(app, landId, metadataUrl), minted);
      && CreatedAssetId(config) == minted
      && CreatedAssetId(AssetTransfer(None, app, CreatedAssetId(config), 0)) != minted
  {
  }

  class ArdhiChainApp {
    /** The contract's own account address. */
    const appAddress: Address
    /** The account that created the application. */
    const creatorAddress: Address

    /** Global state key "admin"; empty bytes until `create` runs. */
    var admin: Bytes
    /** Whether the application-creation call has run. */
    var created: bool
    var assets: map<AssetId, AssetParams>
    var holdings: Holdings
    /** The identifier the ledger gives the next asset created; the ledger
        never uses 0, which stands for "no asset". */
    var nextAssetId: AssetId

    /** An asset minted by create_title: only this contract creates assets
        whose creator is its own address. */
    ghost predicate IsTitleAsset(id: AssetId)
      reads this
    {
      id in assets && assets[id].creator == appAddress
    }

    ghost predicate Valid()
      reads this
    {
      && (!created ==> admin == [])
      && (created ==> |admin| == 32)
      && (forall k | k in holdings :: k.asset in assets)
      && (forall id | id in assets :: id < nextAssetId)
      && 1 <= nextAssetId
      && (forall id | IsTitleAsset(id) ::
            && IsTitle(assets[id], appAddress)
            && HoldingKey(appAddress, id) in holdings
            && Supply(holdings, id) == 1)
    }

    /** The ledger just before the application-creation call: the admin
        value is still its default, empty bytes, and no asset has the new
        contract as creator. */
    constructor (appAddress: Address, creatorAddress: Address,
                 assets: map<AssetId, AssetParams>, holdings: Holdings, nextAssetId: AssetId)
      requires forall k | k in holdings :: k.asset in assets
      requires forall id | id in assets :: id < nextAssetId && assets[id].creator != appAddress
      requires 1 <= nextAssetId
      ensures Valid()
      ensures !created && admin == []
      ensures this.appAddress == appAddress && this.creatorAddress == creatorAddress
      ensures this.assets == assets && this.holdings == holdings && this.nextAssetId == nextAssetId
    {
      this.appAddress := appAddress;
      this.creatorAddress := creatorAddress;
      this.admin := [];
      this.created := false;
      this.assets := assets;
      this.holdings := holdings;
      this.nextAssetId := nextAssetId;
    }

    /** get_admin: the stored admin, empty until `create` has run. */
    function GetAdmin(): (a: Bytes)
      reads this
      requires Valid()
      ensures a == admin
      ensures !created ==> a == []
      ensures created ==> |a| == 32
    {
      admin
    }

    /** create: the application-creation call.  Only the creator may make it,
        and only once; it stores the given admin address.  During the
        creation call the creator is the call's own sender, so on the ledger
        the `NotCreator` rejection is never reached; the model keeps the
        check as the code writes it. */
    method Create(sender: Address, adminAddr: Address) returns (r: Result<(), Rejection>)
      requires Valid()
      modifies this`admin, this`created
      ensures Valid()
      ensures r.Success? <==> !old(created) && sender == creatorAddress
      ensures old(created) ==> r == Failure(AlreadyCreated)
      ensures !old(created) && sender != creatorAddress ==> r == Failure(NotCreator)
      ensures r.Success? ==> created && GetAdmin() == adminAddr
      ensures r.Failure? ==> created == old(created) && admin == old(admin)
    {
      if created {
        return Failure(AlreadyCreated);
      }
      if sender != creatorAddress {
        return Failure(NotCreator);
      }
      admin := adminAddr;
      created := true;
      r := Success(());
    }

    /** One asset-configuration inner transaction: the ledger gives the new
        asset the next identifier and credits its whole supply to the
        creator. */
    method ConfigureAsset(p: AssetParams) returns (id: AssetId)
      requires forall i | i in assets :: i < nextAssetId
      modifies this`assets, this`holdings, this`nextAssetId
      ensures id == old(nextAssetId) && id !in old(assets)
      ensures assets == old(assets)[id := p]
      ensures holdings == old(holdings)[HoldingKey(p.creator, id) := p.total]
      ensures nextAssetId == id + 1
    {
      id := nextAssetId;
      assets := assets[id := p];
      holdings := holdings[HoldingKey(p.creator, id) := p.total];
      nextAssetId := nextAssetId + 1;
    }

    /** One asset-transfer inner transaction sent by the contract; the ledger
        applies it only when Transfer allows it. */
    method SubmitAssetTransfer(assetSender: Option<Address>, receiver: Address, id: AssetId, amount: nat)
      returns (r: Result<(), TransferError>)
      modifies this`holdings
      ensures var t := Transfer(assets, old(holdings), appAddress, assetSender, receiver, id, amount);
        && (r.Success? <==> t.Success?)
        && (t.Failure? ==> r == Failure(t.error))
        && holdings == (if t.Success? then t.value else old(holdings))
    {
      match Transfer(assets, holdings, appAddress, assetSender, receiver, id, amount)
      case Failure(e) =>
        r := Failure(e);
      case Success(h) =>
        holdings := h;
        r := Success(());
    }

    /** create_title: admin only.  Mints a one-unit, zero-decimal asset named
        after the land identifier, with the metadata URL, unit name "ARDHI"
        and the contract in all four roles (`minted`), and opts the contract
        in to it.  Its ABI output is read from the most recent inner
        transaction after both submits: as written that is the opt-in
        transfer, so the output is 0.  With `corrected` the identifier is
        read before the second inner transaction begins, and the output is
        the minted title. */
    method CreateTitle(sender: Address, landId: string, metadataUrl: string, corrected: bool)
      returns (r: Result<AssetId, Rejection>, minted: AssetId)
      requires Valid()
      modifies this`assets, this`holdings, this`nextAssetId
      ensures Valid()
      ensures r.Success? <==> sender == old(GetAdmin())
      ensures r.Failure? ==>
        && r.error == NotAdmin
        && assets == old(assets) && holdings == old(holdings) && nextAssetId == old(nextAssetId)
      ensures r.Success? ==>
        && minted != 0
        && minted !in old(assets)
        && IsTitleAsset(minted)
        && assets == old(assets)[minted := TitleParams(appAddress, landId, metadataUrl)]
        && holdings == old(holdings)[HoldingKey(appAddress, minted) := 1]
      ensures r.Success? && !corrected ==> r.value == 0 && r.value != minted
      ensures r.Success? && corrected ==> r.value == minted
    {
      minted := 0;
      if sender != admin {
        return Failure(NotAdmin), minted;
      }
      ghost var h0 := holdings;
      var p := TitleParams(appAddress, landId, metadataUrl);
      minted := ConfigureAsset(p);
      var last := AssetConfig(p, minted);
      var createdId := CreatedAssetId(last);
      // The contract's zero-unit transfer to itself: it already holds the
      // asset it created, so this opt-in changes nothing.
      var optIn := SubmitAssetTransfer(None, appAddress, createdId, 0);
      assert optIn.Success?;
      last := AssetTransfer(None, appAddress, createdId, 0);
      r := Success(if corrected then createdId else CreatedAssetId(last));
      forall any: AssetId | IsTitleAsset(any)
        ensures Supply(holdings, any) == 1
      {
        SupplyUpdate(h0, HoldingKey(appAddress, minted), 1, any);
        if any == minted {
          SupplyOfUnknownAsset(h0, minted);
        }
      }
    }

    /** admin_transfer_title: admin only.  Moves one unit of the asset from
        the contract to the receiver, who must have opted in. */
    method AdminTransferTitle(sender: Address, assetId: AssetId, receiver: Address)
      returns (r: Result<(), Rejection>)
      requires Valid()
      modifies this`holdings
      ensures Valid()
      ensures sender != old(GetAdmin()) ==> r == Failure(NotAdmin)
      ensures sender == old(GetAdmin()) ==>
        var t := Transfer(assets, old(holdings), appAddress, Some(appAddress), receiver, assetId, 1);
        && (r.Success? <==> t.Success?)
        && (t.Failure? ==> r == Failure(InnerTransferFailed(t.error)))
      ensures r.Success? ==> holdings == Move(old(holdings), assetId, appAddress, receiver, 1)
      ensures r.Failure? ==> holdings == old(holdings)
      ensures IsTitleAsset(assetId) && sender == old(GetAdmin()) ==>
        (r.Success? <==> old(holdings)[HoldingKey(appAddress, assetId)] == 1 && HoldingKey(receiver, assetId) in old(holdings))
    {
      if sender != admin {
        return Failure(NotAdmin);
      }
      ghost var h0 := holdings;
      if IsTitleAsset(assetId) {
        SupplyBound(h0, HoldingKey(appAddress, assetId));
      }
      var sent := SubmitAssetTransfer(Some(appAddress), receiver, assetId, 1);
      if sent.Failure? {
        return Failure(InnerTransferFailed(sent.error));
      }
      r := Success(());
      forall any: AssetId ensures Supply(holdings, any) == Supply(h0, any) {
        TransferPreservesSupply(assets, h0, appAddress, Some(appAddress), receiver, assetId, 1, any);
      }
    }

    /** user_transfer_title: the caller must hold exactly one unit.  The
        contract claws the unit back to itself, then sends it to the
        receiver, who must have opted in. */
    method UserTransferTitle(sender: Address, assetId: AssetId, receiver: Address)
      returns (r: Result<(), Rejection>)
      requires Valid()
      modifies this`holdings
      ensures Valid()
      ensures !(HoldingKey(sender, assetId) in old(holdings) && old(holdings)[HoldingKey(sender, assetId)] == 1) ==>
        r == Failure(NotTitleHolder)
      ensures HoldingKey(sender, assetId) in old(holdings) && old(holdings)[HoldingKey(sender, assetId)] == 1 ==>
        var t := UserTransfer(assets, old(holdings), appAddress, sender, receiver, assetId);
        && (r.Success? <==> t.Success?)
        && (t.Failure? ==> r == Failure(InnerTransferFailed(t.error)))
      ensures r.Success? ==> holdings == UserTransfer(assets, old(holdings), appAddress, sender, receiver, assetId).value
      ensures r.Failure? ==> holdings == old(holdings)
      ensures IsTitleAsset(assetId) && sender != receiver
              && HoldingKey(sender, assetId) in old(holdings) && old(holdings)[HoldingKey(sender, assetId)] == 1 ==>
        (r.Success? <==> HoldingKey(receiver, assetId) in old(holdings))
      ensures IsTitleAsset(assetId) && sender != receiver && r.Success? ==>
        && holdings[HoldingKey(sender, assetId)] == 0
        && holdings[HoldingKey(receiver, assetId)] == 1
        && forall k :: k in old(holdings) && k != HoldingKey(sender, assetId) && k != HoldingKey(receiver, assetId) ==>
             holdings[k] == old(holdings)[k]
    {
      var ks := HoldingKey(sender, assetId);
      if !(ks in holdings && holdings[ks] == 1) {
        return Failure(NotTitleHolder);
      }
      ghost var h0 := holdings;
      var saved := holdings;
      var clawed := SubmitAssetTransfer(Some(sender), appAddress, assetId, 1);
      if clawed.Failure? {
        return Failure(InnerTransferFailed(clawed.error));
      }
      ghost var h1 := holdings;
      var sent := SubmitAssetTransfer(Some(appAddress), receiver, assetId, 1);
      if sent.Failure? {
        // The ledger rejects the whole call: the clawback is undone too.
        holdings := saved;
        assert holdings == h0;
        return Failure(InnerTransferFailed(sent.error));
      }
      r := Success(());
      forall any: AssetId ensures Supply(holdings, any) == Supply(h0, any) {
        TransferPreservesSupply(assets, h0, appAddress, Some(sender), appAddress, assetId, 1, any);
        TransferPreservesSupply(assets, h1, appAddress, Some(appAddress), receiver, assetId, 1, any);
      }
      if IsTitleAsset(assetId) && sender != receiver {
        UserTransferOfTitle(assets, h0, appAddress, sender, receiver, assetId);
      }
    }

    /** An account's opt-in to an asset (a ledger transaction the client
        sends before it can receive a title). */
    method OptInAccount(account: Address, assetId: AssetId) returns (r: Result<(), TransferError>)
      requires Valid()
      modifies this`holdings
      ensures Valid()
      ensures var t := OptIn(assets, old(holdings), account, assetId);
        && (r.Success? <==> t.Success?)
        && holdings == (if t.Success? then t.value else old(holdings))
    {
      match OptIn(assets, holdings, account, assetId)
      case Failure(e) =>
        r := Failure(e);
      case Success(h) =>
        ghost var h0 := holdings;
        holdings := h;
        r := Success(());
        forall any: AssetId ensures Supply(holdings, any) == Supply(h0, any) {
          OptInPreservesSupply(assets, h0, account, assetId, any);
        }
    }
  }

  /** An asset nobody holds has supply 0. */
  lemma {:induction false} SupplyOfUnknownAsset(h: Holdings, id: AssetId)
    requires forall k | k in h :: k.asset != id
    ensures Supply(h, id) == 0
    decreases |h|
  {
    if h != map[] {
      var k :| k in h;
      SupplyPick(h, k, id);
      SupplyOfUnknownAsset(h - {k}, id);
    }
  }
}
