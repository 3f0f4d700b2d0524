/** The owner's properties page (`frontend/app/my-properties/page.ts`): the
    rows of `fetchProperties`, the rent withdrawal and the placeholder delete
    action. */
module MyProperties {
  import opened Common
  import opened Chain
  import opened Ipfs

  /** One row of the owner's table (`Property`). Amounts stay in wei. */
  datatype OwnedProperty = OwnedProperty(
    id: nat,
    title: string,
    location: string,
    priceWei: nat,
    isAvailable: bool,
    renter: Option<Address>,
    rentCollectedWei: nat,
    rentDue: Option<string>,
    ipfsMetadataHash: string,
    imageUrl: string,
    area: Option<int>,
    bedrooms: nat,
    bathrooms: nat,
    rentalId: Option<nat>)

  /** What one run of `fetchProperties` observes: the owner's id list, the
      property records, the active rental id of each property (0 for none) and
      the escrow's rent balance of each rental. A key missing from a map is a
      read that throws. */
  datatype OwnerReads = OwnerReads(
    ownerProperties: map<Address, seq<nat>>,
    properties: map<nat, Read<PropertyData>>,
    activeRentalIds: map<nat, nat>,
    rentBalances: map<nat, nat>,
    ipfs: IpfsEnv)

  const UntitledProperty: string := "Untitled Property"
  const PlaceholderImage: string := "/placeholder.svg"
  const DeleteUnavailable: string := "Delete functionality not yet implemented."

  /** The contract answers 0 for a property without an active rental. */
  function ActiveRentalId(raw: nat): (r: Option<nat>)
    ensures r.Some? <==> raw > 0
    ensures r.Some? ==> r.value == raw && r.value > 0
  {
    if raw > 0 then Some(raw) else None
  }

  /** The row built from a listed property, its metadata, its active rental
      and the rent collected for that rental. */
  function OwnedRow(id: nat, p: PropertyData, meta: Option<Metadata>, rentalId: Option<nat>, collected: nat): OwnedProperty
  {
    OwnedProperty(
      id,
      OrElse(TitleOf(meta), UntitledProperty),
      p.location,
      p.pricePerMonth,
      rentalId.None?,
      None,
      collected,
      None,
      p.ipfsMetadataHash,
      OrElse(ImageUrlOf(meta), PlaceholderImage),
      AreaOf(meta),
      p.bedrooms,
      p.bathrooms,
      rentalId)
  }

  /** One iteration of the loop over the owner's property ids. */
  function OwnedStep(id: nat, snap: OwnerReads): (s: Step<OwnedProperty>)
    ensures s.Emit? ==> ReadAt(snap.properties, id).Got? && ReadAt(snap.properties, id).value.isListed
                        && s.row.id == id
    ensures ReadAt(snap.properties, id).Null? ==> s == Skip
    ensures ReadAt(snap.properties, id).Got? && !ReadAt(snap.properties, id).value.isListed ==> s == Skip
  {
    match ReadAt(snap.properties, id)
    case Threw => Abort
    case Null => Skip
    case Got(p) => if !p.isListed then Skip else AfterListedRead(id, p, snap)
  }

  /** The rest of an iteration for a listed property: the metadata fetch
      (which never throws), the active rental read, and the escrow read,
      issued only when a rental is active. */
  function AfterListedRead(id: nat, p: PropertyData, snap: OwnerReads): (s: Step<OwnedProperty>)
    ensures s != Skip
    ensures s.Emit? ==> s.row.id == id
  {
    var meta := FetchMetadata(snap.ipfs, Some(p.ipfsMetadataHash));
    if id !in snap.activeRentalIds then Abort
    else
      var rentalId := ActiveRentalId(snap.activeRentalIds[id]);
      if rentalId.None? then Emit(OwnedRow(id, p, meta, None, 0))
      else if rentalId.value !in snap.rentBalances then Abort
      else Emit(OwnedRow(id, p, meta, rentalId, snap.rentBalances[rentalId.value]))
  }

  /** The rows after visiting `ids` in order, or `None` when a read threw. */
  function SelectOwned(ids: seq<nat>, snap: OwnerReads): (r: Option<seq<OwnedProperty>>)
    ensures r.Some? ==> |r.value| <= |ids|
    decreases |ids|
  {
    if ids == [] then Some([])
    else
      match SelectOwned(DropLast(ids), snap)
      case None => None
      case Some(rows) =>
        match OwnedStep(Last(ids), snap)
        case Abort => None
        case Skip => Some(rows)
        case Emit(row) => Some(rows + [row])
  }

  lemma {:induction false} OwnedAbortIsFinal(ids: seq<nat>, k: nat, snap: OwnerReads)
    requires k <= |ids| && SelectOwned(ids[..k], snap).None?
    ensures SelectOwned(ids, snap).None?
    decreases |ids| - k
  {
    if k < |ids| {
      assert DropLast(ids[..k + 1]) == ids[..k];
      OwnedAbortIsFinal(ids, k + 1, snap);
    } else {
      assert ids[..k] == ids;
    }
  }

  /** The loop of `fetchProperties`: rows in the order of the owner's ids, or
      `None` when a read inside the loop threw. */
  method CollectOwnedProperties(ids: seq<nat>, snap: OwnerReads) returns (rows: Option<seq<OwnedProperty>>)
    ensures rows == SelectOwned(ids, snap)
  {
    var propertiesData: seq<OwnedProperty> := [];
    var i := 0;
    while i < |ids|
      invariant 0 <= i <= |ids|
      invariant SelectOwned(ids[..i], snap) == Some(propertiesData)
    {
      assert DropLast(ids[..i + 1]) == ids[..i] && Last(ids[..i + 1]) == ids[i];
      match OwnedStep(ids[i], snap) {
        case Abort =>
          OwnedAbortIsFinal(ids, i + 1, snap);
          return None;
        case Skip =>
        case Emit(row) =>
          propertiesData := propertiesData + [row];
      }
      i := i + 1;
    }
    assert ids[..i] == ids;
    rows := Some(propertiesData);
  }

  /** Every row is a listed property from the owner's list; it is available
      exactly when it has no active rental, its rental is the one the rental
      contract reports, the rent collected is that rental's escrow balance (0
      without a rental), and renter and rent due are never filled in. */
  lemma {:induction false} RowsAreListedProperties(ids: seq<nat>, snap: OwnerReads)
    requires SelectOwned(ids, snap).Some?
    ensures forall r :: r in SelectOwned(ids, snap).value ==>
              && r.id in ids
              && ReadAt(snap.properties, r.id).Got?
              && ReadAt(snap.properties, r.id).value.isListed
              && r.location == ReadAt(snap.properties, r.id).value.location
              && r.priceWei == ReadAt(snap.properties, r.id).value.pricePerMonth
              && r.id in snap.activeRentalIds
              && r.rentalId == ActiveRentalId(snap.activeRentalIds[r.id])
              && (r.isAvailable <==> r.rentalId.None?)
              && (r.rentalId.None? ==> r.rentCollectedWei == 0)
              && (r.rentalId.Some? ==> r.rentalId.value in snap.rentBalances
                                       && r.rentCollectedWei == snap.rentBalances[r.rentalId.value])
              && r.renter.None? && r.rentDue.None?
    decreases |ids|
  {
    if ids != [] {
      RowsAreListedProperties(DropLast(ids), snap);
      assert ids == DropLast(ids) + [Last(ids)];
    }
  }

  function PropertyIds(rows: seq<OwnedProperty>): (ids: seq<nat>)
    ensures |ids| == |rows|
    ensures forall k :: 0 <= k < |rows| ==> ids[k] == rows[k].id
  {
    seq(|rows|, k requires 0 <= k < |rows| => rows[k].id)
  }

  /** The rows follow the order of the owner's property-id list. */
  lemma {:induction false} RowsFollowOwnerOrder(ids: seq<nat>, snap: OwnerReads)
    requires SelectOwned(ids, snap).Some?
    ensures IsSubsequence(PropertyIds(SelectOwned(ids, snap).value), ids)
    decreases |ids|
  {
    if ids != [] {
      var rows := SelectOwned(DropLast(ids), snap).value;
      RowsFollowOwnerOrder(DropLast(ids), snap);
      assert ids == DropLast(ids) + [Last(ids)];
      match OwnedStep(Last(ids), snap)
      case Skip =>
        SubsequenceAppendRight(PropertyIds(rows), DropLast(ids), Last(ids));
      case Emit(row) =>
        assert PropertyIds(rows + [row]) == PropertyIds(rows) + [Last(ids)];
        SubsequenceAppendBoth(PropertyIds(rows), DropLast(ids), Last(ids));
    }
  }

  /** When no read fails, every listed property in the owner's list has a row. */
  lemma {:induction false} EveryListedPropertyIsShown(ids: seq<nat>, snap: OwnerReads, id: nat)
    requires SelectOwned(ids, snap).Some?
    requires id in ids && ReadAt(snap.properties, id).Got? && ReadAt(snap.properties, id).value.isListed
    ensures exists r :: r in SelectOwned(ids, snap).value && r.id == id
    decreases |ids|
  {
    assert ids == DropLast(ids) + [Last(ids)];
    if Last(ids) == id {
      var row := OwnedStep(id, snap).row;
      assert row in SelectOwned(ids, snap).value;
    } else {
      EveryListedPropertyIsShown(DropLast(ids), snap, id);
    }
  }

  /** Without an active rental the escrow is not consulted: the iteration is
      the same whatever the escrow holds. */
  lemma EscrowUnreadWithoutRental(id: nat, snap: OwnerReads, balances: map<nat, nat>)
    requires id in snap.activeRentalIds && snap.activeRentalIds[id] == 0
    ensures OwnedStep(id, snap) == OwnedStep(id, snap.(rentBalances := balances))
    ensures OwnedStep(id, snap).Emit? ==> OwnedStep(id, snap).row.isAvailable
                                          && OwnedStep(id, snap).row.rentCollectedWei == 0
  {
  }

  /** Title and image fall back to fixed text when the metadata lacks them. */
  lemma OwnedRowFallbacks(id: nat, p: PropertyData, meta: Option<Metadata>, rentalId: Option<nat>, collected: nat)
    ensures var r := OwnedRow(id, p, meta, rentalId, collected);
            && (Truthy(TitleOf(meta)) ==> r.title == TitleOf(meta).value)
            && (!Truthy(TitleOf(meta)) ==> r.title == UntitledProperty)
            && (Truthy(ImageUrlOf(meta)) ==> r.imageUrl == ImageUrlOf(meta).value)
            && (!Truthy(ImageUrlOf(meta)) ==> r.imageUrl == PlaceholderImage)
            && r.area == (if meta.Some? then meta.value.area else None)
  {
  }

  /** The rows a completed fetch leaves: the selected rows, or the previous
      rows when `getOwnerProperties` or a read in the loop threw. */
  function OwnedAfterFetch(account: Address, snap: OwnerReads, previous: seq<OwnedProperty>): seq<OwnedProperty>
  {
    if account in snap.ownerProperties && SelectOwned(snap.ownerProperties[account], snap).Some?
    then SelectOwned(snap.ownerProperties[account], snap).value
    else previous
  }

  /** The rows and loading flag after `fetchProperties` ran from `rows0`, `loading0`. */
  predicate OwnedFetchedOrKept(hasSigner: bool, account: Option<Address>, hasProvider: bool, snap: OwnerReads,
                               rows0: seq<OwnedProperty>, loading0: bool, rows: seq<OwnedProperty>, loading: bool)
  {
    if hasSigner && account.Some? && hasProvider
    then rows == OwnedAfterFetch(account.value, snap, rows0) && !loading
    else rows == rows0 && loading == loading0
  }

  /** The page's state. */
  class MyPropertiesPage {
    var properties: seq<OwnedProperty>
    var isLoading: bool
    var isWithdrawing: bool
    var selectedPropertyId: Option<nat>

    constructor ()
      ensures properties == [] && isLoading && !isWithdrawing && selectedPropertyId.None?
    {
      properties := [];
      isLoading := true;
      isWithdrawing := false;
      selectedPropertyId := None;
    }

    /** `fetchProperties`: nothing happens without a signer, an account and a
        provider; a read that throws leaves the rows as they were. */
    method FetchProperties(hasSigner: bool, account: Option<Address>, hasProvider: bool, snap: OwnerReads)
      modifies this`properties, this`isLoading
      ensures OwnedFetchedOrKept(hasSigner, account, hasProvider, snap, old(properties), old(isLoading), properties, isLoading)
    {
      if !hasSigner || account.None? || !hasProvider {
        return;
      }
      isLoading := true;
      if account.value in snap.ownerProperties {
        var rows := CollectOwnedProperties(snap.ownerProperties[account.value], snap);
        if rows.Some? {
          properties := rows.value;
        }
      }
      isLoading := false;
    }

    /** The effect that runs when the wallet connection changes. */
    method SyncWithWallet(isConnected: bool, hasSigner: bool, account: Option<Address>, hasProvider: bool, snap: OwnerReads)
      modifies this`properties, this`isLoading
      ensures !isConnected ==> properties == [] && !isLoading
      ensures isConnected && hasSigner && account.Some? ==>
                OwnedFetchedOrKept(hasSigner, account, hasProvider, snap, old(properties), old(isLoading), properties, isLoading)
      ensures isConnected && !(hasSigner && account.Some?) ==>
                properties == old(properties) && isLoading == old(isLoading)
    {
      if isConnected && hasSigner && account.Some? {
        FetchProperties(hasSigner, account, hasProvider, snap);
      }
      if !isConnected {
        properties := [];
        isLoading := false;
      }
    }

    /** `handleWithdrawRent`: returns the rental id sent to `withdrawRent`, or
        `None` when a guard returned before any state was touched. Once past
        the guards the flags are set for the withdrawal and cleared again
        however it ends; a confirmed withdrawal refetches the rows from
        `after`. */
    method HandleWithdrawRent(hasSigner: bool, account: Option<Address>, hasProvider: bool,
                              property: OwnedProperty, tx: TxOutcome, after: OwnerReads)
      returns (requested: Option<nat>)
      modifies this
      ensures requested.Some? <==> hasSigner && account.Some? && property.rentalId.Some?
      ensures requested.Some? ==> requested == property.rentalId
      ensures requested.None? ==> unchanged(this)
      ensures requested.Some? ==> !isWithdrawing && selectedPropertyId.None?
      ensures requested.Some? && tx != Confirmed ==> properties == old(properties) && isLoading == old(isLoading)
      ensures requested.Some? && tx == Confirmed ==>
                OwnedFetchedOrKept(hasSigner, account, hasProvider, after, old(properties), old(isLoading), properties, isLoading)
    {
      if !hasSigner || account.None? || property.rentalId.None? {
        return None;
      }
      selectedPropertyId := Some(property.id);
      isWithdrawing := true;
      requested := property.rentalId;
      if tx == Confirmed {
        FetchProperties(hasSigner, account, hasProvider, after);
      }
      isWithdrawing := false;
      selectedPropertyId := None;
    }

    /** `handleDeleteProperty`: unlisting is not implemented; the page only
        warns and changes nothing. */
    method HandleDeleteProperty(propertyId: nat) returns (warning: string)
      ensures warning == DeleteUnavailable
    {
      warning := DeleteUnavailable;
    }
  }
}
