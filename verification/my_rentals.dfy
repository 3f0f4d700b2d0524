/** The tenant's rentals page (`frontend/app/my-rentals/page.ts`): the rows of
    `fetchRentals`, their deposit status, and the release-request action. */
module MyRentals {
  import opened Common
  import opened Chain
  import opened Ipfs

  datatype DepositStatus = Held | ReleaseRequested | Released | Disputed

  /** One row of the table (`Rental`). Amounts stay in wei: their formatting
      as ether strings is not modelled. */
  datatype Rental = Rental(
    rentalId: nat,
    propertyId: nat,
    title: string,
    location: string,
    priceWei: nat,
    owner: Address,
    rentedFromTimestamp: nat,
    rentedUntilTimestamp: nat,
    depositWei: nat,
    nextPaymentTimestamp: nat,
    depositStatus: DepositStatus,
    ipfsMetadataHash: Option<string>)

  /** What one run of `fetchRentals` observes. A key missing from a map is a
      read that throws. */
  datatype RentalReads = RentalReads(
    tenantRentals: map<Address, seq<nat>>,
    details: map<nat, Read<RentalDetails>>,
    properties: map<nat, Read<PropertyData>>,
    depositBalances: map<nat, nat>,
    ipfs: IpfsEnv)

  const EndedState: nat := 2
  /** 30 days of seconds, added to `paidUntil` for the next payment. */
  const PaymentPeriodSeconds: nat := 30 * 24 * 60 * 60

  const FallbackTitle: string := "Property"
  const UnknownLocation: string := "Unknown Location"

  /** The deposit status derived from the escrow balance and the tenant's
      release-request flag. */
  function DepositStatusOf(depositBalanceWei: nat, releaseRequested: bool): (s: DepositStatus)
    ensures s != Disputed
    ensures s == Released <==> depositBalanceWei == 0
    ensures s == ReleaseRequested <==> depositBalanceWei != 0 && releaseRequested
    ensures s == Held <==> depositBalanceWei != 0 && !releaseRequested
  {
    if depositBalanceWei == 0 then Released
    else if releaseRequested then ReleaseRequested
    else Held
  }

  /** `formatDate`: a zero timestamp reads "N/A"; any other is handed to the
      locale date formatter as milliseconds. */
  datatype DateText = Text(s: string) | LocaleDate(epochMillis: nat)

  function FormatDate(timestamp: nat): (d: DateText)
    ensures d == Text("N/A") <==> timestamp == 0
    ensures d.LocaleDate? <==> timestamp != 0
    ensures d.LocaleDate? ==> d.epochMillis == timestamp * 1000
  {
    if timestamp == 0 then Text("N/A") else LocaleDate(timestamp * 1000)
  }

  /** The test the loop is meant to apply: the rental is the account's and
      still running, otherwise the loop `continue`s past it. The state is
      compared by value (`BelongsToTenantAsWritten` is the comparison as the
      page writes it, and the one the page runs). */
  predicate BelongsToTenant(d: RentalDetails, account: Address)
  {
    d.state != EndedState && d.tenant == account
  }

  /** A JavaScript integer as the contract binding hands it out (`bigint`)
      or as a literal in the code (`number`); `===` holds only between
      values of the same type, so datatype equality is strict equality. */
  datatype JsInteger = Number(n: int) | BigInt(n: int)

  /** The filter as the code writes it: the decoded `state` (a `bigint`) is
      compared with the number literal `2`. */
  predicate BelongsToTenantAsWritten(d: RentalDetails, account: Address)
  {
    !(BigInt(d.state) == Number(EndedState) || d.tenant != account)
  }

  /** The strict comparison never holds, so the as-written filter ignores
      the rental's state: an ended rental of the account is kept, where the
      intended filter skips it. */
  lemma EndedRentalKeptAsWritten(d: RentalDetails, account: Address)
    ensures BelongsToTenantAsWritten(d, account) <==> d.tenant == account
    ensures d.state == EndedState && d.tenant == account ==>
              BelongsToTenantAsWritten(d, account) && !BelongsToTenant(d, account)
  {
  }

  /** Which test the loop applies to a rental: the page's own (`AsWritten`)
      or the one its comment describes (`Intended`). */
  datatype TenantFilter = AsWritten | Intended

  predicate Keeps(filter: TenantFilter, d: RentalDetails, account: Address)
  {
    match filter
    case AsWritten => BelongsToTenantAsWritten(d, account)
    case Intended => BelongsToTenant(d, account)
  }

  /** The row built from the rental, its property (if any), the property's
      metadata and the escrow balance. */
  function RowFor(rentalId: nat, d: RentalDetails, prop: Option<PropertyData>, meta: Option<Metadata>, balance: nat): Rental
  {
    var location := if prop.Some? then Some(prop.value.location) else None;
    Rental(
      rentalId,
      d.propertyId,
      OrElse(TitleOf(meta), OrElse(location, FallbackTitle)),
      OrElse(location, UnknownLocation),
      d.monthlyRentAmount,
      d.landlord,
      d.startDate,
      d.endDate,
      d.securityDepositAmount,
      d.paidUntil + PaymentPeriodSeconds,
      DepositStatusOf(balance, d.depositReleaseRequestedByTenant),
      if prop.Some? then Some(prop.value.ipfsMetadataHash) else None)
  }

  /** One iteration of the loop over the tenant's rental ids. */
  function RentalStep(rentalId: nat, account: Address, filter: TenantFilter, snap: RentalReads): (s: Step<Rental>)
    ensures s.Emit? ==> ReadAt(snap.details, rentalId).Got?
                        && Keeps(filter, ReadAt(snap.details, rentalId).value, account)
                        && s.row.rentalId == rentalId
    ensures ReadAt(snap.details, rentalId).Null? ==> s == Skip
    ensures ReadAt(snap.details, rentalId).Got? && !Keeps(filter, ReadAt(snap.details, rentalId).value, account)
            ==> s == Skip
  {
    match ReadAt(snap.details, rentalId)
    case Threw => Abort
    case Null => Skip
    case Got(d) =>
      if !Keeps(filter, d, account) then Skip
      else
        match ReadAt(snap.properties, d.propertyId)
        case Threw => Abort
        case Null => AfterPropertyRead(rentalId, d, None, snap)
        case Got(p) => AfterPropertyRead(rentalId, d, Some(p), snap)
  }

  /** The rest of an iteration once the property read returned: the
      metadata fetch (which never throws) and the escrow balance read. */
  function AfterPropertyRead(rentalId: nat, d: RentalDetails, prop: Option<PropertyData>, snap: RentalReads): (s: Step<Rental>)
    ensures s != Skip
    ensures s.Emit? ==> s.row.rentalId == rentalId
  {
    var meta := FetchMetadata(snap.ipfs, if prop.Some? then Some(prop.value.ipfsMetadataHash) else None);
    if rentalId !in snap.depositBalances then Abort
    else Emit(RowFor(rentalId, d, prop, meta, snap.depositBalances[rentalId]))
  }

  /** The rows after visiting `ids` in order, or `None` when a read threw. */
  function SelectRentals(ids: seq<nat>, account: Address, filter: TenantFilter, snap: RentalReads): (r: Option<seq<Rental>>)
    ensures r.Some? ==> |r.value| <= |ids|
    decreases |ids|
  {
    if ids == [] then Some([])
    else
      match SelectRentals(DropLast(ids), account, filter, snap)
      case None => None
      case Some(rows) =>
        match RentalStep(Last(ids), account, filter, snap)
        case Abort => None
        case Skip => Some(rows)
        case Emit(row) => Some(rows + [row])
  }

  lemma {:induction false} AbortIsFinal(ids: seq<nat>, k: nat, account: Address, filter: TenantFilter, snap: RentalReads)
    requires k <= |ids| && SelectRentals(ids[..k], account, filter, snap).None?
    ensures SelectRentals(ids, account, filter, snap).None?
    decreases |ids| - k
  {
    if k < |ids| {
      assert DropLast(ids[..k + 1]) == ids[..k];
      AbortIsFinal(ids, k + 1, account, filter, snap);
    } else {
      assert ids[..k] == ids;
    }
  }

  /** The loop of `fetchRentals`: rows in the order of the tenant's ids, or
      `None` when a read inside the loop threw. */
  method CollectRentals(ids: seq<nat>, account: Address, filter: TenantFilter, snap: RentalReads) returns (rows: Option<seq<Rental>>)
    ensures rows == SelectRentals(ids, account, filter, snap)
  {
    var rentalsData: seq<Rental> := [];
    var i := 0;
    while i < |ids|
      invariant 0 <= i <= |ids|
      invariant SelectRentals(ids[..i], account, filter, snap) == Some(rentalsData)
    {
      assert DropLast(ids[..i + 1]) == ids[..i] && Last(ids[..i + 1]) == ids[i];
      match RentalStep(ids[i], account, filter, snap) {
        case Abort =>
          AbortIsFinal(ids, i + 1, account, filter, snap);
          return None;
        case Skip =>
        case Emit(row) =>
          rentalsData := rentalsData + [row];
      }
      i := i + 1;
    }
    assert ids[..i] == ids;
    rows := Some(rentalsData);
  }

  /** Every row is a rental of the account that passed the filter (under
      the intended one, a rental that has not ended), visited from the id list, with its status derived from that rental's escrow balance
      and request flag (never Disputed) and its next payment 30 days after
      `paidUntil`. */
  lemma {:induction false} RowsBelongToTenant(ids: seq<nat>, account: Address, filter: TenantFilter, snap: RentalReads)
    requires SelectRentals(ids, account, filter, snap).Some?
    ensures forall r :: r in SelectRentals(ids, account, filter, snap).value ==>
              && r.rentalId in ids
              && ReadAt(snap.details, r.rentalId).Got?
              && Keeps(filter, ReadAt(snap.details, r.rentalId).value, account)
              && ReadAt(snap.details, r.rentalId).value.tenant == account
              && (filter == Intended ==> ReadAt(snap.details, r.rentalId).value.state != EndedState)
              && r.rentalId in snap.depositBalances
              && r.depositStatus == DepositStatusOf(snap.depositBalances[r.rentalId],
                                       ReadAt(snap.details, r.rentalId).value.depositReleaseRequestedByTenant)
              && r.depositStatus != Disputed
              && r.nextPaymentTimestamp == ReadAt(snap.details, r.rentalId).value.paidUntil + PaymentPeriodSeconds
    decreases |ids|
  {
    if ids != [] {
      RowsBelongToTenant(DropLast(ids), account, filter, snap);
      assert ids == DropLast(ids) + [Last(ids)];
    }
  }

  function RentalIds(rows: seq<Rental>): (ids: seq<nat>)
    ensures |ids| == |rows|
    ensures forall k :: 0 <= k < |rows| ==> ids[k] == rows[k].rentalId
  {
    seq(|rows|, k requires 0 <= k < |rows| => rows[k].rentalId)
  }

  /** The rows follow the order of the tenant's rental-id list. */
  lemma {:induction false} RowsFollowIdOrder(ids: seq<nat>, account: Address, filter: TenantFilter, snap: RentalReads)
    requires SelectRentals(ids, account, filter, snap).Some?
    ensures IsSubsequence(RentalIds(SelectRentals(ids, account, filter, snap).value), ids)
    decreases |ids|
  {
    if ids != [] {
      var rows := SelectRentals(DropLast(ids), account, filter, snap).value;
      RowsFollowIdOrder(DropLast(ids), account, filter, snap);
      assert ids == DropLast(ids) + [Last(ids)];
      match RentalStep(Last(ids), account, filter, snap)
      case Skip =>
        SubsequenceAppendRight(RentalIds(rows), DropLast(ids), Last(ids));
      case Emit(row) =>
        assert RentalIds(rows + [row]) == RentalIds(rows) + [Last(ids)];
        SubsequenceAppendBoth(RentalIds(rows), DropLast(ids), Last(ids));
    }
  }

  /** When no read fails, every rental in the list that passes the filter
      has a row: under the intended filter every active rental of the
      account, under the filter as written every rental of the account. */
  lemma {:induction false} EveryActiveRentalIsShown(ids: seq<nat>, account: Address, filter: TenantFilter, snap: RentalReads, id: nat)
    requires SelectRentals(ids, account, filter, snap).Some?
    requires id in ids && ReadAt(snap.details, id).Got? && Keeps(filter, ReadAt(snap.details, id).value, account)
    ensures exists r :: r in SelectRentals(ids, account, filter, snap).value && r.rentalId == id
    decreases |ids|
  {
    assert ids == DropLast(ids) + [Last(ids)];
    if Last(ids) == id {
      var row := RentalStep(id, account, filter, snap).row;
      assert row in SelectRentals(ids, account, filter, snap).value;
    } else {
      EveryActiveRentalIsShown(DropLast(ids), account, filter, snap, id);
    }
  }

  /** The discrepancy on the whole loop: a list holding one ended rental of
      the account yields one row for it as the page is written, and none
      under the intended filter. */
  lemma EndedRentalShownAsWritten(id: nat, account: Address, snap: RentalReads)
    requires ReadAt(snap.details, id).Got?
    requires ReadAt(snap.details, id).value.tenant == account && ReadAt(snap.details, id).value.state == EndedState
    requires !ReadAt(snap.properties, ReadAt(snap.details, id).value.propertyId).Threw?
    requires id in snap.depositBalances
    ensures var rows := SelectRentals([id], account, AsWritten, snap);
            rows.Some? && |rows.value| == 1 && rows.value[0].rentalId == id
    ensures SelectRentals([id], account, Intended, snap) == Some([])
  {
    assert DropLast([id]) == [] && Last([id]) == id;
  }

  /** Title and location fall back from the metadata to the property and
      then to fixed text. */
  lemma RowFallbacks(rentalId: nat, d: RentalDetails, prop: Option<PropertyData>, meta: Option<Metadata>, balance: nat)
    ensures var r := RowFor(rentalId, d, prop, meta, balance);
            && (Truthy(TitleOf(meta)) ==> r.title == TitleOf(meta).value)
            && (!Truthy(TitleOf(meta)) && prop.Some? && prop.value.location != "" ==> r.title == prop.value.location)
            && (!Truthy(TitleOf(meta)) && (prop.None? || prop.value.location == "") ==> r.title == FallbackTitle)
            && (prop.None? || prop.value.location == "" ==> r.location == UnknownLocation)
            && r.nextPaymentTimestamp == d.paidUntil + 2592000
  {
  }

  /** The rows a completed fetch leaves: the rows the page's own filter
      selects, or the previous rows when `getTenantRentals` or a read in the
      loop threw. */
  function ShownAfterFetch(account: Address, snap: RentalReads, previous: seq<Rental>): seq<Rental>
  {
    if account in snap.tenantRentals && SelectRentals(snap.tenantRentals[account], account, AsWritten, snap).Some?
    then SelectRentals(snap.tenantRentals[account], account, AsWritten, snap).value
    else previous
  }

  /** The rows and loading flag after `fetchRentals` ran from `rows0`, `loading0`. */
  predicate FetchedOrKept(hasSigner: bool, account: Option<Address>, hasProvider: bool, snap: RentalReads,
                          rows0: seq<Rental>, loading0: bool, rows: seq<Rental>, loading: bool)
  {
    if hasSigner && account.Some? && hasProvider
    then rows == ShownAfterFetch(account.value, snap, rows0) && !loading
    else rows == rows0 && loading == loading0
  }

  /** The page's state. */
  class MyRentalsPage {
    var rentals: seq<Rental>
    var isLoading: bool
    var isReleasing: bool
    var selectedRentalId: Option<nat>

    constructor ()
      ensures rentals == [] && isLoading && !isReleasing && selectedRentalId.None?
    {
      rentals := [];
      isLoading := true;
      isReleasing := false;
      selectedRentalId := None;
    }

    /** `fetchRentals`: nothing happens without a signer, an account and a
        provider; a read that throws leaves the rows as they were. */
    method FetchRentals(hasSigner: bool, account: Option<Address>, hasProvider: bool, snap: RentalReads)
      modifies this`rentals, this`isLoading
      ensures FetchedOrKept(hasSigner, account, hasProvider, snap, old(rentals), old(isLoading), rentals, isLoading)
    {
      if !hasSigner || account.None? || !hasProvider {
        return;
      }
      isLoading := true;
      if account.value in snap.tenantRentals {
        var rows := CollectRentals(snap.tenantRentals[account.value], account.value, AsWritten, snap);
        if rows.Some? {
          rentals := rows.value;
        }
      }
      isLoading := false;
    }

    /** The effect that runs when the wallet connection changes: a
        connected session with a signer, an account and a provider fetches,
        a disconnected one clears the rows. */
    method SyncWithWallet(isConnected: bool, hasSigner: bool, account: Option<Address>, hasProvider: bool, snap: RentalReads)
      modifies this`rentals, this`isLoading
      ensures isConnected && hasSigner && account.Some? && hasProvider ==>
                rentals == ShownAfterFetch(account.value, snap, old(rentals)) && !isLoading
      ensures !isConnected ==> rentals == [] && !isLoading
      ensures isConnected && !(hasSigner && account.Some? && hasProvider) ==>
                rentals == old(rentals) && isLoading == old(isLoading)
    {
      if isConnected && hasSigner && account.Some? && hasProvider {
        FetchRentals(hasSigner, account, hasProvider, snap);
      }
      if !isConnected {
        rentals := [];
        isLoading := false;
      }
    }

    /** `handleReleaseDeposit`: returns the rental id sent to
        `requestDepositRelease`, or `None` when a guard returned before any
        state was touched. Once past the guards the flags are set for the
        request and cleared again however it ends; a confirmed request
        refetches the rows from `after`. */
    method HandleReleaseDeposit(hasSigner: bool, account: Option<Address>, hasProvider: bool,
                                rental: Rental, tx: TxOutcome, after: RentalReads)
      returns (requested: Option<nat>)
      modifies this
      ensures requested.Some? <==> hasSigner && account.Some? && rental.depositStatus == Held
      ensures requested.Some? ==> requested.value == rental.rentalId
      ensures requested.None? ==> unchanged(this)
      ensures requested.Some? ==> !isReleasing && selectedRentalId.None?
      ensures requested.Some? && tx != Confirmed ==> rentals == old(rentals) && isLoading == old(isLoading)
      ensures requested.Some? && tx == Confirmed ==>
                FetchedOrKept(hasSigner, account, hasProvider, after, old(rentals), old(isLoading), rentals, isLoading)
    {
      if !hasSigner || account.None? {
        return None;
      }
      if rental.depositStatus != Held {
        return None;
      }
      selectedRentalId := Some(rental.rentalId);
      isReleasing := true;
      requested := Some(rental.rentalId);
      if tx == Confirmed {
        FetchRentals(hasSigner, account, hasProvider, after);
      }
      isReleasing := false;
      selectedRentalId := None;
    }
  }
}
