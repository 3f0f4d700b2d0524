/** The records the property-listing, rental-agreement and escrow contracts
    return, as the pages read them. The contracts themselves are not part of
    this model: every read is an input. */
module Chain {
  import opened Common

  /** `getProperty(id)` of the property-listing contract (the fields the pages use). */
  datatype PropertyData = PropertyData(
    id: nat,
    location: string,
    pricePerMonth: nat,      // wei
    bedrooms: nat,
    bathrooms: nat,
    areaSqMeters: nat,
    isListed: bool,
    ipfsMetadataHash: string)

  /** `getRentalDetails(id)` of the rental-agreement contract. */
  datatype RentalDetails = RentalDetails(
    propertyId: nat,
    tenant: Address,
    landlord: Address,
    startDate: nat,
    endDate: nat,
    monthlyRentAmount: nat,  // wei
    securityDepositAmount: nat,  // wei
    paidUntil: nat,
    state: nat,              // 2 is Ended
    depositReleaseRequestedByTenant: bool)

  /** How a state-changing contract call ends: the call itself throws (the
      user refuses to sign, the node refuses it), `tx.wait()` throws, or the
      transaction is confirmed. */
  datatype TxOutcome = SendFailed | Reverted | Confirmed

  /** A read of the record stored under `id`; an id the snapshot does not
      hold makes the read throw. */
  function ReadAt<T>(m: map<nat, Read<T>>, id: nat): (r: Read<T>)
    ensures id !in m ==> r == Threw
    ensures id in m ==> r == m[id]
  {
    if id in m then m[id] else Threw
  }
}
