/** The value objects exchanged between the normalisers, the reader and the reconciler. */
module Schemas {
  import opened Wrappers
  import opened Orm

  datatype Owner = Owner(name: string, isMultiEntity: bool)

  datatype DeliveryAddressLine = DeliveryAddressLine(
    isPobox: bool, attn: Option<string>, number: string, street: string, secondary: Option<string>)

  datatype LastLine = LastLine(city: string, state: string, zip: string)

  /** Two mailings are equal iff every leaf is equal (None == None included). */
  datatype Mailing = Mailing(delivery: DeliveryAddressLine, last: LastLine)

  datatype OwnerAndMailing = OwnerAndMailing(owner: Option<Owner>, mailing: Option<Mailing>)

  datatype GeneralAndMortgage = GeneralAndMortgage(general: OwnerAndMailing, mortgage: OwnerAndMailing)

  /** The active chain read for one role: each table may be absent. */
  datatype CogTables = CogTables(
    parcel: Option<Keyed<Parcel>>,
    parcelAddress: Option<Keyed<ParcelMailingAddress>>,
    address: Option<Keyed<MailingAddress>>,
    street: Option<Keyed<MailingStreet>>,
    cityStateZip: Option<Keyed<MailingCityStateZip>>,
    human: Option<Keyed<Human>>,
    humanAddress: Option<Keyed<HumanMailingAddress>>,
    humanParcel: Option<Keyed<HumanParcel>>)
  {
    predicate HasAddressTables()
    {
      address.Some? && street.Some? && cityStateZip.Some?
    }
  }

  /** `schemas.CogTables()`: every table absent. */
  const EmptyTables := CogTables(None, None, None, None, None, None, None, None)

  datatype CogGeneralAndMortgage = CogGeneralAndMortgage(general: CogTables, mortgage: CogTables)

  /** `(address_role, addressee_role)`. */
  datatype RolePair = RolePair(addressRole: int, addresseeRole: int)

  /** The `LinkedObjectRole` constants the core uses. */
  datatype LinkedObjectRole = LinkedObjectRole(
    generalHumanMailingAddress: int,
    mortgageHumanMailingAddress: int,
    generalRoles: RolePair,
    mortgageRoles: RolePair)
}
