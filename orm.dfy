/**
 * The persisted tables. Every table is append-only: a row is never removed,
 * and its primary key is its position in the table. `active` stands for
 * `deactivatedts IS NULL`.
 */
module Orm {
  import opened Wrappers

  /** A row together with its primary key. */
  datatype Keyed<T> = Keyed(id: nat, row: T)

  datatype Parcel = Parcel(countyId: string, municode: int, active: bool)

  datatype MailingCityStateZip = MailingCityStateZip(city: string, stateAbbr: string, zipCode: string, active: bool)

  datatype MailingStreet = MailingStreet(cityStateZipId: nat, name: string, pobox: bool, active: bool)

  datatype MailingAddress = MailingAddress(
    streetId: nat, bldgno: string, attention: Option<string>, secondary: Option<string>, active: bool)

  datatype Human = Human(name: string, multihuman: bool, active: bool)

  /** Parcel -> mailing address, under a role. */
  datatype ParcelMailingAddress = ParcelMailingAddress(parcelKey: nat, addressId: nat, role: int, active: bool)

  /** Human -> mailing address, under a role; either id may be NULL. */
  datatype HumanMailingAddress = HumanMailingAddress(
    humanId: Option<nat>, addressId: Option<nat>, role: int, active: bool)

  /** Human -> parcel, under a role. */
  datatype HumanParcel = HumanParcel(humanId: nat, parcelKey: nat, role: int, active: bool)

  /** A snapshot of the whole database. */
  datatype Store = Store(
    parcels: seq<Parcel>,
    cityStateZips: seq<MailingCityStateZip>,
    streets: seq<MailingStreet>,
    addresses: seq<MailingAddress>,
    humans: seq<Human>,
    parcelAddresses: seq<ParcelMailingAddress>,
    humanAddresses: seq<HumanMailingAddress>,
    humanParcels: seq<HumanParcel>)

  /** The tables a write can name. */
  datatype Table =
    | CityStateZipTable | StreetTable | AddressTable | HumanTable
    | ParcelAddressTable | HumanAddressTable | HumanParcelTable

  /** The tables whose rows the reconciler retires by key (`deactivate.address`, `.human`, `.parcel_to_address`, `.human_to_address`). */
  type RetirableTable = t: Table | t.AddressTable? || t.HumanTable? || t.ParcelAddressTable? || t.HumanAddressTable?
    witness AddressTable

  /** Canonical rows are identified by every attribute: no two active rows share one. */
  ghost predicate Deduplicated(s: Store)
  {
    && (forall i, j :: 0 <= i < j < |s.cityStateZips| && s.cityStateZips[i].active ==> s.cityStateZips[i] != s.cityStateZips[j])
    && (forall i, j :: 0 <= i < j < |s.streets| && s.streets[i].active ==> s.streets[i] != s.streets[j])
    && (forall i, j :: 0 <= i < j < |s.addresses| && s.addresses[i].active ==> s.addresses[i] != s.addresses[j])
    && (forall i, j :: 0 <= i < j < |s.humans| && s.humans[i].active ==> s.humans[i] != s.humans[j])
  }
}
