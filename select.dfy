/**
 * The lookups of app/operations/select.py, as functions over a store
 * snapshot: a WHERE filter over one table, then `scalar_one()` or all rows.
 */
module Select {
  import opened Wrappers
  import opened Orm

  /** The keys of the rows that satisfy a WHERE clause, in key order. */
  function Where<T>(rows: seq<T>, p: (nat, T) -> bool): (ids: seq<nat>)
    ensures forall k :: 0 <= k < |ids| ==> ids[k] < |rows| && p(ids[k], rows[ids[k]])
    ensures forall i :: 0 <= i < |rows| && p(i, rows[i]) ==> i in ids
    ensures forall j, k :: 0 <= j < k < |ids| ==> ids[j] < ids[k]
    decreases |rows|
  {
    if rows == [] then []
    else
      var n := |rows| - 1;
      Where(rows[..n], p) + (if p(n, rows[n]) then [n] else [])
  }

  /** The selected rows, with their keys. */
  function RowsAt<T>(rows: seq<T>, ids: seq<nat>): (r: seq<Keyed<T>>)
    requires forall k :: 0 <= k < |ids| ==> ids[k] < |rows|
    ensures |r| == |ids|
    ensures forall k :: 0 <= k < |ids| ==> r[k] == Keyed(ids[k], rows[ids[k]])
  {
    seq(|ids|, k requires 0 <= k < |ids| => Keyed(ids[k], rows[ids[k]]))
  }

  /** `Result.scalar_one()`: the one selected row, or the exception SQLAlchemy raises. */
  function ScalarOne<T>(rows: seq<T>, ids: seq<nat>): Result<Keyed<T>>
    requires forall k :: 0 <= k < |ids| ==> ids[k] < |rows|
  {
    if |ids| == 0 then Err(NoResultFound)
    else if |ids| == 1 then Ok(Keyed(ids[0], rows[ids[0]]))
    else Err(MultipleResultsFound)
  }

  /** The number of selected keys tells none, one or several matches apart. */
  lemma WhereCount<T>(rows: seq<T>, p: (nat, T) -> bool)
    ensures var ids := Where(rows, p);
      && (|ids| == 0 <==> forall i :: 0 <= i < |rows| ==> !p(i, rows[i]))
      && (|ids| >= 2 <==> exists i, j :: 0 <= i < j < |rows| && p(i, rows[i]) && p(j, rows[j]))
  {
    var ids := Where(rows, p);
    if |ids| > 0 {
      assert p(ids[0], rows[ids[0]]);
    }
    if |ids| >= 2 {
      assert ids[0] < ids[1] && p(ids[0], rows[ids[0]]) && p(ids[1], rows[ids[1]]);
    }
    if exists i, j :: 0 <= i < j < |rows| && p(i, rows[i]) && p(j, rows[j]) {
      var i, j :| 0 <= i < j < |rows| && p(i, rows[i]) && p(j, rows[j]);
      assert i in ids && j in ids;
      var ki :| 0 <= ki < |ids| && ids[ki] == i;
      var kj :| 0 <= kj < |ids| && ids[kj] == j;
      assert ki != kj;
    }
  }

  /** A filtered single-row select: exactly one match, or an error naming zero or several. */
  function SelectOne<T>(rows: seq<T>, p: (nat, T) -> bool): (r: Result<Keyed<T>>)
    ensures r.Ok? ==> r.value.id < |rows| && r.value.row == rows[r.value.id] && p(r.value.id, r.value.row)
    ensures r.Ok? ==> forall i :: 0 <= i < |rows| && p(i, rows[i]) ==> i == r.value.id
    ensures r == Err(NoResultFound) <==> forall i :: 0 <= i < |rows| ==> !p(i, rows[i])
    ensures r == Err(MultipleResultsFound) <==>
              exists i, j :: 0 <= i < j < |rows| && p(i, rows[i]) && p(j, rows[j])
    ensures r.Err? ==> r.error == NoResultFound || r.error == MultipleResultsFound
  {
    WhereCount(rows, p);
    ScalarOne(rows, Where(rows, p))
  }

  /** `parcel`: the active parcel with this county parcel id. */
  function ParcelByCountyId(s: Store, countyParcelId: string): (r: Result<Keyed<Parcel>>)
    ensures r.Ok? ==> r.value.id < |s.parcels| && s.parcels[r.value.id] == r.value.row
                      && r.value.row.countyId == countyParcelId && r.value.row.active
    ensures r.Ok? ==> forall i :: (0 <= i < |s.parcels| && s.parcels[i].countyId == countyParcelId
                                   && s.parcels[i].active) ==> i == r.value.id
    ensures r == Err(NoResultFound) <==>
              forall i :: 0 <= i < |s.parcels| ==> !(s.parcels[i].countyId == countyParcelId && s.parcels[i].active)
    ensures r == Err(MultipleResultsFound) <==>
              exists i, j :: 0 <= i < j < |s.parcels|
                && s.parcels[i].countyId == countyParcelId && s.parcels[i].active
                && s.parcels[j].countyId == countyParcelId && s.parcels[j].active
    ensures r.Err? ==> r.error == NoResultFound || r.error == MultipleResultsFound
  {
    SelectOne(s.parcels, (_: nat, p: Parcel) => p.countyId == countyParcelId && p.active)
  }

  /** `parcel_mailing_addresses`: every active link of the parcel, of any role, in key order. */
  function ParcelMailingAddresses(s: Store, parcelKey: nat): (r: seq<Keyed<ParcelMailingAddress>>)
    ensures forall k :: 0 <= k < |r| ==> r[k].id < |s.parcelAddresses| && r[k].row == s.parcelAddresses[r[k].id]
                                         && r[k].row.parcelKey == parcelKey && r[k].row.active
    ensures forall i :: (0 <= i < |s.parcelAddresses| && s.parcelAddresses[i].parcelKey == parcelKey
                         && s.parcelAddresses[i].active) ==> exists k :: 0 <= k < |r| && r[k].id == i
    ensures forall j, k :: 0 <= j < k < |r| ==> r[j].id < r[k].id
  {
    var ids := Where(s.parcelAddresses, (_: nat, l: ParcelMailingAddress) => l.parcelKey == parcelKey && l.active);
    var r := RowsAt(s.parcelAddresses, ids);
    assert forall i :: i in ids ==> exists k :: 0 <= k < |r| && r[k].id == i by {
      forall i | i in ids ensures exists k :: 0 <= k < |r| && r[k].id == i {
        var k :| 0 <= k < |ids| && ids[k] == i;
        assert r[k].id == i;
      }
    }
    r
  }

  /** `parcel_mailing_address`: the active link between this parcel and this address. */
  function ParcelMailingAddressOf(s: Store, parcelKey: nat, mailingAddressId: nat): (r: Result<Keyed<ParcelMailingAddress>>)
    ensures r.Ok? ==> r.value.id < |s.parcelAddresses| && s.parcelAddresses[r.value.id] == r.value.row
                      && r.value.row.parcelKey == parcelKey && r.value.row.addressId == mailingAddressId
                      && r.value.row.active
    ensures r.Ok? ==> forall i :: (0 <= i < |s.parcelAddresses| && s.parcelAddresses[i].parcelKey == parcelKey
                                   && s.parcelAddresses[i].addressId == mailingAddressId
                                   && s.parcelAddresses[i].active) ==> i == r.value.id
    ensures r == Err(NoResultFound) <==>
              forall i :: 0 <= i < |s.parcelAddresses| ==>
                !(s.parcelAddresses[i].parcelKey == parcelKey && s.parcelAddresses[i].addressId == mailingAddressId
                  && s.parcelAddresses[i].active)
    ensures r == Err(MultipleResultsFound) <==>
              exists i, j :: 0 <= i < j < |s.parcelAddresses|
                && s.parcelAddresses[i].parcelKey == parcelKey && s.parcelAddresses[i].addressId == mailingAddressId
                && s.parcelAddresses[i].active
                && s.parcelAddresses[j].parcelKey == parcelKey && s.parcelAddresses[j].addressId == mailingAddressId
                && s.parcelAddresses[j].active
    ensures r.Err? ==> r.error == NoResultFound || r.error == MultipleResultsFound
  {
    SelectOne(s.parcelAddresses, (_: nat, l: ParcelMailingAddress) =>
      l.parcelKey == parcelKey && l.addressId == mailingAddressId && l.active)
  }

  /** `address`: the address with this key, if it is active. */
  function AddressById(s: Store, addressId: nat): (r: Result<Keyed<MailingAddress>>)
    ensures r.Ok? <==> addressId < |s.addresses| && s.addresses[addressId].active
    ensures r.Ok? ==> r.value == Keyed(addressId, s.addresses[addressId])
    ensures r.Err? ==> r.error == NoResultFound
  {
    SelectOne(s.addresses, (i: nat, a: MailingAddress) => i == addressId && a.active)
  }

  /** `_address`: the active address with exactly these attributes. */
  function AddressByKey(s: Store, streetId: nat, number: string, attn: Option<string>, secondary: Option<string>)
    : (r: Result<Keyed<MailingAddress>>)
    ensures var key := MailingAddress(streetId, number, attn, secondary, true);
      && (r.Ok? ==> r.value.id < |s.addresses| && r.value.row == s.addresses[r.value.id] && r.value.row == key)
      && (r.Ok? ==> forall i :: 0 <= i < |s.addresses| && s.addresses[i] == key ==> i == r.value.id)
      && (r == Err(NoResultFound) <==> forall i :: 0 <= i < |s.addresses| ==> s.addresses[i] != key)
      && (r == Err(MultipleResultsFound) <==>
            exists i, j :: 0 <= i < j < |s.addresses| && s.addresses[i] == key && s.addresses[j] == key)
      && (r.Err? ==> r.error == NoResultFound || r.error == MultipleResultsFound)
  {
    // every attribute of the row is part of the key, so the filter is row equality
    var key := MailingAddress(streetId, number, attn, secondary, true);
    SelectOne(s.addresses, (_: nat, a: MailingAddress) => a == key)
  }

  /** `street`: the street with this key, if it is active. */
  function StreetById(s: Store, streetId: nat): (r: Result<Keyed<MailingStreet>>)
    ensures r.Ok? <==> streetId < |s.streets| && s.streets[streetId].active
    ensures r.Ok? ==> r.value == Keyed(streetId, s.streets[streetId])
    ensures r.Err? ==> r.error == NoResultFound
  {
    SelectOne(s.streets, (i: nat, st: MailingStreet) => i == streetId && st.active)
  }

  /** `_street`: the active street with exactly these attributes. */
  function StreetByKey(s: Store, cityStateZipId: nat, streetName: string, isPobox: bool): (r: Result<Keyed<MailingStreet>>)
    ensures var key := MailingStreet(cityStateZipId, streetName, isPobox, true);
      && (r.Ok? ==> r.value.id < |s.streets| && r.value.row == s.streets[r.value.id] && r.value.row == key)
      && (r.Ok? ==> forall i :: 0 <= i < |s.streets| && s.streets[i] == key ==> i == r.value.id)
      && (r == Err(NoResultFound) <==> forall i :: 0 <= i < |s.streets| ==> s.streets[i] != key)
      && (r == Err(MultipleResultsFound) <==>
            exists i, j :: 0 <= i < j < |s.streets| && s.streets[i] == key && s.streets[j] == key)
      && (r.Err? ==> r.error == NoResultFound || r.error == MultipleResultsFound)
  {
    var key := MailingStreet(cityStateZipId, streetName, isPobox, true);
    SelectOne(s.streets, (_: nat, st: MailingStreet) => st == key)
  }

  /** `city_state_zip`: the city/state/zip with this key, if it is active. */
  function CityStateZipById(s: Store, cityStateZipId: nat): (r: Result<Keyed<MailingCityStateZip>>)
    ensures r.Ok? <==> cityStateZipId < |s.cityStateZips| && s.cityStateZips[cityStateZipId].active
    ensures r.Ok? ==> r.value == Keyed(cityStateZipId, s.cityStateZips[cityStateZipId])
    ensures r.Err? ==> r.error == NoResultFound
  {
    SelectOne(s.cityStateZips, (i: nat, c: MailingCityStateZip) => i == cityStateZipId && c.active)
  }

  /** `_city_state_zip`: the active city/state/zip with exactly these attributes. */
  function CityStateZipByKey(s: Store, city: string, state: string, zip: string): (r: Result<Keyed<MailingCityStateZip>>)
    ensures var key := MailingCityStateZip(city, state, zip, true);
      && (r.Ok? ==> r.value.id < |s.cityStateZips| && r.value.row == s.cityStateZips[r.value.id] && r.value.row == key)
      && (r.Ok? ==> forall i :: 0 <= i < |s.cityStateZips| && s.cityStateZips[i] == key ==> i == r.value.id)
      && (r == Err(NoResultFound) <==> forall i :: 0 <= i < |s.cityStateZips| ==> s.cityStateZips[i] != key)
      && (r == Err(MultipleResultsFound) <==>
            exists i, j :: 0 <= i < j < |s.cityStateZips| && s.cityStateZips[i] == key && s.cityStateZips[j] == key)
      && (r.Err? ==> r.error == NoResultFound || r.error == MultipleResultsFound)
  {
    var key := MailingCityStateZip(city, state, zip, true);
    SelectOne(s.cityStateZips, (_: nat, c: MailingCityStateZip) => c == key)
  }

  /** `human_mailing_address`: the active human link to this address, whatever its role. */
  function HumanMailingAddressOf(s: Store, addressId: nat): (r: Result<Keyed<HumanMailingAddress>>)
    ensures r.Ok? ==> r.value.id < |s.humanAddresses| && s.humanAddresses[r.value.id] == r.value.row
                      && r.value.row.addressId == Some(addressId) && r.value.row.active
    ensures r.Ok? ==> forall i :: (0 <= i < |s.humanAddresses| && s.humanAddresses[i].addressId == Some(addressId)
                                   && s.humanAddresses[i].active) ==> i == r.value.id
    ensures r == Err(NoResultFound) <==>
              forall i :: 0 <= i < |s.humanAddresses| ==>
                !(s.humanAddresses[i].addressId == Some(addressId) && s.humanAddresses[i].active)
    ensures r == Err(MultipleResultsFound) <==>
              exists i, j :: 0 <= i < j < |s.humanAddresses|
                && s.humanAddresses[i].addressId == Some(addressId) && s.humanAddresses[i].active
                && s.humanAddresses[j].addressId == Some(addressId) && s.humanAddresses[j].active
    ensures r.Err? ==> r.error == NoResultFound || r.error == MultipleResultsFound
  {
    SelectOne(s.humanAddresses, (_: nat, h: HumanMailingAddress) => h.addressId == Some(addressId) && h.active)
  }

  /** `human`: the human with this key, if it is active. */
  function HumanById(s: Store, humanId: nat): (r: Result<Keyed<Human>>)
    ensures r.Ok? <==> humanId < |s.humans| && s.humans[humanId].active
    ensures r.Ok? ==> r.value == Keyed(humanId, s.humans[humanId])
    ensures r.Err? ==> r.error == NoResultFound
  {
    SelectOne(s.humans, (i: nat, h: Human) => i == humanId && h.active)
  }

  /** `_human`: the active human with this name and multi-entity flag. */
  function HumanByKey(s: Store, name: string, isMultiEntity: bool): (r: Result<Keyed<Human>>)
    ensures var key := Human(name, isMultiEntity, true);
      && (r.Ok? ==> r.value.id < |s.humans| && r.value.row == s.humans[r.value.id] && r.value.row == key)
      && (r.Ok? ==> forall i :: 0 <= i < |s.humans| && s.humans[i] == key ==> i == r.value.id)
      && (r == Err(NoResultFound) <==> forall i :: 0 <= i < |s.humans| ==> s.humans[i] != key)
      && (r == Err(MultipleResultsFound) <==>
            exists i, j :: 0 <= i < j < |s.humans| && s.humans[i] == key && s.humans[j] == key)
      && (r.Err? ==> r.error == NoResultFound || r.error == MultipleResultsFound)
  {
    var key := Human(name, isMultiEntity, true);
    SelectOne(s.humans, (_: nat, h: Human) => h == key)
  }

  /** `parcels_by_municode`: every parcel of the municipality, retired ones included. */
  function ParcelsByMunicode(s: Store, municode: int): (r: seq<Keyed<Parcel>>)
    ensures forall k :: 0 <= k < |r| ==> r[k].id < |s.parcels| && r[k].row == s.parcels[r[k].id]
                                         && r[k].row.municode == municode
    ensures forall i :: 0 <= i < |s.parcels| && s.parcels[i].municode == municode ==>
                          exists k :: 0 <= k < |r| && r[k].id == i
  {
    var ids := Where(s.parcels, (_: nat, p: Parcel) => p.municode == municode);
    var r := RowsAt(s.parcels, ids);
    assert forall i :: i in ids ==> exists k :: 0 <= k < |r| && r[k].id == i by {
      forall i | i in ids ensures exists k :: 0 <= k < |r| && r[k].id == i {
        var k :| 0 <= k < |ids| && ids[k] == i;
        assert r[k].id == i;
      }
    }
    r
  }
}
