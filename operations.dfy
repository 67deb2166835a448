/**
 * Abstract semantics of the write primitives the reconciler calls: the
 * `ensure` (get-or-create), `deactivate` (retire) and `link` (insert an
 * association) operations. Each is a function from a store to a store.
 */
module Operations {
  import opened Wrappers
  import opened Orm
  import Select

  /** One call to a write primitive, as recorded in the session's log. */
  datatype Call =
    | Deactivated(table: Table, id: nat)
      // deactivate.human_to_parcel called with the link row itself instead of its key
    | DeactivatedHumanParcelRow(link: Keyed<HumanParcel>)
    | EnsuredRow(table: Table, id: nat, created: bool)
    | Linked(table: Table, id: nat)

  /** What an ensure call hands back: the row, its key, whether it was inserted, the store afterwards. */
  datatype Ensured<T> = Ensured(id: nat, row: T, created: bool, store: Store)

  /**
   * Clears the active flag of the row with this key; every other row and every
   * other table is kept, and a key outside the table matches nothing.
   */
  function Deactivate(s: Store, table: RetirableTable, id: nat): (r: Store)
    ensures table == AddressTable ==>
      && r == s.(addresses := r.addresses) && |r.addresses| == |s.addresses|
      && forall i :: 0 <= i < |s.addresses| ==>
           r.addresses[i] == (if i == id then s.addresses[i].(active := false) else s.addresses[i])
    ensures table == HumanTable ==>
      && r == s.(humans := r.humans) && |r.humans| == |s.humans|
      && forall i :: 0 <= i < |s.humans| ==>
           r.humans[i] == (if i == id then s.humans[i].(active := false) else s.humans[i])
    ensures table == ParcelAddressTable ==>
      && r == s.(parcelAddresses := r.parcelAddresses) && |r.parcelAddresses| == |s.parcelAddresses|
      && forall i :: 0 <= i < |s.parcelAddresses| ==>
           r.parcelAddresses[i] == (if i == id then s.parcelAddresses[i].(active := false) else s.parcelAddresses[i])
    ensures table == HumanAddressTable ==>
      && r == s.(humanAddresses := r.humanAddresses) && |r.humanAddresses| == |s.humanAddresses|
      && forall i :: 0 <= i < |s.humanAddresses| ==>
           r.humanAddresses[i] == (if i == id then s.humanAddresses[i].(active := false) else s.humanAddresses[i])
  {
    if table == AddressTable then
      if id < |s.addresses| then s.(addresses := s.addresses[id := s.addresses[id].(active := false)]) else s
    else if table == HumanTable then
      if id < |s.humans| then s.(humans := s.humans[id := s.humans[id].(active := false)]) else s
    else if table == ParcelAddressTable then
      if id < |s.parcelAddresses| then s.(parcelAddresses := s.parcelAddresses[id := s.parcelAddresses[id].(active := false)]) else s
    else
      if id < |s.humanAddresses| then s.(humanAddresses := s.humanAddresses[id := s.humanAddresses[id].(active := false)]) else s
  }

  /** `ensure.city_state_zip`: the active row with these attributes, inserted if there is none. */
  function EnsureCityStateZip(s: Store, city: string, state: string, zip: string): (r: Result<Ensured<MailingCityStateZip>>)
    ensures var key := MailingCityStateZip(city, state, zip, true);
      && (r.Ok? ==> r.value.row == key && r.value.id < |r.value.store.cityStateZips|
                    && r.value.store.cityStateZips[r.value.id] == key)
      && (r.Ok? ==> r.value.created == (key !in s.cityStateZips))
      && (r.Ok? && !r.value.created ==> r.value.store == s)
      && (r.Ok? && r.value.created ==> r.value.id == |s.cityStateZips|
                                       && r.value.store == s.(cityStateZips := s.cityStateZips + [key]))
      && (r.Err? <==> multiset(s.cityStateZips)[key] > 1)
      && (r.Err? ==> r.error == MultipleResultsFound)
  {
    var key := MailingCityStateZip(city, state, zip, true);
    var found := Select.CityStateZipByKey(s, city, state, zip);
    KeyLookup(s.cityStateZips, key, found);
    match found
    case Ok(k) => Ok(Ensured(k.id, k.row, false, s))
    case Err(NoResultFound) => Ok(Ensured(|s.cityStateZips|, key, true, s.(cityStateZips := s.cityStateZips + [key])))
    case Err(e) => Err(e)
  }

  /** `ensure.street`: the active street with these attributes under this city/state/zip. */
  function EnsureStreet(s: Store, cityStateZipId: nat, streetName: string, isPobox: bool): (r: Result<Ensured<MailingStreet>>)
    ensures var key := MailingStreet(cityStateZipId, streetName, isPobox, true);
      && (r.Ok? ==> r.value.row == key && r.value.id < |r.value.store.streets|
                    && r.value.store.streets[r.value.id] == key)
      && (r.Ok? ==> r.value.created == (key !in s.streets))
      && (r.Ok? && !r.value.created ==> r.value.store == s)
      && (r.Ok? && r.value.created ==> r.value.id == |s.streets| && r.value.store == s.(streets := s.streets + [key]))
      && (r.Err? <==> multiset(s.streets)[key] > 1)
      && (r.Err? ==> r.error == MultipleResultsFound)
  {
    var key := MailingStreet(cityStateZipId, streetName, isPobox, true);
    var found := Select.StreetByKey(s, cityStateZipId, streetName, isPobox);
    KeyLookup(s.streets, key, found);
    match found
    case Ok(k) => Ok(Ensured(k.id, k.row, false, s))
    case Err(NoResultFound) => Ok(Ensured(|s.streets|, key, true, s.(streets := s.streets + [key])))
    case Err(e) => Err(e)
  }

  /** `ensure.address`: the active address with these attributes on this street. */
  function EnsureAddress(s: Store, streetId: nat, number: string, attn: Option<string>, secondary: Option<string>)
    : (r: Result<Ensured<MailingAddress>>)
    ensures var key := MailingAddress(streetId, number, attn, secondary, true);
      && (r.Ok? ==> r.value.row == key && r.value.id < |r.value.store.addresses|
                    && r.value.store.addresses[r.value.id] == key)
      && (r.Ok? ==> r.value.created == (key !in s.addresses))
      && (r.Ok? && !r.value.created ==> r.value.store == s)
      && (r.Ok? && r.value.created ==> r.value.id == |s.addresses| && r.value.store == s.(addresses := s.addresses + [key]))
      && (r.Err? <==> multiset(s.addresses)[key] > 1)
      && (r.Err? ==> r.error == MultipleResultsFound)
  {
    var key := MailingAddress(streetId, number, attn, secondary, true);
    var found := Select.AddressByKey(s, streetId, number, attn, secondary);
    KeyLookup(s.addresses, key, found);
    match found
    case Ok(k) => Ok(Ensured(k.id, k.row, false, s))
    case Err(NoResultFound) => Ok(Ensured(|s.addresses|, key, true, s.(addresses := s.addresses + [key])))
    case Err(e) => Err(e)
  }

  /** `ensure.human`: the active human with this name and multi-entity flag. */
  function EnsureHuman(s: Store, name: string, isMultiEntity: bool): (r: Result<Ensured<Human>>)
    ensures var key := Human(name, isMultiEntity, true);
      && (r.Ok? ==> r.value.row == key && r.value.id < |r.value.store.humans| && r.value.store.humans[r.value.id] == key)
      && (r.Ok? ==> r.value.created == (key !in s.humans))
      && (r.Ok? && !r.value.created ==> r.value.store == s)
      && (r.Ok? && r.value.created ==> r.value.id == |s.humans| && r.value.store == s.(humans := s.humans + [key]))
      && (r.Err? <==> multiset(s.humans)[key] > 1)
      && (r.Err? ==> r.error == MultipleResultsFound)
  {
    var key := Human(name, isMultiEntity, true);
    var found := Select.HumanByKey(s, name, isMultiEntity);
    KeyLookup(s.humans, key, found);
    match found
    case Ok(k) => Ok(Ensured(k.id, k.row, false, s))
    case Err(NoResultFound) => Ok(Ensured(|s.humans|, key, true, s.(humans := s.humans + [key])))
    case Err(e) => Err(e)
  }

  /** `link.parcel_to_address`: a new active link, keyed after every existing one. */
  function LinkParcelToAddress(s: Store, parcelKey: nat, addressId: nat, role: int): Store
  {
    s.(parcelAddresses := s.parcelAddresses + [ParcelMailingAddress(parcelKey, addressId, role, true)])
  }

  /** `link.human_to_parcel`. */
  function LinkHumanToParcel(s: Store, parcelKey: nat, humanId: nat, role: int): Store
  {
    s.(humanParcels := s.humanParcels + [HumanParcel(humanId, parcelKey, role, true)])
  }

  /** `link.human_to_address`; either key may be None. */
  function LinkHumanToAddress(s: Store, humanId: Option<nat>, addressId: Option<nat>, role: int): Store
  {
    s.(humanAddresses := s.humanAddresses + [HumanMailingAddress(humanId, addressId, role, true)])
  }

  /** What a lookup by the whole row says about how often the row occurs. */
  lemma KeyLookup<T>(rows: seq<T>, key: T, found: Result<Keyed<T>>)
    requires found.Ok? ==> found.value.id < |rows| && rows[found.value.id] == key && found.value.row == key
    requires found.Ok? ==> forall i :: 0 <= i < |rows| && rows[i] == key ==> i == found.value.id
    requires found == Err(NoResultFound) <==> forall i :: 0 <= i < |rows| ==> rows[i] != key
    requires found == Err(MultipleResultsFound) <==>
               exists i, j :: 0 <= i < j < |rows| && rows[i] == key && rows[j] == key
    requires found.Err? ==> found.error == NoResultFound || found.error == MultipleResultsFound
    ensures found.Ok? ==> key in rows && multiset(rows)[key] == 1
    ensures found == Err(NoResultFound) ==> key !in rows && multiset(rows)[key] == 0
    ensures found == Err(MultipleResultsFound) ==> key in rows && multiset(rows)[key] > 1
  {
    match found
    case Ok(k) => MultiplicityOne(rows, key, k.id);
    case Err(NoResultFound) =>
    case Err(_) => MultiplicityTwo(rows, key);
  }

  /** A value found at exactly one position occurs once. */
  lemma {:induction false} MultiplicityOne<T>(rows: seq<T>, x: T, k: nat)
    requires k < |rows| && rows[k] == x
    requires forall i :: 0 <= i < |rows| && rows[i] == x ==> i == k
    ensures multiset(rows)[x] == 1
  {
    assert rows == rows[..k] + [x] + rows[k + 1..];
    assert x !in rows[..k] by {
      forall i | 0 <= i < k ensures rows[..k][i] != x { assert rows[..k][i] == rows[i]; }
    }
    var after := rows[k + 1..];
    assert x !in after by {
      forall i | 0 <= i < |after| ensures after[i] != x { assert after[i] == rows[k + 1 + i]; }
    }
    assert multiset(rows) == multiset(rows[..k]) + multiset([x]) + multiset(after);
  }

  /** A value found at two positions occurs more than once. */
  lemma MultiplicityTwo<T>(rows: seq<T>, x: T)
    requires exists i, j :: 0 <= i < j < |rows| && rows[i] == x && rows[j] == x
    ensures multiset(rows)[x] > 1
  {
    var i, j :| 0 <= i < j < |rows| && rows[i] == x && rows[j] == x;
    assert rows == rows[..i] + [x] + rows[i + 1..j] + [x] + rows[j + 1..];
    assert multiset(rows) == multiset(rows[..i]) + multiset([x]) + multiset(rows[i + 1..j]) + multiset([x]) + multiset(rows[j + 1..]);
  }
}
