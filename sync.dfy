/**
 * The reconciler of app/lib.py: `_sync_owner_and_mailing`, which compares the
 * county's owner and mailing for one role with the active chain read from the
 * store and rewrites whichever side differs, and `sync_parcel_data`, which does
 * that for the general and the mortgage role.
 *
 * The write steps are specified twice: as functions over a transaction value
 * `Tx` (the store plus the log of calls made so far), and as the methods of the
 * class `Session`, which updates its store in place; each method is proved to
 * have the effect of its function.
 */
module Sync {
  import opened Wrappers
  import opened Orm
  import opened Schemas
  import opened Operations
  import Reader

  /** The store and the calls made on it so far. */
  datatype Tx = Tx(store: Store, log: seq<Call>)

  /** The outcome of a step: its value or the exception it raised, and the transaction as the step left it. */
  datatype Step<T> = Step(result: Result<T>, tx: Tx)

  // ---------------------------------------------------------------------------
  // One write call, with its log entry

  function RetireStep(tx: Tx, table: RetirableTable, id: nat): Tx
  {
    Tx(Deactivate(tx.store, table, id), tx.log + [Deactivated(table, id)])
  }

  /** `deactivate.human_to_parcel(db, id=<the link row>)`: the row is not a key, so no row is retired. */
  function RetireHumanParcelRowStep(tx: Tx, link: Keyed<HumanParcel>): Tx
  {
    Tx(tx.store, tx.log + [DeactivatedHumanParcelRow(link)])
  }

  function EnsureCityStateZipStep(tx: Tx, city: string, state: string, zip: string): Step<Keyed<MailingCityStateZip>>
  {
    match EnsureCityStateZip(tx.store, city, state, zip)
    case Err(e) => Step(Err(e), tx)
    case Ok(e) => Step(Ok(Keyed(e.id, e.row)), Tx(e.store, tx.log + [EnsuredRow(CityStateZipTable, e.id, e.created)]))
  }

  function EnsureStreetStep(tx: Tx, cityStateZipId: nat, name: string, isPobox: bool): Step<Keyed<MailingStreet>>
  {
    match EnsureStreet(tx.store, cityStateZipId, name, isPobox)
    case Err(e) => Step(Err(e), tx)
    case Ok(e) => Step(Ok(Keyed(e.id, e.row)), Tx(e.store, tx.log + [EnsuredRow(StreetTable, e.id, e.created)]))
  }

  function EnsureAddressStep(tx: Tx, streetId: nat, number: string, attn: Option<string>, secondary: Option<string>)
    : Step<Keyed<MailingAddress>>
  {
    match EnsureAddress(tx.store, streetId, number, attn, secondary)
    case Err(e) => Step(Err(e), tx)
    case Ok(e) => Step(Ok(Keyed(e.id, e.row)), Tx(e.store, tx.log + [EnsuredRow(AddressTable, e.id, e.created)]))
  }

  function EnsureHumanStep(tx: Tx, name: string, isMultiEntity: bool): Step<Keyed<Human>>
  {
    match EnsureHuman(tx.store, name, isMultiEntity)
    case Err(e) => Step(Err(e), tx)
    case Ok(e) => Step(Ok(Keyed(e.id, e.row)), Tx(e.store, tx.log + [EnsuredRow(HumanTable, e.id, e.created)]))
  }

  function LinkParcelToAddressStep(tx: Tx, parcelKey: nat, addressId: nat, role: int): Tx
  {
    Tx(LinkParcelToAddress(tx.store, parcelKey, addressId, role),
       tx.log + [Linked(ParcelAddressTable, |tx.store.parcelAddresses|)])
  }

  function LinkHumanToParcelStep(tx: Tx, parcelKey: nat, humanId: nat, role: int): Tx
  {
    Tx(LinkHumanToParcel(tx.store, parcelKey, humanId, role), tx.log + [Linked(HumanParcelTable, |tx.store.humanParcels|)])
  }

  function LinkHumanToAddressStep(tx: Tx, humanId: Option<nat>, addressId: Option<nat>, role: int): Tx
  {
    Tx(LinkHumanToAddress(tx.store, humanId, addressId, role),
       tx.log + [Linked(HumanAddressTable, |tx.store.humanAddresses|)])
  }

  function KeyOf<T>(row: Option<Keyed<T>>): Option<nat>
  {
    match row
    case Some(k) => Some(k.id)
    case None => None
  }

  // ---------------------------------------------------------------------------
  // `_sync_owner_and_mailing`, step by step

  /**
   * Lines 62-67: retire the parcel link, the human link and the address of the
   * chain, in that order, each only when the chain has it; nothing else changes.
   */
  function RetireAddressChain(tx: Tx, cog: CogTables): (r: Tx)
    ensures r.store.parcels == tx.store.parcels && r.store.cityStateZips == tx.store.cityStateZips
    ensures r.store.streets == tx.store.streets && r.store.humans == tx.store.humans
    ensures r.store.humanParcels == tx.store.humanParcels
    ensures r.log == tx.log
                     + (if cog.parcelAddress.Some? then [Deactivated(ParcelAddressTable, cog.parcelAddress.value.id)] else [])
                     + (if cog.humanAddress.Some? then [Deactivated(HumanAddressTable, cog.humanAddress.value.id)] else [])
                     + (if cog.address.Some? then [Deactivated(AddressTable, cog.address.value.id)] else [])
  {
    var t1 := if cog.parcelAddress.Some? then RetireStep(tx, ParcelAddressTable, cog.parcelAddress.value.id) else tx;
    var t2 := if cog.humanAddress.Some? then RetireStep(t1, HumanAddressTable, cog.humanAddress.value.id) else t1;
    if cog.address.Some? then RetireStep(t2, AddressTable, cog.address.value.id) else t2
  }

  /**
   * Lines 96-104: the human/parcel link (by row), the human link and the human,
   * in that order, each only when the chain has it; nothing else changes.
   */
  function RetireHumanChain(tx: Tx, cog: CogTables): (r: Tx)
    ensures r.store.parcels == tx.store.parcels && r.store.cityStateZips == tx.store.cityStateZips
    ensures r.store.streets == tx.store.streets && r.store.addresses == tx.store.addresses
    ensures r.store.humanParcels == tx.store.humanParcels && r.store.parcelAddresses == tx.store.parcelAddresses
    ensures r.log == tx.log
                     + (if cog.humanParcel.Some? then [DeactivatedHumanParcelRow(cog.humanParcel.value)] else [])
                     + (if cog.humanAddress.Some? then [Deactivated(HumanAddressTable, cog.humanAddress.value.id)] else [])
                     + (if cog.human.Some? then [Deactivated(HumanTable, cog.human.value.id)] else [])
  {
    var t1 := if cog.humanParcel.Some? then RetireHumanParcelRowStep(tx, cog.humanParcel.value) else tx;
    var t2 := if cog.humanAddress.Some? then RetireStep(t1, HumanAddressTable, cog.humanAddress.value.id) else t1;
    if cog.human.Some? then RetireStep(t2, HumanTable, cog.human.value.id) else t2
  }

  /**
   * Lines 70-89: ensure the city/state/zip, the street under it and the address
   * on that street, link the parcel to the address, and read the mailing back
   * from the rows. A chain without a parcel raises AttributeError once the
   * three ensures are done.
   */
  function InsertMailing(tx: Tx, m: Mailing, parcel: Option<Keyed<Parcel>>, role: int): Step<(nat, Mailing)>
  {
    match EnsureCityStateZipStep(tx, m.last.city, m.last.state, m.last.zip)
    case Step(Err(e), t1) => Step(Err(e), t1)
    case Step(Ok(cityStateZip), t1) =>
      match EnsureStreetStep(t1, cityStateZip.id, m.delivery.street, m.delivery.isPobox)
      case Step(Err(e), t2) => Step(Err(e), t2)
      case Step(Ok(street), t2) =>
        match EnsureAddressStep(t2, street.id, m.delivery.number, m.delivery.attn, m.delivery.secondary)
        case Step(Err(e), t3) => Step(Err(e), t3)
        case Step(Ok(address), t3) =>
          if parcel.None? then Step(Err(AttributeError), t3)
          else
            Step(Ok((address.id, Reader.MailingOfRows(address.row, street.row, cityStateZip.row))),
                 LinkParcelToAddressStep(t3, parcel.value.id, address.id, role))
  }

  /**
   * Lines 55-89, the address side: an unchanged mailing keeps the chain's
   * address; otherwise the chain is retired and the county's mailing inserted.
   * A county without a mailing raises AttributeError after the retirement.
   */
  function SyncAddress(tx: Tx, county: Option<Mailing>, cog: CogTables, role: int): Step<(Option<nat>, Option<Mailing>)>
  {
    if county == Reader.Project(cog).mailing then Step(Ok((KeyOf(cog.address), county)), tx)
    else
      var t1 := RetireAddressChain(tx, cog);
      if county.None? then Step(Err(AttributeError), t1)
      else
        match InsertMailing(t1, county.value, cog.parcel, role)
        case Step(Err(e), t2) => Step(Err(e), t2)
        case Step(Ok((addressId, mailing)), t2) => Step(Ok((Some(addressId), Some(mailing))), t2)
  }

  /**
   * Lines 105-110: ensure the human, link it to the parcel and read the owner
   * back; a chain without a parcel raises AttributeError after the ensure.
   */
  function InsertOwner(tx: Tx, o: Owner, parcel: Option<Keyed<Parcel>>, role: int): Step<(nat, Owner)>
  {
    match EnsureHumanStep(tx, o.name, o.isMultiEntity)
    case Step(Err(e), t1) => Step(Err(e), t1)
    case Step(Ok(human), t1) =>
      if parcel.None? then Step(Err(AttributeError), t1)
      else Step(Ok((human.id, Reader.OwnerOfRow(human.row))), LinkHumanToParcelStep(t1, parcel.value.id, human.id, role))
  }

  /** Lines 91-110, the human side, symmetric to the address side. */
  function SyncHuman(tx: Tx, county: Option<Owner>, cog: CogTables, role: int): Step<(Option<nat>, Option<Owner>)>
  {
    if county == Reader.Project(cog).owner then Step(Ok((KeyOf(cog.human), county)), tx)
    else
      var t1 := RetireHumanChain(tx, cog);
      if county.None? then Step(Err(AttributeError), t1)
      else
        match InsertOwner(t1, county.value, cog.parcel, role)
        case Step(Err(e), t2) => Step(Err(e), t2)
        case Step(Ok((humanId, owner)), t2) => Step(Ok((Some(humanId), Some(owner))), t2)
  }

  /** Whether either side of the county data differs from what the chain projects to. */
  predicate Changed(county: OwnerAndMailing, cog: CogTables)
  {
    county.mailing != Reader.Project(cog).mailing || county.owner != Reader.Project(cog).owner
  }

  /**
   * `_sync_owner_and_mailing` (lines 40-119): the address side, then the human
   * side, then, when either side changed, a link from the (new or kept) human
   * to the (new or kept) address under the addressee role.
   */
  function Reconcile(tx: Tx, county: OwnerAndMailing, cog: CogTables, roles: RolePair): Step<OwnerAndMailing>
  {
    match SyncAddress(tx, county.mailing, cog, roles.addressRole)
    case Step(Err(e), t1) => Step(Err(e), t1)
    case Step(Ok((addressId, mailing)), t1) =>
      match SyncHuman(t1, county.owner, cog, roles.addresseeRole)
      case Step(Err(e), t2) => Step(Err(e), t2)
      case Step(Ok((humanId, owner)), t2) =>
        var t3 := if Changed(county, cog) then LinkHumanToAddressStep(t2, humanId, addressId, roles.addresseeRole) else t2;
        Step(Ok(OwnerAndMailing(owner, mailing)), t3)
  }

  /**
   * `sync_parcel_data` after the county read (lines 20-37): reconcile the general
   * role, then the mortgage role, against the chains read once before either;
   * the results are filed under each role's pair, so equal pairs keep the later one.
   */
  function SyncAll(tx: Tx, county: GeneralAndMortgage, cog: CogGeneralAndMortgage, roles: LinkedObjectRole)
    : Step<GeneralAndMortgage>
  {
    match Reconcile(tx, county.general, cog.general, roles.generalRoles)
    case Step(Err(e), t1) => Step(Err(e), t1)
    case Step(Ok(general), t1) =>
      match Reconcile(t1, county.mortgage, cog.mortgage, roles.mortgageRoles)
      case Step(Err(e), t2) => Step(Err(e), t2)
      case Step(Ok(mortgage), t2) =>
        var out := map[roles.generalRoles := general][roles.mortgageRoles := mortgage];
        Step(Ok(GeneralAndMortgage(out[roles.generalRoles], out[roles.mortgageRoles])), t2)
  }

  /** `sync_parcel_data`: read the chains, then reconcile both roles; a failed read raises before any write. */
  function SyncParcel(tx: Tx, parcelId: string, county: GeneralAndMortgage, roles: LinkedObjectRole)
    : Step<GeneralAndMortgage>
  {
    match Reader.CogTablesOf(tx.store, parcelId, roles)
    case Err(e) => Step(Err(e), tx)
    case Ok(cog) => SyncAll(tx, county, cog, roles)
  }

  // ---------------------------------------------------------------------------
  // The database session, updated in place

  class Session {
    var store: Store
    ghost var log: seq<Call>

    constructor(s: Store)
      ensures store == s && log == []
    {
      store := s;
      log := [];
    }

    ghost function State(): Tx
      reads this
    {
      Tx(store, log)
    }

    method Retire(table: RetirableTable, id: nat)
      modifies this
      ensures State() == RetireStep(old(State()), table, id)
    {
      store := Deactivate(store, table, id);
      log := log + [Deactivated(table, id)];
    }

    method RetireHumanParcelRow(link: Keyed<HumanParcel>)
      modifies this
      ensures State() == RetireHumanParcelRowStep(old(State()), link)
    {
      log := log + [DeactivatedHumanParcelRow(link)];
    }

    method EnsureCityStateZip(city: string, state: string, zip: string) returns (r: Result<Keyed<MailingCityStateZip>>)
      modifies this
      ensures Step(r, State()) == EnsureCityStateZipStep(old(State()), city, state, zip)
    {
      var e := Operations.EnsureCityStateZip(store, city, state, zip);
      if e.Err? {
        return Err(e.error);
      }
      store := e.value.store;
      log := log + [EnsuredRow(CityStateZipTable, e.value.id, e.value.created)];
      r := Ok(Keyed(e.value.id, e.value.row));
    }

    method EnsureStreet(cityStateZipId: nat, name: string, isPobox: bool) returns (r: Result<Keyed<MailingStreet>>)
      modifies this
      ensures Step(r, State()) == EnsureStreetStep(old(State()), cityStateZipId, name, isPobox)
    {
      var e := Operations.EnsureStreet(store, cityStateZipId, name, isPobox);
      if e.Err? {
        return Err(e.error);
      }
      store := e.value.store;
      log := log + [EnsuredRow(StreetTable, e.value.id, e.value.created)];
      r := Ok(Keyed(e.value.id, e.value.row));
    }

    method EnsureAddress(streetId: nat, number: string, attn: Option<string>, secondary: Option<string>)
      returns (r: Result<Keyed<MailingAddress>>)
      modifies this
      ensures Step(r, State()) == EnsureAddressStep(old(State()), streetId, number, attn, secondary)
    {
      var e := Operations.EnsureAddress(store, streetId, number, attn, secondary);
      if e.Err? {
        return Err(e.error);
      }
      store := e.value.store;
      log := log + [EnsuredRow(AddressTable, e.value.id, e.value.created)];
      r := Ok(Keyed(e.value.id, e.value.row));
    }

    method EnsureHuman(name: string, isMultiEntity: bool) returns (r: Result<Keyed<Human>>)
      modifies this
      ensures Step(r, State()) == EnsureHumanStep(old(State()), name, isMultiEntity)
    {
      var e := Operations.EnsureHuman(store, name, isMultiEntity);
      if e.Err? {
        return Err(e.error);
      }
      store := e.value.store;
      log := log + [EnsuredRow(HumanTable, e.value.id, e.value.created)];
      r := Ok(Keyed(e.value.id, e.value.row));
    }

    method LinkParcelToAddress(parcelKey: nat, addressId: nat, role: int)
      modifies this
      ensures State() == LinkParcelToAddressStep(old(State()), parcelKey, addressId, role)
    {
      log := log + [Linked(ParcelAddressTable, |store.parcelAddresses|)];
      store := Operations.LinkParcelToAddress(store, parcelKey, addressId, role);
    }

    method LinkHumanToParcel(parcelKey: nat, humanId: nat, role: int)
      modifies this
      ensures State() == LinkHumanToParcelStep(old(State()), parcelKey, humanId, role)
    {
      log := log + [Linked(HumanParcelTable, |store.humanParcels|)];
      store := Operations.LinkHumanToParcel(store, parcelKey, humanId, role);
    }

    method LinkHumanToAddress(humanId: Option<nat>, addressId: Option<nat>, role: int)
      modifies this
      ensures State() == LinkHumanToAddressStep(old(State()), humanId, addressId, role)
    {
      log := log + [Linked(HumanAddressTable, |store.humanAddresses|)];
      store := Operations.LinkHumanToAddress(store, humanId, addressId, role);
    }

    /** Lines 62-67. */
    method DeactivateAddressChain(cog: CogTables)
      modifies this
      ensures State() == RetireAddressChain(old(State()), cog)
    {
      if cog.parcelAddress.Some? {
        Retire(ParcelAddressTable, cog.parcelAddress.value.id);
      }
      if cog.humanAddress.Some? {
        Retire(HumanAddressTable, cog.humanAddress.value.id);
      }
      if cog.address.Some? {
        Retire(AddressTable, cog.address.value.id);
      }
    }

    /** Lines 96-104. */
    method DeactivateHumanChain(cog: CogTables)
      modifies this
      ensures State() == RetireHumanChain(old(State()), cog)
    {
      if cog.humanParcel.Some? {
        RetireHumanParcelRow(cog.humanParcel.value);
      }
      if cog.humanAddress.Some? {
        Retire(HumanAddressTable, cog.humanAddress.value.id);
      }
      if cog.human.Some? {
        Retire(HumanTable, cog.human.value.id);
      }
    }

    /** Lines 70-89. */
    method InsertMailingRows(m: Mailing, parcel: Option<Keyed<Parcel>>, role: int) returns (r: Result<(nat, Mailing)>)
      modifies this
      ensures Step(r, State()) == InsertMailing(old(State()), m, parcel, role)
    {
      var cityStateZip := EnsureCityStateZip(m.last.city, m.last.state, m.last.zip);
      if cityStateZip.Err? {
        return Err(cityStateZip.error);
      }
      var street := EnsureStreet(cityStateZip.value.id, m.delivery.street, m.delivery.isPobox);
      if street.Err? {
        return Err(street.error);
      }
      var address := EnsureAddress(street.value.id, m.delivery.number, m.delivery.attn, m.delivery.secondary);
      if address.Err? {
        return Err(address.error);
      }
      if parcel.None? {
        return Err(AttributeError);
      }
      LinkParcelToAddress(parcel.value.id, address.value.id, role);
      r := Ok((address.value.id, Reader.MailingOfRows(address.value.row, street.value.row, cityStateZip.value.row)));
    }

    /** Lines 105-110. */
    method InsertOwnerRow(o: Owner, parcel: Option<Keyed<Parcel>>, role: int) returns (r: Result<(nat, Owner)>)
      modifies this
      ensures Step(r, State()) == InsertOwner(old(State()), o, parcel, role)
    {
      var human := EnsureHuman(o.name, o.isMultiEntity);
      if human.Err? {
        return Err(human.error);
      }
      if parcel.None? {
        return Err(AttributeError);
      }
      LinkHumanToParcel(parcel.value.id, human.value.id, role);
      r := Ok((human.value.id, Reader.OwnerOfRow(human.value.row)));
    }

    /**
     * `_sync_owner_and_mailing` (lines 40-119), reassigning the kept or new
     * address key, mailing, human key and owner as it goes.
     */
    method SyncOwnerAndMailing(county: OwnerAndMailing, cog: CogTables, roles: RolePair)
      returns (r: Result<OwnerAndMailing>)
      modifies this
      ensures Step(r, State()) == Reconcile(old(State()), county, cog, roles)
    {
      var addressRole, addresseeRole := roles.addressRole, roles.addresseeRole;
      var cogData := Reader.Project(cog);

      var addressId := KeyOf(cog.address);
      var returnedAddress := county.mailing;
      var sameAddress := county.mailing == cogData.mailing;
      if !sameAddress {
        DeactivateAddressChain(cog);
        if county.mailing.None? {
          return Err(AttributeError);
        }
        var inserted := InsertMailingRows(county.mailing.value, cog.parcel, addressRole);
        if inserted.Err? {
          return Err(inserted.error);
        }
        addressId := Some(inserted.value.0);
        returnedAddress := Some(inserted.value.1);
      }
      ghost var afterAddress := State();
      assert SyncAddress(old(State()), county.mailing, cog, addressRole)
             == Step(Ok((addressId, returnedAddress)), afterAddress);

      var humanId := KeyOf(cog.human);
      var returnedHuman := county.owner;
      var sameHuman := county.owner == cogData.owner;
      if !sameHuman {
        DeactivateHumanChain(cog);
        if county.owner.None? {
          return Err(AttributeError);
        }
        var inserted := InsertOwnerRow(county.owner.value, cog.parcel, addresseeRole);
        if inserted.Err? {
          return Err(inserted.error);
        }
        humanId := Some(inserted.value.0);
        returnedHuman := Some(inserted.value.1);
      }
      assert SyncHuman(afterAddress, county.owner, cog, addresseeRole) == Step(Ok((humanId, returnedHuman)), State());

      if !sameHuman || !sameAddress {
        LinkHumanToAddress(humanId, addressId, addresseeRole);
      }
      r := Ok(OwnerAndMailing(returnedHuman, returnedAddress));
    }

    /**
     * `sync_parcel_data` after the county read: the chains are read once, then
     * each role's pair is reconciled in turn and its result filed under the pair.
     */
    method SyncParcelData(parcelId: string, county: GeneralAndMortgage, roles: LinkedObjectRole)
      returns (r: Result<GeneralAndMortgage>)
      modifies this
      ensures Step(r, State()) == SyncParcel(old(State()), parcelId, county, roles)
    {
      var cogTables := Reader.GetCogTables(store, parcelId, roles);
      if cogTables.Err? {
        return Err(cogTables.error);
      }
      var counties := [county.general, county.mortgage];
      var cogs := [cogTables.value.general, cogTables.value.mortgage];
      var pairs := [roles.generalRoles, roles.mortgageRoles];
      var out: map<RolePair, OwnerAndMailing> := map[];
      ghost var afterGeneral, general, mortgage := State(), county.general, county.mortgage;
      var i := 0;
      while i < 2
        invariant 0 <= i <= 2
        invariant i == 0 ==> State() == old(State()) && out == map[]
        invariant i >= 1 ==> Reconcile(old(State()), county.general, cogs[0], pairs[0]) == Step(Ok(general), afterGeneral)
        invariant i == 1 ==> State() == afterGeneral && out == map[pairs[0] := general]
        invariant i == 2 ==> Reconcile(afterGeneral, county.mortgage, cogs[1], pairs[1]) == Step(Ok(mortgage), State())
                             && out == map[pairs[0] := general][pairs[1] := mortgage]
      {
        var synced := SyncOwnerAndMailing(counties[i], cogs[i], pairs[i]);
        if synced.Err? {
          return Err(synced.error);
        }
        out := out[pairs[i] := synced.value];
        if i == 0 {
          afterGeneral, general := State(), synced.value;
        } else {
          mortgage := synced.value;
        }
        i := i + 1;
      }
      r := Ok(GeneralAndMortgage(out[roles.generalRoles], out[roles.mortgageRoles]));
    }
  }
}
