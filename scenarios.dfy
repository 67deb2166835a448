/**
 * Whole runs of the reader and the reconciler on a parcel that starts with no
 * mailing and no owner: the first reconciliation writes one chain that the
 * reader reads back as the county's data, and a second one makes no call;
 * reconciling the general and the mortgage role with the same data links one
 * address to its human twice, after which the parcel can no longer be read.
 */
module Scenarios {
  import opened Wrappers
  import opened Orm
  import opened Schemas
  import opened Operations
  import Select
  import Reader
  import opened Sync
  import ReconcileFacts

  /** A store holding one parcel and nothing else. */
  function BareParcel(p: Parcel): Store
  {
    Store([p], [], [], [], [], [], [], [])
  }

  /** What the reader hands back for each role of a parcel with no links. */
  function Fresh(p: Parcel): CogTables
  {
    EmptyTables.(parcel := Some(Keyed(0, p)))
  }

  function CityStateZipRow(m: Mailing): MailingCityStateZip
  {
    MailingCityStateZip(m.last.city, m.last.state, m.last.zip, true)
  }

  function StreetRow(m: Mailing): MailingStreet
  {
    MailingStreet(0, m.delivery.street, m.delivery.isPobox, true)
  }

  function AddressRow(m: Mailing): MailingAddress
  {
    MailingAddress(0, m.delivery.number, m.delivery.attn, m.delivery.secondary, true)
  }

  function HumanRow(o: Owner): Human
  {
    Human(o.name, o.isMultiEntity, true)
  }

  /** The store after the first reconciliation of a bare parcel under `roles`. */
  function Written(p: Parcel, m: Mailing, o: Owner, roles: RolePair): Store
  {
    Store([p], [CityStateZipRow(m)], [StreetRow(m)], [AddressRow(m)], [HumanRow(o)],
          [ParcelMailingAddress(0, 0, roles.addressRole, true)],
          [HumanMailingAddress(Some(0), Some(0), roles.addresseeRole, true)],
          [HumanParcel(0, 0, roles.addresseeRole, true)])
  }

  /** The reader finds the parcel and no link, and attaches the parcel to two empty chains. */
  lemma ReadBareParcel(p: Parcel, roles: LinkedObjectRole)
    requires p.active
    ensures Reader.CogTablesOf(BareParcel(p), p.countyId, roles) == Ok(CogGeneralAndMortgage(Fresh(p), Fresh(p)))
  {
    var s := BareParcel(p);
    var parcel := Select.ParcelByCountyId(s, p.countyId);
    assert parcel == Ok(Keyed(0, p));
    var links := Select.ParcelMailingAddresses(s, 0);
    assert links == [];
    assert Reader.ReadAll(s, links) == Ok([]);
  }

  /** The address side of the first reconciliation: three rows created, one parcel link. */
  lemma FirstAddressSide(p: Parcel, m: Mailing, o: Owner, roles: RolePair)
    ensures var r := SyncAddress(Tx(BareParcel(p), []), Some(m), Fresh(p), roles.addressRole);
      && r.result == Ok((Some(0), Some(m)))
      && r.tx.store == BareParcel(p).(cityStateZips := [CityStateZipRow(m)], streets := [StreetRow(m)],
                                      addresses := [AddressRow(m)],
                                      parcelAddresses := [ParcelMailingAddress(0, 0, roles.addressRole, true)])
  {
    var s := BareParcel(p);
    var tx := Tx(s, []);
    assert RetireAddressChain(tx, Fresh(p)) == tx;
    var c := EnsureCityStateZip(s, m.last.city, m.last.state, m.last.zip);
    assert multiset(s.cityStateZips)[CityStateZipRow(m)] == 0;
    assert c.Ok? && c.value.created && c.value.id == 0;
    var st := EnsureStreet(c.value.store, 0, m.delivery.street, m.delivery.isPobox);
    assert multiset(c.value.store.streets)[StreetRow(m)] == 0;
    assert st.Ok? && st.value.created && st.value.id == 0;
    var a := EnsureAddress(st.value.store, 0, m.delivery.number, m.delivery.attn, m.delivery.secondary);
    assert multiset(st.value.store.addresses)[AddressRow(m)] == 0;
    assert a.Ok? && a.value.created && a.value.id == 0;
    Reader.MailingOfKeyRows(m, 0, 0);
  }

  /** The human side of the first reconciliation: one human created, one human/parcel link. */
  lemma FirstHumanSide(s: Store, o: Owner, p: Parcel, role: int)
    requires s.humans == [] && s.humanParcels == []
    ensures var r := SyncHuman(Tx(s, []), Some(o), Fresh(p), role);
      && r.result == Ok((Some(0), Some(o)))
      && r.tx.store == s.(humans := [HumanRow(o)], humanParcels := [HumanParcel(0, 0, role, true)])
  {
    var tx := Tx(s, []);
    assert RetireHumanChain(tx, Fresh(p)) == tx;
    var h := EnsureHuman(s, o.name, o.isMultiEntity);
    assert multiset(s.humans)[HumanRow(o)] == 0;
    assert h.Ok? && h.value.created && h.value.id == 0;
  }

  /** The first reconciliation of a bare parcel writes exactly the chain `Written` and returns the county data. */
  lemma {:induction false} FirstReconcile(p: Parcel, m: Mailing, o: Owner, roles: RolePair)
    ensures var r := Reconcile(Tx(BareParcel(p), []), OwnerAndMailing(Some(o), Some(m)), Fresh(p), roles);
      r.result == Ok(OwnerAndMailing(Some(o), Some(m))) && r.tx.store == Written(p, m, o, roles)
  {
    var county := OwnerAndMailing(Some(o), Some(m));
    FirstAddressSide(p, m, o, roles);
    var a := SyncAddress(Tx(BareParcel(p), []), Some(m), Fresh(p), roles.addressRole);
    assert Tx(a.tx.store, []).store == a.tx.store;
    FirstHumanSide(a.tx.store, o, p, roles.addresseeRole);
    FirstHumanSideAnyLog(a.tx, o, p, roles.addresseeRole);
    var h := SyncHuman(a.tx, Some(o), Fresh(p), roles.addresseeRole);
    assert Changed(county, Fresh(p));
  }

  /** The log does not influence the human side's writes. */
  lemma FirstHumanSideAnyLog(tx: Tx, o: Owner, p: Parcel, role: int)
    ensures SyncHuman(tx, Some(o), Fresh(p), role).tx.store == SyncHuman(Tx(tx.store, []), Some(o), Fresh(p), role).tx.store
    ensures SyncHuman(tx, Some(o), Fresh(p), role).result == SyncHuman(Tx(tx.store, []), Some(o), Fresh(p), role).result
  {
  }

  /** The chain the reader finds in `Written`: every lookup meets exactly the one row written. */
  lemma ReadWritten(p: Parcel, m: Mailing, o: Owner, rp: RolePair, roles: LinkedObjectRole)
    requires p.active && roles.generalHumanMailingAddress == rp.addressRole
    ensures var r := Reader.CogTablesOf(Written(p, m, o, rp), p.countyId, roles);
      r.Ok? && Reader.Project(r.value.general) == OwnerAndMailing(Some(o), Some(m))
  {
    var s := Written(p, m, o, rp);
    assert Select.ParcelByCountyId(s, p.countyId) == Ok(Keyed(0, p));
    var link := Keyed(0, s.parcelAddresses[0]);
    var links := Select.ParcelMailingAddresses(s, 0);
    assert links == [link] by {
      assert exists k :: 0 <= k < |links| && links[k].id == 0;
      assert forall k :: 0 <= k < |links| ==> links[k].id == 0;
    }
    assert Select.AddressById(s, 0) == Ok(Keyed(0, AddressRow(m)));
    assert Select.StreetById(s, 0) == Ok(Keyed(0, StreetRow(m)));
    assert Select.CityStateZipById(s, 0) == Ok(Keyed(0, CityStateZipRow(m)));
    assert Select.HumanMailingAddressOf(s, 0) == Ok(Keyed(0, s.humanAddresses[0]));
    assert Select.HumanById(s, 0) == Ok(Keyed(0, HumanRow(o)));
    var chain := CogTables(None, Some(link), Some(Keyed(0, AddressRow(m))), Some(Keyed(0, StreetRow(m))),
                           Some(Keyed(0, CityStateZipRow(m))), Some(Keyed(0, HumanRow(o))),
                           Some(Keyed(0, s.humanAddresses[0])), None);
    assert Reader.ReadChain(s, link) == Ok(chain);
    assert Reader.ChainsOf(s, links) == [Ok(chain)];
    Reader.CollectAllOk([Ok(chain)], [chain]);
    Reader.MailingOfKeyRows(m, 0, 0);
  }

  /**
   * Round trip: the first reconciliation of a bare parcel returns the county
   * data; reading the parcel back projects to that data again; and
   * reconciling the same data against what was read makes no call.
   */
  lemma {:induction false} RoundTrip(p: Parcel, m: Mailing, o: Owner, roles: LinkedObjectRole)
    requires p.active && roles.generalRoles.addressRole == roles.generalHumanMailingAddress
    ensures var county := OwnerAndMailing(Some(o), Some(m));
      var first := Reconcile(Tx(BareParcel(p), []), county, Fresh(p), roles.generalRoles);
      var reread := Reader.CogTablesOf(first.tx.store, p.countyId, roles);
      && Reader.CogTablesOf(BareParcel(p), p.countyId, roles).Ok?
      && first.result == Ok(county)
      && reread.Ok? && Reader.Project(reread.value.general) == county
      && Reconcile(first.tx, county, reread.value.general, roles.generalRoles) == Step(Ok(county), first.tx)
  {
    var county := OwnerAndMailing(Some(o), Some(m));
    ReadBareParcel(p, roles);
    FirstReconcile(p, m, o, roles.generalRoles);
    ReadWritten(p, m, o, roles.generalRoles, roles);
    var first := Reconcile(Tx(BareParcel(p), []), county, Fresh(p), roles.generalRoles);
    var reread := Reader.CogTablesOf(first.tx.store, p.countyId, roles);
    ReconcileFacts.UnchangedMakesNoCalls(first.tx, county, reread.value.general, roles.generalRoles);
  }

  /** `Written` after a second reconciliation of the same data under the role pair `second`. */
  function WrittenTwice(p: Parcel, m: Mailing, o: Owner, first: RolePair, second: RolePair): Store
  {
    var s := Written(p, m, o, first);
    s.(parcelAddresses := s.parcelAddresses + [ParcelMailingAddress(0, 0, second.addressRole, true)],
       humanAddresses := s.humanAddresses + [HumanMailingAddress(Some(0), Some(0), second.addresseeRole, true)],
       humanParcels := s.humanParcels + [HumanParcel(0, 0, second.addresseeRole, true)])
  }

  /**
   * Reconciling the same data again against the (stale) empty chain finds every
   * row by key and creates none, but links the parcel, the human and the
   * address once more.
   */
  lemma {:induction false} SecondReconcile(p: Parcel, m: Mailing, o: Owner, first: RolePair, second: RolePair, log: seq<Call>)
    ensures var r := Reconcile(Tx(Written(p, m, o, first), log), OwnerAndMailing(Some(o), Some(m)), Fresh(p), second);
      r.result == Ok(OwnerAndMailing(Some(o), Some(m))) && r.tx.store == WrittenTwice(p, m, o, first, second)
  {
    var s := Written(p, m, o, first);
    var tx := Tx(s, log);
    assert RetireAddressChain(tx, Fresh(p)) == tx;
    assert multiset(s.cityStateZips)[CityStateZipRow(m)] == 1;
    assert multiset(s.streets)[StreetRow(m)] == 1;
    assert multiset(s.addresses)[AddressRow(m)] == 1;
    assert multiset(s.humans)[HumanRow(o)] == 1;
    var c := EnsureCityStateZip(s, m.last.city, m.last.state, m.last.zip);
    assert c == Ok(Ensured(0, CityStateZipRow(m), false, s));
    var st := EnsureStreet(s, 0, m.delivery.street, m.delivery.isPobox);
    assert st == Ok(Ensured(0, StreetRow(m), false, s));
    var a := EnsureAddress(s, 0, m.delivery.number, m.delivery.attn, m.delivery.secondary);
    assert a == Ok(Ensured(0, AddressRow(m), false, s));
    Reader.MailingOfKeyRows(m, 0, 0);
    var addressSide := SyncAddress(tx, Some(m), Fresh(p), second.addressRole);
    assert addressSide.result == Ok((Some(0), Some(m)));
    var s1 := addressSide.tx.store;
    assert s1 == s.(parcelAddresses := s.parcelAddresses + [ParcelMailingAddress(0, 0, second.addressRole, true)]);
    assert RetireHumanChain(addressSide.tx, Fresh(p)) == addressSide.tx;
    assert multiset(s1.humans)[HumanRow(o)] == 1;
    var h := EnsureHuman(s1, o.name, o.isMultiEntity);
    assert h == Ok(Ensured(0, HumanRow(o), false, s1));
    var humanSide := SyncHuman(addressSide.tx, Some(o), Fresh(p), second.addresseeRole);
    assert humanSide.result == Ok((Some(0), Some(o)));
  }

  /** Two active human links to one address make every chain through that address raise MultipleResultsFound. */
  lemma TwoHumanLinksBreakChain(s: Store, link: Keyed<ParcelMailingAddress>, i: nat, j: nat)
    requires i < j < |s.humanAddresses|
    requires s.humanAddresses[i].addressId == Some(link.row.addressId) && s.humanAddresses[i].active
    requires s.humanAddresses[j].addressId == Some(link.row.addressId) && s.humanAddresses[j].active
    requires Select.AddressById(s, link.row.addressId).Ok?
    requires Select.StreetById(s, Select.AddressById(s, link.row.addressId).value.row.streetId).Ok?
    requires Select.CityStateZipById(
               s, Select.StreetById(s, Select.AddressById(s, link.row.addressId).value.row.streetId).value.row.cityStateZipId).Ok?
    ensures Reader.ReadChain(s, link) == Err(MultipleResultsFound)
  {
    assert Select.HumanMailingAddressOf(s, link.row.addressId) == Err(MultipleResultsFound);
  }

  /** A parcel whose only address has two human links cannot be read. */
  lemma {:induction false} ReadWrittenTwice(p: Parcel, m: Mailing, o: Owner, roles: LinkedObjectRole)
    requires p.active
    ensures Reader.CogTablesOf(WrittenTwice(p, m, o, roles.generalRoles, roles.mortgageRoles), p.countyId, roles)
            == Err(MultipleResultsFound)
  {
    var s := WrittenTwice(p, m, o, roles.generalRoles, roles.mortgageRoles);
    assert Select.ParcelByCountyId(s, p.countyId) == Ok(Keyed(0, p));
    var links := Select.ParcelMailingAddresses(s, 0);
    assert s.parcelAddresses[0].parcelKey == 0 && s.parcelAddresses[0].active;
    assert |links| > 0;
    assert links[0].row.addressId == 0;
    assert Select.AddressById(s, 0) == Ok(Keyed(0, AddressRow(m)));
    assert Select.StreetById(s, 0) == Ok(Keyed(0, StreetRow(m)));
    assert Select.CityStateZipById(s, 0) == Ok(Keyed(0, CityStateZipRow(m)));
    TwoHumanLinksBreakChain(s, links[0], 0, 1);
    var chains := Reader.ChainsOf(s, links);
    assert chains[0] == Err(MultipleResultsFound);
    Reader.CollectFirstErr(chains, 0);
  }

  /**
   * `sync_parcel_data` on a bare parcel whose general and mortgage data agree:
   * both roles succeed and return the data, but the address ends up linked to
   * its human twice, so the next read of the parcel raises MultipleResultsFound.
   */
  lemma {:induction false} SameDataForBothRolesBreaksNextRead(p: Parcel, m: Mailing, o: Owner, roles: LinkedObjectRole)
    requires p.active
    ensures var county := OwnerAndMailing(Some(o), Some(m));
      var r := SyncParcel(Tx(BareParcel(p), []), p.countyId, GeneralAndMortgage(county, county), roles);
      && r.result == Ok(GeneralAndMortgage(county, county))
      && Reader.CogTablesOf(r.tx.store, p.countyId, roles) == Err(MultipleResultsFound)
  {
    var county := OwnerAndMailing(Some(o), Some(m));
    ReadBareParcel(p, roles);
    FirstReconcile(p, m, o, roles.generalRoles);
    var first := Reconcile(Tx(BareParcel(p), []), county, Fresh(p), roles.generalRoles);
    SecondReconcile(p, m, o, roles.generalRoles, roles.mortgageRoles, first.tx.log);
    ReadWrittenTwice(p, m, o, roles);
  }
}
