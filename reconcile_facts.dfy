/**
 * What `_sync_owner_and_mailing` (app/lib.py:40-119) guarantees about its result,
 * the rows it writes and the calls it makes.
 */
module ReconcileFacts {
  import opened Wrappers
  import opened Orm
  import opened Schemas
  import opened Operations
  import Reader
  import opened Sync

  /** The address `a` is active and, through its active street and city/state/zip, reads as `m`. */
  predicate MailingAt(s: Store, a: nat, m: Mailing)
  {
    && a < |s.addresses| && s.addresses[a].active
    && s.addresses[a].streetId < |s.streets| && s.streets[s.addresses[a].streetId].active
    && s.streets[s.addresses[a].streetId].cityStateZipId < |s.cityStateZips|
    && s.cityStateZips[s.streets[s.addresses[a].streetId].cityStateZipId].active
    && Reader.MailingOfRows(s.addresses[a], s.streets[s.addresses[a].streetId],
                            s.cityStateZips[s.streets[s.addresses[a].streetId].cityStateZipId]) == m
  }

  /** The human `h` is active and reads as `o`. */
  predicate OwnerAt(s: Store, h: nat, o: Owner)
  {
    h < |s.humans| && s.humans[h] == Human(o.name, o.isMultiEntity, true)
  }

  // ---------------------------------------------------------------------------
  // Nothing changed, nothing written

  /** Data equal to what the chain projects to is returned as it is, with no call made. */
  lemma UnchangedMakesNoCalls(tx: Tx, county: OwnerAndMailing, cog: CogTables, roles: RolePair)
    requires !Changed(county, cog)
    ensures Reconcile(tx, county, cog, roles) == Step(Ok(county), tx)
  {
  }

  /**
   * A county mailing of None against a chain that has a mailing retires the
   * chain and then raises AttributeError (line 70), leaving the retirements made.
   */
  lemma MissingMailingRaisesAfterRetiring(tx: Tx, county: OwnerAndMailing, cog: CogTables, roles: RolePair)
    requires county.mailing.None? && cog.HasAddressTables()
    ensures Reconcile(tx, county, cog, roles) == Step(Err(AttributeError), RetireAddressChain(tx, cog))
    ensures cog.address.Some? && RetireAddressChain(tx, cog).log[|tx.log|..] != []
  {
  }

  // ---------------------------------------------------------------------------
  // Lengths: which tables each side appends to

  lemma DeactivateKeepsLengths(s: Store, table: RetirableTable, id: nat)
    ensures var r := Deactivate(s, table, id);
      && |r.addresses| == |s.addresses| && |r.humans| == |s.humans|
      && |r.parcelAddresses| == |s.parcelAddresses| && |r.humanAddresses| == |s.humanAddresses|
      && r.parcels == s.parcels && r.cityStateZips == s.cityStateZips && r.streets == s.streets
      && r.humanParcels == s.humanParcels
  {
  }

  lemma {:induction false} RetireAddressChainLengths(tx: Tx, cog: CogTables)
    ensures var r := RetireAddressChain(tx, cog).store;
      && |r.addresses| == |tx.store.addresses| && |r.parcelAddresses| == |tx.store.parcelAddresses|
      && |r.humanAddresses| == |tx.store.humanAddresses|
  {
    var t1 := if cog.parcelAddress.Some? then RetireStep(tx, ParcelAddressTable, cog.parcelAddress.value.id) else tx;
    var t2 := if cog.humanAddress.Some? then RetireStep(t1, HumanAddressTable, cog.humanAddress.value.id) else t1;
    if cog.parcelAddress.Some? { DeactivateKeepsLengths(tx.store, ParcelAddressTable, cog.parcelAddress.value.id); }
    if cog.humanAddress.Some? { DeactivateKeepsLengths(t1.store, HumanAddressTable, cog.humanAddress.value.id); }
    if cog.address.Some? { DeactivateKeepsLengths(t2.store, AddressTable, cog.address.value.id); }
  }

  lemma {:induction false} RetireHumanChainLengths(tx: Tx, cog: CogTables)
    ensures var r := RetireHumanChain(tx, cog).store;
      && |r.humans| == |tx.store.humans| && |r.humanAddresses| == |tx.store.humanAddresses|
  {
    var t1 := if cog.humanParcel.Some? then RetireHumanParcelRowStep(tx, cog.humanParcel.value) else tx;
    var t2 := if cog.humanAddress.Some? then RetireStep(t1, HumanAddressTable, cog.humanAddress.value.id) else t1;
    if cog.humanAddress.Some? { DeactivateKeepsLengths(t1.store, HumanAddressTable, cog.humanAddress.value.id); }
    if cog.human.Some? { DeactivateKeepsLengths(t2.store, HumanTable, cog.human.value.id); }
  }

  /** An ensure call that succeeds changes only its own table, and the key it returns holds its row. */
  lemma EnsureFrames(s: Store, m: Mailing, cityStateZipId: nat, streetId: nat)
    ensures var r := EnsureCityStateZip(s, m.last.city, m.last.state, m.last.zip);
      r.Ok? ==> r.value.store == s.(cityStateZips := r.value.store.cityStateZips)
                && r.value.id < |r.value.store.cityStateZips| && r.value.store.cityStateZips[r.value.id] == r.value.row
    ensures var r := EnsureStreet(s, cityStateZipId, m.delivery.street, m.delivery.isPobox);
      r.Ok? ==> r.value.store == s.(streets := r.value.store.streets) && |s.streets| <= |r.value.store.streets|
                && r.value.store.streets[..|s.streets|] == s.streets
                && r.value.id < |r.value.store.streets| && r.value.store.streets[r.value.id] == r.value.row
    ensures var r := EnsureAddress(s, streetId, m.delivery.number, m.delivery.attn, m.delivery.secondary);
      r.Ok? ==> r.value.store == s.(addresses := r.value.store.addresses)
                && r.value.id < |r.value.store.addresses| && r.value.store.addresses[r.value.id] == r.value.row
  {
  }

  /**
   * Lines 70-89 on success: the mailing read back is the one asked for, its rows
   * are active and chained in the store, and the one new parcel link points at it.
   */
  lemma {:induction false} InsertMailingWritesChain(tx: Tx, m: Mailing, parcel: Option<Keyed<Parcel>>, role: int)
    ensures var r := InsertMailing(tx, m, parcel, role);
      r.result.Ok? ==>
        && r.result.value.1 == m
        && MailingAt(r.tx.store, r.result.value.0, m)
        && parcel.Some?
        && r.tx.store.parcelAddresses
           == tx.store.parcelAddresses + [ParcelMailingAddress(parcel.value.id, r.result.value.0, role, true)]
        && r.tx.store.humans == tx.store.humans && r.tx.store.humanAddresses == tx.store.humanAddresses
        && r.tx.store.humanParcels == tx.store.humanParcels && r.tx.store.parcels == tx.store.parcels
  {
    var c := EnsureCityStateZipStep(tx, m.last.city, m.last.state, m.last.zip);
    if c.result.Ok? {
      EnsureFrames(tx.store, m, 0, 0);
      var cid := c.result.value.id;
      var st := EnsureStreetStep(c.tx, cid, m.delivery.street, m.delivery.isPobox);
      if st.result.Ok? {
        EnsureFrames(c.tx.store, m, cid, 0);
        var sid := st.result.value.id;
        var a := EnsureAddressStep(st.tx, sid, m.delivery.number, m.delivery.attn, m.delivery.secondary);
        if a.result.Ok? && parcel.Some? {
          EnsureFrames(st.tx.store, m, cid, sid);
          var aid := a.result.value.id;
          var r := LinkParcelToAddressStep(a.tx, parcel.value.id, aid, role);
          assert InsertMailing(tx, m, parcel, role)
                 == Step(Ok((aid, Reader.MailingOfRows(a.result.value.row, st.result.value.row, c.result.value.row))), r);
          Reader.MailingOfKeyRows(m, sid, cid);
          assert r.store.cityStateZips[cid] == c.result.value.row;
          assert r.store.streets[sid] == st.result.value.row;
          assert r.store.addresses[aid] == a.result.value.row;
        }
      }
    }
  }

  /** Lines 105-110 on success: the owner read back is the one asked for and the new human/parcel link names it. */
  lemma InsertOwnerWritesHuman(tx: Tx, o: Owner, parcel: Option<Keyed<Parcel>>, role: int)
    ensures var r := InsertOwner(tx, o, parcel, role);
      r.result.Ok? ==>
        && r.result.value.1 == o
        && OwnerAt(r.tx.store, r.result.value.0, o)
        && parcel.Some?
        && r.tx.store.humanParcels == tx.store.humanParcels + [HumanParcel(r.result.value.0, parcel.value.id, role, true)]
        && r.tx.store.addresses == tx.store.addresses && r.tx.store.streets == tx.store.streets
        && r.tx.store.cityStateZips == tx.store.cityStateZips
        && r.tx.store.parcelAddresses == tx.store.parcelAddresses
        && r.tx.store.humanAddresses == tx.store.humanAddresses
  {
  }

  /** The address side: which links it adds, and what the kept or new address key names. */
  lemma {:induction false} SyncAddressWrites(tx: Tx, county: Option<Mailing>, cog: CogTables, role: int)
    ensures var r := SyncAddress(tx, county, cog, role);
      r.result.Ok? ==>
        && r.result.value.1 == county
        && |r.tx.store.humanAddresses| == |tx.store.humanAddresses|
        && r.tx.store.humanParcels == tx.store.humanParcels
        && r.tx.store.humans == tx.store.humans
        && (county == Reader.Project(cog).mailing ==> r.tx == tx && r.result.value.0 == KeyOf(cog.address))
        && (county != Reader.Project(cog).mailing ==>
              && county.Some? && r.result.value.0.Some?
              && MailingAt(r.tx.store, r.result.value.0.value, county.value)
              && cog.parcel.Some?
              && |r.tx.store.parcelAddresses| == |tx.store.parcelAddresses| + 1
              && r.tx.store.parcelAddresses[|tx.store.parcelAddresses|]
                 == ParcelMailingAddress(cog.parcel.value.id, r.result.value.0.value, role, true))
  {
    if county != Reader.Project(cog).mailing && county.Some? {
      var t1 := RetireAddressChain(tx, cog);
      RetireAddressChainLengths(tx, cog);
      InsertMailingWritesChain(t1, county.value, cog.parcel, role);
    }
  }

  /** The human side: which links it adds, what the kept or new human key names, and that it leaves the address rows alone. */
  lemma {:induction false} SyncHumanWrites(tx: Tx, county: Option<Owner>, cog: CogTables, role: int)
    ensures var r := SyncHuman(tx, county, cog, role);
      r.result.Ok? ==>
        && r.result.value.1 == county
        && |r.tx.store.humanAddresses| == |tx.store.humanAddresses|
        && r.tx.store.addresses == tx.store.addresses && r.tx.store.streets == tx.store.streets
        && r.tx.store.cityStateZips == tx.store.cityStateZips
        && r.tx.store.parcelAddresses == tx.store.parcelAddresses
        && (county == Reader.Project(cog).owner ==> r.tx == tx && r.result.value.0 == KeyOf(cog.human))
        && (county != Reader.Project(cog).owner ==>
              && county.Some? && r.result.value.0.Some?
              && OwnerAt(r.tx.store, r.result.value.0.value, county.value)
              && cog.parcel.Some?
              && r.tx.store.humanParcels
                 == tx.store.humanParcels + [HumanParcel(r.result.value.0.value, cog.parcel.value.id, role, true)])
        && (county == Reader.Project(cog).owner ==> r.tx.store.humanParcels == tx.store.humanParcels)
  {
    if county != Reader.Project(cog).owner && county.Some? {
      var t1 := RetireHumanChain(tx, cog);
      RetireHumanChainLengths(tx, cog);
      InsertOwnerWritesHuman(t1, county.value, cog.parcel, role);
    }
  }

  // ---------------------------------------------------------------------------
  // The whole reconciliation

  /** On success the result is exactly the county's data, whether it was kept or written. */
  lemma {:induction false} ReturnsCountyData(tx: Tx, county: OwnerAndMailing, cog: CogTables, roles: RolePair)
    ensures var r := Reconcile(tx, county, cog, roles);
      r.result.Ok? ==> r.result.value == county
  {
    SyncAddressWrites(tx, county.mailing, cog, roles.addressRole);
    var a := SyncAddress(tx, county.mailing, cog, roles.addressRole);
    if a.result.Ok? {
      SyncHumanWrites(a.tx, county.owner, cog, roles.addresseeRole);
    }
  }

  /**
   * Lines 113-114 on success: a human/address link is added iff either side
   * changed; it is the last call, carries the addressee role, and names the
   * written human and address of each side that changed and the chain's own
   * keys of each side that did not. A parcel link is added iff the mailing
   * changed and a human/parcel link iff the owner changed.
   */
  lemma {:induction false} CrossLink(tx: Tx, county: OwnerAndMailing, cog: CogTables, roles: RolePair)
    ensures var r := Reconcile(tx, county, cog, roles);
      var s, s' := tx.store, r.tx.store;
      var mailingChanged := county.mailing != Reader.Project(cog).mailing;
      var ownerChanged := county.owner != Reader.Project(cog).owner;
      r.result.Ok? ==>
        && |s'.parcelAddresses| == |s.parcelAddresses| + (if mailingChanged then 1 else 0)
        && |s'.humanParcels| == |s.humanParcels| + (if ownerChanged then 1 else 0)
        && s.humanParcels <= s'.humanParcels
        && |s'.humanAddresses| == |s.humanAddresses| + (if Changed(county, cog) then 1 else 0)
        && (Changed(county, cog) ==>
              var link := s'.humanAddresses[|s.humanAddresses|];
              && link.role == roles.addresseeRole && link.active
              && r.tx.log[|r.tx.log| - 1] == Linked(HumanAddressTable, |s.humanAddresses|)
              && (mailingChanged ==> link.addressId.Some? && MailingAt(s', link.addressId.value, county.mailing.value))
              && (!mailingChanged ==> link.addressId == KeyOf(cog.address))
              && (ownerChanged ==> link.humanId.Some? && OwnerAt(s', link.humanId.value, county.owner.value))
              && (!ownerChanged ==> link.humanId == KeyOf(cog.human)))
  {
    SyncAddressWrites(tx, county.mailing, cog, roles.addressRole);
    var a := SyncAddress(tx, county.mailing, cog, roles.addressRole);
    if a.result.Ok? {
      SyncHumanWrites(a.tx, county.owner, cog, roles.addresseeRole);
      var h := SyncHuman(a.tx, county.owner, cog, roles.addresseeRole);
      if h.result.Ok? && Changed(county, cog) {
        var s' := Reconcile(tx, county, cog, roles).tx.store;
        assert s'.addresses == h.tx.store.addresses && s'.humans == h.tx.store.humans;
      }
    }
  }

  /**
   * With no human linked to the chain's address, the projection has no owner,
   * so a county owner is always written again: one more human/parcel link, and
   * the old ones are never retired (the reader never reads them back).
   */
  lemma OwnerWithoutHumanLinkIsRewritten(tx: Tx, county: OwnerAndMailing, cog: CogTables, roles: RolePair)
    requires cog.human.None? && county.owner.Some?
    ensures var r := Reconcile(tx, county, cog, roles);
      r.result.Ok? ==> tx.store.humanParcels <= r.tx.store.humanParcels
                       && |r.tx.store.humanParcels| == |tx.store.humanParcels| + 1
  {
    assert Reader.Project(cog).owner.None?;
    CrossLink(tx, county, cog, roles);
  }

  /**
   * A changed owner with no mailing on either side links the human to no
   * address: the cross link carries `addressId == None`.
   */
  lemma CrossLinkWithoutAddress(tx: Tx, county: OwnerAndMailing, cog: CogTables, roles: RolePair)
    requires county.mailing.None? && cog.address.None? && county.owner != Reader.Project(cog).owner
    ensures var r := Reconcile(tx, county, cog, roles);
      r.result.Ok? ==> r.tx.store.humanAddresses[|r.tx.store.humanAddresses| - 1].addressId.None?
  {
    CrossLink(tx, county, cog, roles);
  }

  /** Retiring a chain leaves its address retired, whatever else the chain holds. */
  lemma {:induction false} RetireAddressChainRetiresAddress(tx: Tx, cog: CogTables)
    requires cog.address.Some? && cog.address.value.id < |tx.store.addresses|
    ensures var s := RetireAddressChain(tx, cog).store;
      cog.address.value.id < |s.addresses| && !s.addresses[cog.address.value.id].active
  {
    var t1 := if cog.parcelAddress.Some? then RetireStep(tx, ParcelAddressTable, cog.parcelAddress.value.id) else tx;
    var t2 := if cog.humanAddress.Some? then RetireStep(t1, HumanAddressTable, cog.humanAddress.value.id) else t1;
    if cog.parcelAddress.Some? { DeactivateKeepsLengths(tx.store, ParcelAddressTable, cog.parcelAddress.value.id); }
    if cog.humanAddress.Some? { DeactivateKeepsLengths(t1.store, HumanAddressTable, cog.humanAddress.value.id); }
  }

  /**
   * Addresses are shared by key: when another parcel's active link points at
   * the address a changed mailing retires, every later read of that other
   * parcel's links raises.
   */
  lemma {:induction false} RetiringSharedAddressBreaksOtherReads(
    tx: Tx, cog: CogTables, links: seq<Keyed<ParcelMailingAddress>>, k: nat)
    requires cog.address.Some? && cog.address.value.id < |tx.store.addresses|
    requires k < |links| && links[k].row.addressId == cog.address.value.id
    ensures var s := RetireAddressChain(tx, cog).store;
      Reader.ReadChain(s, links[k]) == Err(NoResultFound) && Reader.ReadAll(s, links).Err?
  {
    var s := RetireAddressChain(tx, cog).store;
    RetireAddressChainRetiresAddress(tx, cog);
    Reader.ReadChainRows(s, links[k]);
    var chains := Reader.ChainsOf(s, links);
    assert chains[k].Err?;
    Reader.CollectSpec(chains);
  }

  /**
   * `sync_parcel_data` files each role's result under its role pair: when the
   * two pairs are equal the mortgage result overwrites the general one, and
   * both fields of the answer are the mortgage data.
   */
  lemma {:induction false} SyncAllFilesByPair(tx: Tx, county: GeneralAndMortgage, cog: CogGeneralAndMortgage,
                                              roles: LinkedObjectRole)
    ensures var r := SyncAll(tx, county, cog, roles);
      r.result.Ok? ==>
        && r.result.value.mortgage == county.mortgage
        && r.result.value.general == (if roles.generalRoles == roles.mortgageRoles then county.mortgage else county.general)
  {
    var g := Reconcile(tx, county.general, cog.general, roles.generalRoles);
    ReturnsCountyData(tx, county.general, cog.general, roles.generalRoles);
    if g.result.Ok? {
      ReturnsCountyData(g.tx, county.mortgage, cog.mortgage, roles.mortgageRoles);
    }
  }

  // ---------------------------------------------------------------------------
  // The calls each side makes, in order

  /** Lines 70-74: ensure the city/state/zip, the street and the address, then link the parcel to that address. */
  predicate InsertMailingCalls(calls: seq<Call>, addressId: nat, linkId: nat)
  {
    && |calls| == 4
    && calls[0].EnsuredRow? && calls[0].table == CityStateZipTable
    && calls[1].EnsuredRow? && calls[1].table == StreetTable
    && calls[2].EnsuredRow? && calls[2].table == AddressTable && calls[2].id == addressId
    && calls[3] == Linked(ParcelAddressTable, linkId)
  }

  /** Lines 105-106: ensure the human, then link it to the parcel. */
  predicate InsertOwnerCalls(calls: seq<Call>, humanId: nat, linkId: nat)
  {
    && |calls| == 2
    && calls[0].EnsuredRow? && calls[0].table == HumanTable && calls[0].id == humanId
    && calls[1] == Linked(HumanParcelTable, linkId)
  }

  /** An ensure step logs one call naming its table and the key it returns, or, when it raises, nothing. */
  predicate LogsEnsure<T>(tx: Tx, step: Step<Keyed<T>>, table: Table)
  {
    && (step.result.Err? ==> step.tx == tx)
    && (step.result.Ok? ==>
          && |step.tx.log| == |tx.log| + 1 && step.tx.log[..|tx.log|] == tx.log
          && step.tx.log[|tx.log|].EnsuredRow? && step.tx.log[|tx.log|].table == table
          && step.tx.log[|tx.log|].id == step.result.value.id
          && |step.tx.store.parcelAddresses| == |tx.store.parcelAddresses|
          && |step.tx.store.humanParcels| == |tx.store.humanParcels|)
  }

  lemma CityStateZipStepLog(tx: Tx, m: Mailing)
    ensures LogsEnsure(tx, EnsureCityStateZipStep(tx, m.last.city, m.last.state, m.last.zip), CityStateZipTable)
  {
  }

  lemma StreetStepLog(tx: Tx, m: Mailing, cityStateZipId: nat)
    ensures LogsEnsure(tx, EnsureStreetStep(tx, cityStateZipId, m.delivery.street, m.delivery.isPobox), StreetTable)
  {
  }

  lemma AddressStepLog(tx: Tx, m: Mailing, streetId: nat)
    ensures LogsEnsure(tx, EnsureAddressStep(tx, streetId, m.delivery.number, m.delivery.attn, m.delivery.secondary),
                       AddressTable)
  {
  }

  /** Four calls appended one at a time are the four last entries of the log. */
  lemma AppendFour(l0: seq<Call>, l1: seq<Call>, l2: seq<Call>, l3: seq<Call>, l4: seq<Call>)
    requires |l1| == |l0| + 1 && l1[..|l0|] == l0
    requires |l2| == |l1| + 1 && l2[..|l1|] == l1
    requires |l3| == |l2| + 1 && l3[..|l2|] == l2
    requires |l4| == |l3| + 1 && l4[..|l3|] == l3
    ensures l0 <= l4 && l4[|l0|..] == [l1[|l0|], l2[|l1|], l3[|l2|], l4[|l3|]]
  {
    assert l4[..|l0|] == l0 by {
      assert l4[..|l2|] == l2;
      assert l4[..|l1|] == l1;
    }
  }

  /** A successful insertion of a mailing makes exactly the four calls of lines 70-74, after those already made. */
  lemma InsertMailingLog(tx: Tx, m: Mailing, parcel: Option<Keyed<Parcel>>, role: int)
    ensures var r := InsertMailing(tx, m, parcel, role);
      && tx.log <= r.tx.log
      && (r.result.Ok? ==> InsertMailingCalls(r.tx.log[|tx.log|..], r.result.value.0, |tx.store.parcelAddresses|))
  {
    if InsertMailing(tx, m, parcel, role).result.Ok? {
      InsertMailingLogOk(tx, m, parcel, role);
    } else {
      InsertMailingLogErr(tx, m, parcel, role);
    }
  }

  lemma InsertMailingLogOk(tx: Tx, m: Mailing, parcel: Option<Keyed<Parcel>>, role: int)
    requires InsertMailing(tx, m, parcel, role).result.Ok?
    ensures var r := InsertMailing(tx, m, parcel, role);
      tx.log <= r.tx.log && InsertMailingCalls(r.tx.log[|tx.log|..], r.result.value.0, |tx.store.parcelAddresses|)
  {
    var c := EnsureCityStateZipStep(tx, m.last.city, m.last.state, m.last.zip);
    var cid := c.result.value.id;
    var st := EnsureStreetStep(c.tx, cid, m.delivery.street, m.delivery.isPobox);
    var sid := st.result.value.id;
    var a := EnsureAddressStep(st.tx, sid, m.delivery.number, m.delivery.attn, m.delivery.secondary);
    var aid := a.result.value.id;
    var r := LinkParcelToAddressStep(a.tx, parcel.value.id, aid, role);
    assert InsertMailing(tx, m, parcel, role) == Step(Ok((aid, Reader.MailingOfRows(a.result.value.row, st.result.value.row, c.result.value.row))), r);
    CityStateZipStepLog(tx, m);
    StreetStepLog(c.tx, m, cid);
    AddressStepLog(st.tx, m, sid);
    AppendFour(tx.log, c.tx.log, st.tx.log, a.tx.log, r.log);
  }

  lemma InsertMailingLogErr(tx: Tx, m: Mailing, parcel: Option<Keyed<Parcel>>, role: int)
    requires InsertMailing(tx, m, parcel, role).result.Err?
    ensures tx.log <= InsertMailing(tx, m, parcel, role).tx.log
  {
    var c := EnsureCityStateZipStep(tx, m.last.city, m.last.state, m.last.zip);
    CityStateZipStepLog(tx, m);
    if c.result.Ok? {
      var cid := c.result.value.id;
      var st := EnsureStreetStep(c.tx, cid, m.delivery.street, m.delivery.isPobox);
      StreetStepLog(c.tx, m, cid);
      if st.result.Ok? {
        var sid := st.result.value.id;
        var a := EnsureAddressStep(st.tx, sid, m.delivery.number, m.delivery.attn, m.delivery.secondary);
        AddressStepLog(st.tx, m, sid);
        assert InsertMailing(tx, m, parcel, role).tx == a.tx;
        assert tx.log <= c.tx.log <= st.tx.log <= a.tx.log;
      }
    }
  }

  /** A successful insertion of an owner makes exactly the two calls of lines 105-106, after those already made. */
  lemma InsertOwnerLog(tx: Tx, o: Owner, parcel: Option<Keyed<Parcel>>, role: int)
    ensures var r := InsertOwner(tx, o, parcel, role);
      && tx.log <= r.tx.log
      && (r.result.Ok? ==> InsertOwnerCalls(r.tx.log[|tx.log|..], r.result.value.0, |tx.store.humanParcels|))
  {
  }

  /**
   * The address side's calls: none when the mailing is unchanged; otherwise the
   * retirements of lines 62-67 come first and, on success, the four calls of
   * lines 70-74 follow them and nothing else.
   */
  lemma {:induction false} SyncAddressLog(tx: Tx, county: Option<Mailing>, cog: CogTables, role: int)
    ensures var r := SyncAddress(tx, county, cog, role);
      var retired := RetireAddressChain(tx, cog);
      && tx.log <= r.tx.log
      && (county == Reader.Project(cog).mailing ==> r.tx.log == tx.log)
      && (county != Reader.Project(cog).mailing ==>
            && retired.log <= r.tx.log
            && (r.result.Ok? ==>
                  r.result.value.0.Some?
                  && InsertMailingCalls(r.tx.log[|retired.log|..], r.result.value.0.value, |tx.store.parcelAddresses|)))
  {
    var retired := RetireAddressChain(tx, cog);
    if county != Reader.Project(cog).mailing {
      if county.Some? {
      RetireAddressChainLengths(tx, cog);
      InsertMailingLog(RetireAddressChain(tx, cog), county.value, cog.parcel, role);
      }
      assert tx.log <= retired.log;
      PrefixThrough(tx.log, retired.log, SyncAddress(tx, county, cog, role).tx.log);
    }
  }

  /**
   * The human side's calls: none when the owner is unchanged; otherwise the
   * retirements of lines 96-104 come first and, on success, the two calls of
   * lines 105-106 follow them and nothing else.
   */
  lemma {:induction false} SyncHumanLog(tx: Tx, county: Option<Owner>, cog: CogTables, role: int)
    ensures var r := SyncHuman(tx, county, cog, role);
      var retired := RetireHumanChain(tx, cog);
      && tx.log <= r.tx.log
      && (county == Reader.Project(cog).owner ==> r.tx.log == tx.log)
      && (county != Reader.Project(cog).owner ==>
            && retired.log <= r.tx.log
            && (r.result.Ok? ==>
                  r.result.value.0.Some?
                  && InsertOwnerCalls(r.tx.log[|retired.log|..], r.result.value.0.value, |tx.store.humanParcels|)))
  {
    var retired := RetireHumanChain(tx, cog);
    if county != Reader.Project(cog).owner {
      if county.Some? {
      InsertOwnerLog(RetireHumanChain(tx, cog), county.value, cog.parcel, role);
      }
      assert tx.log <= retired.log;
      PrefixThrough(tx.log, retired.log, SyncHuman(tx, county, cog, role).tx.log);
    }
  }

  /**
   * `_sync_owner_and_mailing` makes its calls in source order and never takes
   * one back: the address side's, then the human side's, then, on success and
   * when either side changed, the one human/address link of line 114.
   */
  lemma {:induction false} ReconcileLog(tx: Tx, county: OwnerAndMailing, cog: CogTables, roles: RolePair)
    ensures var r := Reconcile(tx, county, cog, roles);
      var a := SyncAddress(tx, county.mailing, cog, roles.addressRole);
      var h := SyncHuman(a.tx, county.owner, cog, roles.addresseeRole);
      && tx.log <= a.tx.log && tx.log <= r.tx.log
      && (a.result.Err? ==> r.tx == a.tx)
      && (a.result.Ok? ==> a.tx.log <= h.tx.log)
      && (r.result.Ok? ==>
            && a.result.Ok? && h.result.Ok?
            && r.tx.log == h.tx.log + (if Changed(county, cog) then [Linked(HumanAddressTable, |tx.store.humanAddresses|)] else []))
  {
    var a := SyncAddress(tx, county.mailing, cog, roles.addressRole);
    var r := Reconcile(tx, county, cog, roles);
    SyncAddressLog(tx, county.mailing, cog, roles.addressRole);
    SyncHumanLog(a.tx, county.owner, cog, roles.addresseeRole);
    ReconcileSteps(tx, county, cog, roles);
    var h := SyncHuman(a.tx, county.owner, cog, roles.addresseeRole);
    if a.result.Ok? {
      PrefixThrough(tx.log, a.tx.log, h.tx.log);
      if h.result.Ok? {
        PrefixThrough(tx.log, h.tx.log, r.tx.log);
      }
    }
  }

  /** Calls made are never taken back: being a prefix is transitive. */
  lemma PrefixThrough(x: seq<Call>, y: seq<Call>, z: seq<Call>)
    requires x <= y && y <= z
    ensures x <= z
  {
    assert z[..|x|] == y[..|x|];
  }

  /** How `Reconcile` composes its two sides and the final link, as transactions. */
  lemma ReconcileSteps(tx: Tx, county: OwnerAndMailing, cog: CogTables, roles: RolePair)
    ensures var r := Reconcile(tx, county, cog, roles);
      var a := SyncAddress(tx, county.mailing, cog, roles.addressRole);
      var h := SyncHuman(a.tx, county.owner, cog, roles.addresseeRole);
      && (a.result.Err? ==> r.tx == a.tx)
      && (a.result.Ok? && h.result.Err? ==> r.tx == h.tx)
      && (r.result.Ok? ==>
            && a.result.Ok? && h.result.Ok?
            && r.tx.log == h.tx.log + (if Changed(county, cog) then [Linked(HumanAddressTable, |tx.store.humanAddresses|)] else []))
  {
    var a := SyncAddress(tx, county.mailing, cog, roles.addressRole);
    if a.result.Ok? {
      var h := SyncHuman(a.tx, county.owner, cog, roles.addresseeRole);
      if h.result.Ok? {
        SidesKeepHumanAddresses(tx, county, cog, roles);
      }
    }
  }

  lemma SidesKeepHumanAddresses(tx: Tx, county: OwnerAndMailing, cog: CogTables, roles: RolePair)
    requires SyncAddress(tx, county.mailing, cog, roles.addressRole).result.Ok?
    requires var a := SyncAddress(tx, county.mailing, cog, roles.addressRole);
      SyncHuman(a.tx, county.owner, cog, roles.addresseeRole).result.Ok?
    ensures var a := SyncAddress(tx, county.mailing, cog, roles.addressRole);
      |SyncHuman(a.tx, county.owner, cog, roles.addresseeRole).tx.store.humanAddresses| == |tx.store.humanAddresses|
  {
    var a := SyncAddress(tx, county.mailing, cog, roles.addressRole);
    SyncAddressWrites(tx, county.mailing, cog, roles.addressRole);
    SyncHumanWrites(a.tx, county.owner, cog, roles.addresseeRole);
  }
}
