/**
 * How a reconciliation may change the store: parcels never change, cities,
 * streets and human/parcel links are only appended, and a row of the other
 * tables is either kept or retired, and only the chain's own row is retired.
 * A store without duplicate active rows stays so, and on such a store no
 * ensure call raises.
 */
module StoreInvariants {
  import opened Wrappers
  import opened Orm
  import opened Schemas
  import opened Operations
  import Reader
  import opened Sync

  function AddressRetired(x: MailingAddress): MailingAddress { x.(active := false) }
  function HumanRetired(x: Human): Human { x.(active := false) }
  function ParcelAddressRetired(x: ParcelMailingAddress): ParcelMailingAddress { x.(active := false) }
  function HumanAddressRetired(x: HumanMailingAddress): HumanMailingAddress { x.(active := false) }

  /** `b` extends `a`; an old row is kept, or it is the row at `key` retired. */
  predicate Kept<T(==)>(a: seq<T>, b: seq<T>, key: Option<nat>, retired: T -> T)
  {
    |a| <= |b| && forall i :: 0 <= i < |a| ==> b[i] == a[i] || (key == Some(i) && b[i] == retired(a[i]))
  }

  /** The changes a reconciliation against `cog` may make, and that it keeps a deduplicated store deduplicated. */
  ghost predicate Evolves(a: Store, b: Store, cog: CogTables)
  {
    && b.parcels == a.parcels
    && a.cityStateZips <= b.cityStateZips && a.streets <= b.streets && a.humanParcels <= b.humanParcels
    && Kept(a.addresses, b.addresses, KeyOf(cog.address), AddressRetired)
    && Kept(a.humans, b.humans, KeyOf(cog.human), HumanRetired)
    && Kept(a.parcelAddresses, b.parcelAddresses, KeyOf(cog.parcelAddress), ParcelAddressRetired)
    && Kept(a.humanAddresses, b.humanAddresses, KeyOf(cog.humanAddress), HumanAddressRetired)
    && (Deduplicated(a) ==> Deduplicated(b))
  }

  // ---------------------------------------------------------------------------
  // Evolves is a preorder

  lemma KeptTrans<T>(a: seq<T>, b: seq<T>, c: seq<T>, key: Option<nat>, retired: T -> T)
    requires Kept(a, b, key, retired) && Kept(b, c, key, retired)
    requires forall x :: retired(retired(x)) == retired(x)
    ensures Kept(a, c, key, retired)
  {
    forall i | 0 <= i < |a| ensures c[i] == a[i] || (key == Some(i) && c[i] == retired(a[i])) {
      if b[i] != a[i] {
        assert retired(b[i]) == retired(a[i]);
      }
    }
  }

  lemma EvolvesRefl(a: Store, cog: CogTables)
    ensures Evolves(a, a, cog)
  {
  }

  lemma EvolvesTrans(a: Store, b: Store, c: Store, cog: CogTables)
    requires Evolves(a, b, cog) && Evolves(b, c, cog)
    ensures Evolves(a, c, cog)
  {
    KeptTrans(a.addresses, b.addresses, c.addresses, KeyOf(cog.address), AddressRetired);
    KeptTrans(a.humans, b.humans, c.humans, KeyOf(cog.human), HumanRetired);
    KeptTrans(a.parcelAddresses, b.parcelAddresses, c.parcelAddresses, KeyOf(cog.parcelAddress), ParcelAddressRetired);
    KeptTrans(a.humanAddresses, b.humanAddresses, c.humanAddresses, KeyOf(cog.humanAddress), HumanAddressRetired);
  }

  // ---------------------------------------------------------------------------
  // The primitives

  /** Retiring one row keeps a table free of duplicate active rows. */
  lemma RetireKeepsDistinct<T>(t: seq<T>, id: nat, retired: T -> T, active: T -> bool)
    requires id < |t| && !active(retired(t[id]))
    requires forall x :: active(x) ==> x != retired(t[id])
    requires forall i, j :: 0 <= i < j < |t| && active(t[i]) ==> t[i] != t[j]
    ensures var t' := t[id := retired(t[id])];
      forall i, j :: 0 <= i < j < |t'| && active(t'[i]) ==> t'[i] != t'[j]
  {
  }

  lemma {:induction false} RetireEvolves(s: Store, table: RetirableTable, id: nat, cog: CogTables)
    requires table == AddressTable ==> KeyOf(cog.address) == Some(id)
    requires table == HumanTable ==> KeyOf(cog.human) == Some(id)
    requires table == ParcelAddressTable ==> KeyOf(cog.parcelAddress) == Some(id)
    requires table == HumanAddressTable ==> KeyOf(cog.humanAddress) == Some(id)
    ensures Evolves(s, Deactivate(s, table, id), cog)
  {
    var r := Deactivate(s, table, id);
    if Deduplicated(s) {
      if table == AddressTable && id < |s.addresses| {
        RetireKeepsDistinct(s.addresses, id, AddressRetired, (x: MailingAddress) => x.active);
        assert r.addresses == s.addresses[id := AddressRetired(s.addresses[id])];
      } else if table == HumanTable && id < |s.humans| {
        RetireKeepsDistinct(s.humans, id, HumanRetired, (x: Human) => x.active);
        assert r.humans == s.humans[id := HumanRetired(s.humans[id])];
      }
    }
  }

  /** Appending a value that is not in a table keeps it free of duplicate active rows. */
  lemma AppendKeepsDistinct<T>(t: seq<T>, key: T, active: T -> bool)
    requires key !in t
    requires forall i, j :: 0 <= i < j < |t| && active(t[i]) ==> t[i] != t[j]
    ensures var t' := t + [key];
      forall i, j :: 0 <= i < j < |t'| && active(t'[i]) ==> t'[i] != t'[j]
  {
    var t' := t + [key];
    forall i, j | 0 <= i < j < |t'| && active(t'[i]) ensures t'[i] != t'[j] {
      if j == |t| {
        assert t'[i] == t[i];
      }
    }
  }

  lemma EnsureCityStateZipEvolves(s: Store, city: string, state: string, zip: string, cog: CogTables)
    ensures var r := EnsureCityStateZip(s, city, state, zip);
      r.Ok? ==> Evolves(s, r.value.store, cog)
  {
    var r := EnsureCityStateZip(s, city, state, zip);
    if r.Ok? && r.value.created && Deduplicated(s) {
      AppendKeepsDistinct(s.cityStateZips, r.value.row, (x: MailingCityStateZip) => x.active);
    }
  }

  lemma EnsureStreetEvolves(s: Store, cityStateZipId: nat, name: string, isPobox: bool, cog: CogTables)
    ensures var r := EnsureStreet(s, cityStateZipId, name, isPobox);
      r.Ok? ==> Evolves(s, r.value.store, cog)
  {
    var r := EnsureStreet(s, cityStateZipId, name, isPobox);
    if r.Ok? && r.value.created && Deduplicated(s) {
      AppendKeepsDistinct(s.streets, r.value.row, (x: MailingStreet) => x.active);
    }
  }

  lemma EnsureAddressEvolves(s: Store, streetId: nat, number: string, attn: Option<string>, secondary: Option<string>,
                             cog: CogTables)
    ensures var r := EnsureAddress(s, streetId, number, attn, secondary);
      r.Ok? ==> Evolves(s, r.value.store, cog)
  {
    var r := EnsureAddress(s, streetId, number, attn, secondary);
    if r.Ok? && r.value.created && Deduplicated(s) {
      AppendKeepsDistinct(s.addresses, r.value.row, (x: MailingAddress) => x.active);
    }
  }

  lemma EnsureHumanEvolves(s: Store, name: string, isMultiEntity: bool, cog: CogTables)
    ensures var r := EnsureHuman(s, name, isMultiEntity);
      r.Ok? ==> Evolves(s, r.value.store, cog)
  {
    var r := EnsureHuman(s, name, isMultiEntity);
    if r.Ok? && r.value.created && Deduplicated(s) {
      AppendKeepsDistinct(s.humans, r.value.row, (x: Human) => x.active);
    }
  }

  lemma LinkEvolves(tx: Tx, parcelKey: nat, humanId: Option<nat>, addressId: Option<nat>, role: int, cog: CogTables)
    ensures humanId.Some? ==> Evolves(tx.store, LinkHumanToParcelStep(tx, parcelKey, humanId.value, role).store, cog)
    ensures addressId.Some? ==> Evolves(tx.store, LinkParcelToAddressStep(tx, parcelKey, addressId.value, role).store, cog)
    ensures Evolves(tx.store, LinkHumanToAddressStep(tx, humanId, addressId, role).store, cog)
  {
  }

  lemma EnsureStepsEvolve(tx: Tx, m: Mailing, o: Owner, cityStateZipId: nat, streetId: nat, cog: CogTables)
    ensures Evolves(tx.store, EnsureCityStateZipStep(tx, m.last.city, m.last.state, m.last.zip).tx.store, cog)
    ensures Evolves(tx.store, EnsureStreetStep(tx, cityStateZipId, m.delivery.street, m.delivery.isPobox).tx.store, cog)
    ensures Evolves(tx.store, EnsureAddressStep(tx, streetId, m.delivery.number, m.delivery.attn, m.delivery.secondary).tx.store, cog)
    ensures Evolves(tx.store, EnsureHumanStep(tx, o.name, o.isMultiEntity).tx.store, cog)
  {
    EvolvesRefl(tx.store, cog);
    EnsureCityStateZipEvolves(tx.store, m.last.city, m.last.state, m.last.zip, cog);
    EnsureStreetEvolves(tx.store, cityStateZipId, m.delivery.street, m.delivery.isPobox, cog);
    EnsureAddressEvolves(tx.store, streetId, m.delivery.number, m.delivery.attn, m.delivery.secondary, cog);
    EnsureHumanEvolves(tx.store, o.name, o.isMultiEntity, cog);
  }

  // ---------------------------------------------------------------------------
  // The reconciliation, step by step

  lemma {:induction false} RetireAddressChainEvolves(tx: Tx, cog: CogTables)
    ensures Evolves(tx.store, RetireAddressChain(tx, cog).store, cog)
  {
    var t1 := if cog.parcelAddress.Some? then RetireStep(tx, ParcelAddressTable, cog.parcelAddress.value.id) else tx;
    var t2 := if cog.humanAddress.Some? then RetireStep(t1, HumanAddressTable, cog.humanAddress.value.id) else t1;
    var t3 := if cog.address.Some? then RetireStep(t2, AddressTable, cog.address.value.id) else t2;
    if cog.parcelAddress.Some? { RetireEvolves(tx.store, ParcelAddressTable, cog.parcelAddress.value.id, cog); }
    if cog.humanAddress.Some? { RetireEvolves(t1.store, HumanAddressTable, cog.humanAddress.value.id, cog); }
    if cog.address.Some? { RetireEvolves(t2.store, AddressTable, cog.address.value.id, cog); }
    EvolvesTrans(tx.store, t1.store, t2.store, cog);
    EvolvesTrans(tx.store, t2.store, t3.store, cog);
  }

  lemma {:induction false} RetireHumanChainEvolves(tx: Tx, cog: CogTables)
    ensures Evolves(tx.store, RetireHumanChain(tx, cog).store, cog)
  {
    var t1 := if cog.humanParcel.Some? then RetireHumanParcelRowStep(tx, cog.humanParcel.value) else tx;
    var t2 := if cog.humanAddress.Some? then RetireStep(t1, HumanAddressTable, cog.humanAddress.value.id) else t1;
    var t3 := if cog.human.Some? then RetireStep(t2, HumanTable, cog.human.value.id) else t2;
    if cog.humanAddress.Some? { RetireEvolves(t1.store, HumanAddressTable, cog.humanAddress.value.id, cog); }
    if cog.human.Some? { RetireEvolves(t2.store, HumanTable, cog.human.value.id, cog); }
    EvolvesTrans(tx.store, t1.store, t2.store, cog);
    EvolvesTrans(tx.store, t2.store, t3.store, cog);
  }

  lemma {:induction false} InsertMailingEvolves(tx: Tx, m: Mailing, parcel: Option<Keyed<Parcel>>, role: int, cog: CogTables)
    ensures Evolves(tx.store, InsertMailing(tx, m, parcel, role).tx.store, cog)
  {
    var o := Owner("", false);
    var c := EnsureCityStateZipStep(tx, m.last.city, m.last.state, m.last.zip);
    EnsureStepsEvolve(tx, m, o, 0, 0, cog);
    if c.result.Ok? {
      var cid := c.result.value.id;
      var st := EnsureStreetStep(c.tx, cid, m.delivery.street, m.delivery.isPobox);
      EnsureStepsEvolve(c.tx, m, o, cid, 0, cog);
      EvolvesTrans(tx.store, c.tx.store, st.tx.store, cog);
      if st.result.Ok? {
        var sid := st.result.value.id;
        var a := EnsureAddressStep(st.tx, sid, m.delivery.number, m.delivery.attn, m.delivery.secondary);
        EnsureStepsEvolve(st.tx, m, o, cid, sid, cog);
        EvolvesTrans(tx.store, st.tx.store, a.tx.store, cog);
        if a.result.Ok? && parcel.Some? {
          var l := LinkParcelToAddressStep(a.tx, parcel.value.id, a.result.value.id, role);
          LinkEvolves(a.tx, parcel.value.id, None, Some(a.result.value.id), role, cog);
          EvolvesTrans(tx.store, a.tx.store, l.store, cog);
          assert InsertMailing(tx, m, parcel, role).tx == l;
        } else {
          assert InsertMailing(tx, m, parcel, role).tx == a.tx;
        }
      } else {
        assert InsertMailing(tx, m, parcel, role).tx == st.tx;
      }
    } else {
      assert InsertMailing(tx, m, parcel, role).tx == c.tx;
    }
  }

  lemma {:induction false} InsertOwnerEvolves(tx: Tx, o: Owner, parcel: Option<Keyed<Parcel>>, role: int, cog: CogTables)
    ensures Evolves(tx.store, InsertOwner(tx, o, parcel, role).tx.store, cog)
  {
    var m := Mailing(DeliveryAddressLine(false, None, "", "", None), LastLine("", "", ""));
    var h := EnsureHumanStep(tx, o.name, o.isMultiEntity);
    EnsureStepsEvolve(tx, m, o, 0, 0, cog);
    if h.result.Ok? && parcel.Some? {
      var l := LinkHumanToParcelStep(h.tx, parcel.value.id, h.result.value.id, role);
      LinkEvolves(h.tx, parcel.value.id, Some(h.result.value.id), None, role, cog);
      EvolvesTrans(tx.store, h.tx.store, l.store, cog);
      assert InsertOwner(tx, o, parcel, role).tx == l;
    } else {
      assert InsertOwner(tx, o, parcel, role).tx == h.tx;
    }
  }

  lemma {:induction false} SyncAddressEvolves(tx: Tx, county: Option<Mailing>, cog: CogTables, role: int)
    ensures Evolves(tx.store, SyncAddress(tx, county, cog, role).tx.store, cog)
  {
    if county == Reader.Project(cog).mailing {
      EvolvesRefl(tx.store, cog);
    } else {
      var t1 := RetireAddressChain(tx, cog);
      RetireAddressChainEvolves(tx, cog);
      if county.Some? {
        InsertMailingEvolves(t1, county.value, cog.parcel, role, cog);
        EvolvesTrans(tx.store, t1.store, InsertMailing(t1, county.value, cog.parcel, role).tx.store, cog);
      }
    }
  }

  lemma {:induction false} SyncHumanEvolves(tx: Tx, county: Option<Owner>, cog: CogTables, role: int)
    ensures Evolves(tx.store, SyncHuman(tx, county, cog, role).tx.store, cog)
  {
    if county == Reader.Project(cog).owner {
      EvolvesRefl(tx.store, cog);
    } else {
      var t1 := RetireHumanChain(tx, cog);
      RetireHumanChainEvolves(tx, cog);
      if county.Some? {
        InsertOwnerEvolves(t1, county.value, cog.parcel, role, cog);
        EvolvesTrans(tx.store, t1.store, InsertOwner(t1, county.value, cog.parcel, role).tx.store, cog);
      }
    }
  }

  /**
   * Whatever it raises, `_sync_owner_and_mailing` leaves the store evolved:
   * parcels untouched, cities/states/zips, streets and human/parcel links only
   * appended, other rows kept or retired, and only the chain's own rows
   * retired; a store without duplicate active rows keeps none.
   */
  lemma {:induction false} ReconcileEvolves(tx: Tx, county: OwnerAndMailing, cog: CogTables, roles: RolePair)
    ensures Evolves(tx.store, Reconcile(tx, county, cog, roles).tx.store, cog)
  {
    var a := SyncAddress(tx, county.mailing, cog, roles.addressRole);
    SyncAddressEvolves(tx, county.mailing, cog, roles.addressRole);
    if a.result.Ok? {
      var h := SyncHuman(a.tx, county.owner, cog, roles.addresseeRole);
      SyncHumanEvolves(a.tx, county.owner, cog, roles.addresseeRole);
      EvolvesTrans(tx.store, a.tx.store, h.tx.store, cog);
      if h.result.Ok? && Changed(county, cog) {
        var l := LinkHumanToAddressStep(h.tx, h.result.value.0, a.result.value.0, roles.addresseeRole);
        LinkEvolves(h.tx, 0, h.result.value.0, a.result.value.0, roles.addresseeRole, cog);
        EvolvesTrans(tx.store, h.tx.store, l.store, cog);
      }
    }
  }

  // ---------------------------------------------------------------------------
  // No duplicates, no MultipleResultsFound

  /** A value that never repeats in a sequence occurs at most once in it. */
  lemma {:induction false} AtMostOnce<T>(rows: seq<T>, x: T)
    requires forall i, j :: 0 <= i < j < |rows| && rows[i] == x ==> rows[j] != x
    ensures multiset(rows)[x] <= 1
  {
    if rows != [] {
      var n := |rows| - 1;
      assert rows == rows[..n] + [rows[n]];
      AtMostOnce(rows[..n], x);
      if rows[n] == x {
        assert x !in rows[..n] by {
          forall i | 0 <= i < n ensures rows[..n][i] != x { assert rows[i] != rows[n]; }
        }
      }
    }
  }

  /** On a store without duplicate active rows every ensure call succeeds. */
  lemma EnsuresSucceedOnDeduplicated(s: Store, m: Mailing, o: Owner, cityStateZipId: nat, streetId: nat)
    requires Deduplicated(s)
    ensures EnsureCityStateZip(s, m.last.city, m.last.state, m.last.zip).Ok?
    ensures EnsureStreet(s, cityStateZipId, m.delivery.street, m.delivery.isPobox).Ok?
    ensures EnsureAddress(s, streetId, m.delivery.number, m.delivery.attn, m.delivery.secondary).Ok?
    ensures EnsureHuman(s, o.name, o.isMultiEntity).Ok?
  {
    AtMostOnce(s.cityStateZips, MailingCityStateZip(m.last.city, m.last.state, m.last.zip, true));
    AtMostOnce(s.streets, MailingStreet(cityStateZipId, m.delivery.street, m.delivery.isPobox, true));
    AtMostOnce(s.addresses, MailingAddress(streetId, m.delivery.number, m.delivery.attn, m.delivery.secondary, true));
    AtMostOnce(s.humans, Human(o.name, o.isMultiEntity, true));
  }

  /**
   * On a store without duplicate active rows, reconciling a chain that has its
   * parcel raises only when a side changed to None (lines 70 and 105).
   */
  lemma {:induction false} ReconcileSucceeds(tx: Tx, county: OwnerAndMailing, cog: CogTables, roles: RolePair)
    requires Deduplicated(tx.store) && cog.parcel.Some?
    requires county.mailing.Some? || county.mailing == Reader.Project(cog).mailing
    requires county.owner.Some? || county.owner == Reader.Project(cog).owner
    ensures Reconcile(tx, county, cog, roles).result.Ok?
  {
    var a := SyncAddress(tx, county.mailing, cog, roles.addressRole);
    if county.mailing != Reader.Project(cog).mailing {
      var m := county.mailing.value;
      var t1 := RetireAddressChain(tx, cog);
      RetireAddressChainEvolves(tx, cog);
      EnsuresSucceedOnDeduplicated(t1.store, m, Owner("", false), 0, 0);
      var c := EnsureCityStateZip(t1.store, m.last.city, m.last.state, m.last.zip).value;
      EnsureCityStateZipEvolves(t1.store, m.last.city, m.last.state, m.last.zip, cog);
      EnsuresSucceedOnDeduplicated(c.store, m, Owner("", false), c.id, 0);
      var st := EnsureStreet(c.store, c.id, m.delivery.street, m.delivery.isPobox).value;
      EnsureStreetEvolves(c.store, c.id, m.delivery.street, m.delivery.isPobox, cog);
      EnsuresSucceedOnDeduplicated(st.store, m, Owner("", false), c.id, st.id);
      assert a.result.Ok?;
      InsertMailingEvolves(t1, m, cog.parcel, roles.addressRole, cog);
      EvolvesTrans(tx.store, t1.store, a.tx.store, cog);
    }
    if county.owner != Reader.Project(cog).owner {
      var o := county.owner.value;
      var t2 := RetireHumanChain(a.tx, cog);
      RetireHumanChainEvolves(a.tx, cog);
      EnsuresSucceedOnDeduplicated(t2.store, Mailing(DeliveryAddressLine(false, None, "", "", None), LastLine("", "", "")), o, 0, 0);
    }
  }
}
