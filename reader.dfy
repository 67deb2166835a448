/**
 * The active-chain reader of app/lib.py: `get_cog_tables`, `_match_number`
 * and the projection `_cog_tables_to_owner_and_mailing`.
 */
module Reader {
  import opened Wrappers
  import opened Orm
  import opened Schemas
  import Select

  /** The field mapping from the address-side rows to a `Mailing`. */
  function MailingOfRows(a: MailingAddress, st: MailingStreet, c: MailingCityStateZip): Mailing
  {
    Mailing(
      DeliveryAddressLine(isPobox := st.pobox, attn := a.attention, number := a.bldgno,
                          street := st.name, secondary := a.secondary),
      LastLine(city := c.city, state := c.stateAbbr, zip := c.zipCode))
  }

  /** The rows an ensure call produces for a mailing map back to that mailing, whatever the keys. */
  lemma MailingOfKeyRows(m: Mailing, streetId: nat, cityStateZipId: nat)
    ensures MailingOfRows(
              MailingAddress(streetId, m.delivery.number, m.delivery.attn, m.delivery.secondary, true),
              MailingStreet(cityStateZipId, m.delivery.street, m.delivery.isPobox, true),
              MailingCityStateZip(m.last.city, m.last.state, m.last.zip, true)) == m
  {
  }

  function OwnerOfRow(h: Human): Owner
  {
    Owner(name := h.name, isMultiEntity := h.multihuman)
  }

  /** `_cog_tables_to_owner_and_mailing`: the chain in the scraped data's shape. */
  function Project(t: CogTables): (r: OwnerAndMailing)
    ensures r.owner.None? <==> t.human.None?
    ensures r.mailing.None? <==> !t.HasAddressTables()
    ensures r.owner.Some? ==> r.owner.value.name == t.human.value.row.name
                              && r.owner.value.isMultiEntity == t.human.value.row.multihuman
    ensures r.mailing.Some? ==>
              r.mailing.value == MailingOfRows(t.address.value.row, t.street.value.row, t.cityStateZip.value.row)
  {
    var owner := if t.human.None? then None else Some(OwnerOfRow(t.human.value.row));
    var mailing := if !t.HasAddressTables() then None
                   else Some(MailingOfRows(t.address.value.row, t.street.value.row, t.cityStateZip.value.row));
    OwnerAndMailing(owner, mailing)
  }

  /** The role of the parcel link a chain was read from. */
  function RoleOf(t: CogTables): int
    requires t.parcelAddress.Some?
  {
    t.parcelAddress.value.row.role
  }

  /** `_match_number`: the first chain whose parcel link has this role. */
  function MatchNumber(numToMatch: int, ownersAndMailings: seq<CogTables>): (r: Option<CogTables>)
    requires forall t :: t in ownersAndMailings ==> t.parcelAddress.Some?
    ensures r.None? <==> forall k :: 0 <= k < |ownersAndMailings| ==> RoleOf(ownersAndMailings[k]) != numToMatch
    ensures r.Some? ==> exists k :: 0 <= k < |ownersAndMailings| && ownersAndMailings[k] == r.value
                          && RoleOf(ownersAndMailings[k]) == numToMatch
                          && forall j :: 0 <= j < k ==> RoleOf(ownersAndMailings[j]) != numToMatch
  {
    if ownersAndMailings == [] then None
    else if RoleOf(ownersAndMailings[0]) == numToMatch then Some(ownersAndMailings[0])
    else
      var r := MatchNumber(numToMatch, ownersAndMailings[1..]);
      assert forall k :: 1 <= k < |ownersAndMailings| ==> ownersAndMailings[k] == ownersAndMailings[1..][k - 1];
      r
  }

  /** The link names a human (not NULL) whose row exists and is active. */
  predicate HasActiveHuman(s: Store, link: HumanMailingAddress)
  {
    link.humanId.Some? && link.humanId.value < |s.humans| && s.humans[link.humanId.value].active
  }

  /** The address, its street and its city/state/zip all exist and are active. */
  predicate AddressRowsActive(s: Store, addressId: nat)
  {
    && addressId < |s.addresses| && s.addresses[addressId].active
    && var streetId := s.addresses[addressId].streetId;
       && streetId < |s.streets| && s.streets[streetId].active
       && var cityStateZipId := s.streets[streetId].cityStateZipId;
          cityStateZipId < |s.cityStateZips| && s.cityStateZips[cityStateZipId].active
  }

  /**
   * Lines 243-247: the human linked to an address. A missing link or human
   * reads as no human; only NoResultFound is caught.
   */
  function HumanOfAddress(s: Store, addressId: nat): (r: Result<(Option<Keyed<Human>>, Option<Keyed<HumanMailingAddress>>)>)
    ensures r.Err? ==> r.error == MultipleResultsFound
    ensures r.Ok? ==> (r.value.0.Some? <==> r.value.1.Some?)
    ensures (forall i :: 0 <= i < |s.humanAddresses| ==>
               !(s.humanAddresses[i].addressId == Some(addressId) && s.humanAddresses[i].active))
            ==> r == Ok((None, None))
    ensures r.Ok? && r.value.1.Some? ==>
              r.value.1 == Select.HumanMailingAddressOf(s, addressId).ToOption()
              && r.value.1.value.row.humanId == Some(r.value.0.value.id)
              && r.value.0 == Select.HumanById(s, r.value.0.value.id).ToOption()
    ensures var link := Select.HumanMailingAddressOf(s, addressId);
      && (r.Err? <==> link == Err(MultipleResultsFound))
      && (link.Ok? && HasActiveHuman(s, link.value.row) ==>
            r == Ok((Some(Keyed(link.value.row.humanId.value, s.humans[link.value.row.humanId.value])), Some(link.value))))
      && (link.Ok? && !HasActiveHuman(s, link.value.row) ==> r == Ok((None, None)))
  {
    match Select.HumanMailingAddressOf(s, addressId)
    case Err(NoResultFound) => Ok((None, None))
    case Err(e) => Err(e)
    case Ok(humanAddress) =>
      var human := if humanAddress.row.humanId.None? then Err(NoResultFound)  // `humanid == None` matches no row
                   else Select.HumanById(s, humanAddress.row.humanId.value);
      match human
      case Ok(h) => Ok((Some(h), Some(humanAddress)))
      case Err(_) => Ok((None, None))
  }

  /** The body of the loop at lines 239-256: the chain behind one active parcel link. */
  function ReadChain(s: Store, parcelAddress: Keyed<ParcelMailingAddress>): (r: Result<CogTables>)
    ensures r.Ok? ==> r.value.parcel.None? && r.value.humanParcel.None? && r.value.parcelAddress == Some(parcelAddress)
  {
    match Select.AddressById(s, parcelAddress.row.addressId)
    case Err(e) => Err(e)
    case Ok(address) =>
      match Select.StreetById(s, address.row.streetId)
      case Err(e) => Err(e)
      case Ok(street) =>
        match Select.CityStateZipById(s, street.row.cityStateZipId)
        case Err(e) => Err(e)
        case Ok(cityStateZip) =>
          match HumanOfAddress(s, address.id)
          case Err(e) => Err(e)
          case Ok((human, humanAddress)) =>
            Ok(CogTables(
              parcel := None, parcelAddress := Some(parcelAddress), address := Some(address), street := Some(street),
              cityStateZip := Some(cityStateZip), human := human, humanAddress := humanAddress, humanParcel := None))
  }

  /**
   * Lines 240-247: a chain reads exactly when the linked address, its street and
   * its city/state/zip are all active and the human lookup does not raise; a
   * missing or retired row raises NoResultFound, a duplicated human link
   * MultipleResultsFound, and the human fields are what the human lookup found.
   */
  lemma ReadChainOutcome(s: Store, parcelAddress: Keyed<ParcelMailingAddress>)
    ensures var r := ReadChain(s, parcelAddress);
      var addressId := parcelAddress.row.addressId;
      && (r.Ok? <==> AddressRowsActive(s, addressId) && HumanOfAddress(s, addressId).Ok?)
      && (!AddressRowsActive(s, addressId) ==> r == Err(NoResultFound))
      && (AddressRowsActive(s, addressId) && HumanOfAddress(s, addressId).Err? ==> r == Err(MultipleResultsFound))
      && (r.Ok? ==> (r.value.human, r.value.humanAddress) == HumanOfAddress(s, addressId).value)
  {
    var address := Select.AddressById(s, parcelAddress.row.addressId);
    if address.Ok? {
      var street := Select.StreetById(s, address.value.row.streetId);
      if street.Ok? {
        var cityStateZip := Select.CityStateZipById(s, street.value.row.cityStateZipId);
        if cityStateZip.Ok? {
          assert AddressRowsActive(s, parcelAddress.row.addressId);
        } else {
          assert ReadChain(s, parcelAddress) == Err(NoResultFound);
        }
      } else {
        assert ReadChain(s, parcelAddress) == Err(NoResultFound);
      }
    } else {
      assert ReadChain(s, parcelAddress) == Err(NoResultFound);
    }
  }

  /**
   * A chain is read through active rows only: the linked address, its street and
   * its city/state/zip, each by key; a retired address raises NoResultFound, and
   * the human is present exactly when its address link is.
   */
  lemma ReadChainRows(s: Store, parcelAddress: Keyed<ParcelMailingAddress>)
    ensures var r := ReadChain(s, parcelAddress);
      && (r.Ok? ==> r.value.HasAddressTables()
                    && r.value.address == Select.AddressById(s, parcelAddress.row.addressId).ToOption()
                    && r.value.street == Select.StreetById(s, r.value.address.value.row.streetId).ToOption()
                    && r.value.cityStateZip
                       == Select.CityStateZipById(s, r.value.street.value.row.cityStateZipId).ToOption()
                    && (r.value.human.Some? <==> r.value.humanAddress.Some?))
      && (Select.AddressById(s, parcelAddress.row.addressId).Err? ==> r == Err(NoResultFound))
  {
  }

  /** Runs a sequence of reads in order: every value, or the first exception raised. */
  function Collect<T>(rs: seq<Result<T>>): Result<seq<T>>
  {
    if rs == [] then Ok([])
    else
      match rs[0]
      case Err(e) => Err(e)
      case Ok(t) =>
        match Collect(rs[1..])
        case Err(e) => Err(e)
        case Ok(ts) => Ok([t] + ts)
  }

  /** Collecting succeeds iff every read does, keeping their order; otherwise it raises the first error. */
  lemma {:induction false} CollectSpec<T>(rs: seq<Result<T>>)
    ensures var r := Collect(rs);
      && (r.Ok? <==> forall k :: 0 <= k < |rs| ==> rs[k].Ok?)
      && (r.Ok? ==> |r.value| == |rs| && forall k :: 0 <= k < |rs| ==> rs[k] == Ok(r.value[k]))
      && (r.Err? ==> exists k :: 0 <= k < |rs| && rs[k] == Err(r.error) && forall j :: 0 <= j < k ==> rs[j].Ok?)
  {
    if rs != [] {
      var rest := rs[1..];
      assert forall k :: 1 <= k < |rs| ==> rs[k] == rest[k - 1];
      CollectSpec(rest);
      var r := Collect(rs);
      if rs[0].Ok? && Collect(rest).Err? {
        var k :| 0 <= k < |rest| && rest[k] == Err(r.error) && forall j :: 0 <= j < k ==> rest[j].Ok?;
        assert rs[k + 1] == Err(r.error);
      }
    }
  }

  /** The chain read for each link, in order. */
  function ChainsOf(s: Store, parcelAddresses: seq<Keyed<ParcelMailingAddress>>): (r: seq<Result<CogTables>>)
    ensures |r| == |parcelAddresses|
  {
    seq(|parcelAddresses|, k requires 0 <= k < |parcelAddresses| => ReadChain(s, parcelAddresses[k]))
  }

  /** The loop at lines 239-256 as a whole. */
  function ReadAll(s: Store, parcelAddresses: seq<Keyed<ParcelMailingAddress>>): Result<seq<CogTables>>
  {
    Collect(ChainsOf(s, parcelAddresses))
  }

  /** Every chain the loop returns was read from a parcel link. */
  lemma ReadAllHasLinks(s: Store, parcelAddresses: seq<Keyed<ParcelMailingAddress>>)
    requires ReadAll(s, parcelAddresses).Ok?
    ensures forall t :: t in ReadAll(s, parcelAddresses).value ==> t.parcelAddress.Some?
  {
    var rs := ChainsOf(s, parcelAddresses);
    CollectSpec(rs);
    forall t | t in ReadAll(s, parcelAddresses).value ensures t.parcelAddress.Some? {
      var k :| 0 <= k < |rs| && ReadAll(s, parcelAddresses).value[k] == t;
      assert rs[k] == ReadChain(s, parcelAddresses[k]);
    }
  }

  function OrEmpty(t: Option<CogTables>): CogTables
  {
    match t
    case Some(tables) => tables
    case None => EmptyTables
  }

  /** `get_cog_tables` as a value: the active chain of each role, with the parcel attached to both. */
  function CogTablesOf(s: Store, parcelId: string, roles: LinkedObjectRole): (r: Result<CogGeneralAndMortgage>)
    ensures (forall i :: 0 <= i < |s.parcels| ==> !(s.parcels[i].countyId == parcelId && s.parcels[i].active))
            ==> r == Err(NoResultFound)
    ensures r.Ok? ==> Select.ParcelByCountyId(s, parcelId).Ok?
                      && r.value.general.parcel == Select.ParcelByCountyId(s, parcelId).ToOption()
                      && r.value.mortgage.parcel == r.value.general.parcel
  {
    match Select.ParcelByCountyId(s, parcelId)
    case Err(e) => Err(e)
    case Ok(parcel) =>
      var parcelAddresses := Select.ParcelMailingAddresses(s, parcel.id);
      match ReadAll(s, parcelAddresses)
      case Err(e) => Err(e)
      case Ok(allAddresses) =>
        ReadAllHasLinks(s, parcelAddresses);
        var general := OrEmpty(MatchNumber(roles.generalHumanMailingAddress, allAddresses));
        var mortgage := OrEmpty(MatchNumber(roles.mortgageHumanMailingAddress, allAddresses));
        Ok(CogGeneralAndMortgage(general.(parcel := Some(parcel)), mortgage.(parcel := Some(parcel))))
  }

  /** A successful read returns one chain per link, each read from that link. */
  lemma ReadAllChains(s: Store, links: seq<Keyed<ParcelMailingAddress>>)
    requires ReadAll(s, links).Ok?
    ensures var all := ReadAll(s, links).value;
      && |all| == |links|
      && forall k :: 0 <= k < |links| ==>
           ChainsOf(s, links)[k] == Ok(all[k]) && ReadChain(s, links[k]) == Ok(all[k])
           && all[k].parcelAddress == Some(links[k])
           && all[k].parcel.None? && all[k].humanParcel.None?
  {
    CollectSpec(ChainsOf(s, links));
  }

  /**
   * The chain picked for one role is the one read from the first parcel link of
   * that role, or the empty tables when the parcel has none; no chain ever
   * carries a parcel or a human/parcel link of its own.
   */
  lemma {:induction false} ChosenChain(all: seq<CogTables>, links: seq<Keyed<ParcelMailingAddress>>, num: int)
    requires |all| == |links|
    requires forall k :: 0 <= k < |all| ==>
               all[k].parcelAddress == Some(links[k]) && all[k].parcel.None? && all[k].humanParcel.None?
    ensures var t := OrEmpty(MatchNumber(num, all));
      && t.humanParcel.None? && t.parcel.None?
      && (t.parcelAddress.None? <==> forall k :: 0 <= k < |links| ==> links[k].row.role != num)
      && (t.parcelAddress.None? ==> t == EmptyTables)
      && (t.parcelAddress.Some? ==>
            exists k :: 0 <= k < |links| && links[k].row.role == num && all[k] == t
                        && forall j :: 0 <= j < k ==> links[j].row.role != num)
  {
    assert forall t :: t in all ==> t.parcelAddress.Some?;
    var m := MatchNumber(num, all);
    assert forall k :: 0 <= k < |links| ==> RoleOf(all[k]) == links[k].row.role;
    if m.Some? {
      var k :| 0 <= k < |all| && all[k] == m.value && RoleOf(all[k]) == num
               && forall j :: 0 <= j < k ==> RoleOf(all[j]) != num;
      assert links[k].row.role == num;
    }
  }

  /**
   * What `get_cog_tables` returns for one role: the chain read from the first
   * active parcel link of that role, or, when the parcel has no link of that
   * role, the empty tables; either way with the parcel attached.
   */
  predicate PicksFirstOfRole(s: Store, links: seq<Keyed<ParcelMailingAddress>>, num: int, p: Keyed<Parcel>, t: CogTables)
  {
    || (t == EmptyTables.(parcel := Some(p)) && forall k :: 0 <= k < |links| ==> links[k].row.role != num)
    || exists k :: 0 <= k < |links| && links[k].row.role == num && (forall j :: 0 <= j < k ==> links[j].row.role != num)
                   && ReadChain(s, links[k]).Ok? && t == ReadChain(s, links[k]).value.(parcel := Some(p))
  }

  /** Lines 257-260: each role gets the chain of its first link, or the empty tables when it has none. */
  lemma CogTablesOfRoles(s: Store, parcelId: string, roles: LinkedObjectRole)
    requires CogTablesOf(s, parcelId, roles).Ok?
    ensures var p := Select.ParcelByCountyId(s, parcelId).value;
      var links := Select.ParcelMailingAddresses(s, p.id);
      var r := CogTablesOf(s, parcelId, roles).value;
      && PicksFirstOfRole(s, links, roles.generalHumanMailingAddress, p, r.general)
      && PicksFirstOfRole(s, links, roles.mortgageHumanMailingAddress, p, r.mortgage)
  {
    var p := Select.ParcelByCountyId(s, parcelId).value;
    var links := Select.ParcelMailingAddresses(s, p.id);
    PickedForRole(s, links, roles.generalHumanMailingAddress, p);
    PickedForRole(s, links, roles.mortgageHumanMailingAddress, p);
  }

  /** One role's pick, as `PicksFirstOfRole` describes it. */
  lemma PickedForRole(s: Store, links: seq<Keyed<ParcelMailingAddress>>, num: int, p: Keyed<Parcel>)
    requires ReadAll(s, links).Ok?
    ensures (ReadAllHasLinks(s, links);
             PicksFirstOfRole(s, links, num, p, OrEmpty(MatchNumber(num, ReadAll(s, links).value)).(parcel := Some(p))))
  {
    var all := ReadAll(s, links).value;
    ReadAllChains(s, links);
    ReadAllHasLinks(s, links);
    ChosenChain(all, links, num);
    var t := OrEmpty(MatchNumber(num, all));
    if t.parcelAddress.Some? {
      var k :| 0 <= k < |links| && links[k].row.role == num && all[k] == t
               && forall j :: 0 <= j < k ==> links[j].row.role != num;
      PicksLink(s, links, num, p, k, t);
    }
  }

  /** A chain read from the first link of a role is that role's pick. */
  lemma PicksLink(s: Store, links: seq<Keyed<ParcelMailingAddress>>, num: int, p: Keyed<Parcel>, k: nat, t: CogTables)
    requires k < |links| && links[k].row.role == num && forall j :: 0 <= j < k ==> links[j].row.role != num
    requires ReadChain(s, links[k]) == Ok(t)
    ensures PicksFirstOfRole(s, links, num, p, t.(parcel := Some(p)))
  {
  }

  /**
   * Lines 234-256: `get_cog_tables` succeeds exactly when the parcel is found
   * and every one of its active links reads a whole chain; otherwise it raises
   * the parcel lookup's error or the first failing chain's.
   */
  lemma CogTablesOfOutcome(s: Store, parcelId: string, roles: LinkedObjectRole)
    ensures var parcel := Select.ParcelByCountyId(s, parcelId);
      var r := CogTablesOf(s, parcelId, roles);
      && (parcel.Err? ==> r == Err(parcel.error))
      && (parcel.Ok? ==>
            var links := Select.ParcelMailingAddresses(s, parcel.value.id);
            && (r.Ok? <==> forall k :: 0 <= k < |links| ==> ReadChain(s, links[k]).Ok?)
            && (r.Err? ==> exists k :: 0 <= k < |links| && ReadChain(s, links[k]) == Err(r.error)
                                       && forall j :: 0 <= j < k ==> ReadChain(s, links[j]).Ok?))
  {
    var parcel := Select.ParcelByCountyId(s, parcelId);
    CogTablesOfRead(s, parcelId, roles);
    if parcel.Ok? {
      ReadAllOutcome(s, Select.ParcelMailingAddresses(s, parcel.value.id));
    }
  }

  /** `get_cog_tables` fails exactly when the parcel lookup or the loop over its links raises. */
  lemma CogTablesOfRead(s: Store, parcelId: string, roles: LinkedObjectRole)
    ensures var parcel := Select.ParcelByCountyId(s, parcelId);
      var r := CogTablesOf(s, parcelId, roles);
      && (parcel.Err? ==> r == Err(parcel.error))
      && (parcel.Ok? ==>
            var all := ReadAll(s, Select.ParcelMailingAddresses(s, parcel.value.id));
            (r.Ok? <==> all.Ok?) && (all.Err? ==> r == Err(all.error)))
  {
  }

  /** The loop succeeds iff every chain reads, and otherwise raises the first failing chain's error. */
  lemma ReadAllOutcome(s: Store, links: seq<Keyed<ParcelMailingAddress>>)
    ensures var r := ReadAll(s, links);
      && (r.Ok? <==> forall k :: 0 <= k < |links| ==> ReadChain(s, links[k]).Ok?)
      && (r.Err? ==> exists k :: 0 <= k < |links| && ReadChain(s, links[k]) == Err(r.error)
                                 && forall j :: 0 <= j < k ==> ReadChain(s, links[j]).Ok?)
  {
    var chains := ChainsOf(s, links);
    CollectSpec(chains);
    assert forall k :: 0 <= k < |links| ==> chains[k] == ReadChain(s, links[k]);
  }

  /** Reads that all succeed collect to their values. */
  lemma {:induction false} CollectAllOk<T>(rs: seq<Result<T>>, ts: seq<T>)
    requires |rs| == |ts| && forall k :: 0 <= k < |rs| ==> rs[k] == Ok(ts[k])
    ensures Collect(rs) == Ok(ts)
  {
    if rs != [] {
      assert forall k :: 0 <= k < |rs[1..]| ==> rs[1..][k] == Ok(ts[1..][k]);
      CollectAllOk(rs[1..], ts[1..]);
      assert ts == [ts[0]] + ts[1..];
    }
  }

  /** The first failing read decides the collected error. */
  lemma {:induction false} CollectFirstErr<T>(rs: seq<Result<T>>, i: nat)
    requires i < |rs| && rs[i].Err? && forall j :: 0 <= j < i ==> rs[j].Ok?
    ensures Collect(rs) == Err(rs[i].error)
  {
    if i > 0 {
      assert forall j :: 0 <= j < i - 1 ==> rs[1..][j].Ok?;
      CollectFirstErr(rs[1..], i - 1);
    }
  }

  /** `get_cog_tables`: reads every active parcel link, then picks one chain per role. */
  method GetCogTables(s: Store, parcelId: string, roles: LinkedObjectRole) returns (r: Result<CogGeneralAndMortgage>)
    ensures r == CogTablesOf(s, parcelId, roles)
  {
    var parcel := Select.ParcelByCountyId(s, parcelId);
    if parcel.Err? {
      return Err(parcel.error);
    }
    var parcelAddresses := Select.ParcelMailingAddresses(s, parcel.value.id);
    ghost var chains := ChainsOf(s, parcelAddresses);
    var allAddresses: seq<CogTables> := [];
    var i := 0;
    while i < |parcelAddresses|
      invariant 0 <= i <= |parcelAddresses| && |allAddresses| == i
      invariant forall k :: 0 <= k < i ==> chains[k] == Ok(allAddresses[k])
    {
      var tables := ReadChain(s, parcelAddresses[i]);
      assert chains[i] == tables;
      if tables.Err? {
        CollectFirstErr(chains, i);
        return Err(tables.error);
      }
      allAddresses := allAddresses + [tables.value];
      i := i + 1;
    }
    CollectAllOk(chains, allAddresses);
    ReadAllHasLinks(s, parcelAddresses);
    var general := OrEmpty(MatchNumber(roles.generalHumanMailingAddress, allAddresses));
    var mortgage := OrEmpty(MatchNumber(roles.mortgageHumanMailingAddress, allAddresses));
    general := general.(parcel := Some(parcel.value));
    mortgage := mortgage.(parcel := Some(parcel.value));
    r := Ok(CogGeneralAndMortgage(general, mortgage));
  }
}
