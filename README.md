# SnapNForce parcel owner and mailing reconciliation, in Dafny

SnapNForce keeps a code-enforcement database of parcels. Each parcel has a
mailing address chain (parcel → address link, address, street, city/state/zip)
and an owner chain (human, human → parcel link, human → address link). These
exist once for the *general* role and once for the *mortgage* (tax) role.
`sync_parcel_data` does the following:

1. It takes what the county's web site currently says about a parcel:
   owners and mailing addresses, normalised from scraped HTML fragments by
   `owner_from_raw`, `mailing_from_raw_general` and `mailing_from_raw_tax`.
2. It reads the parcel's active chains from the database (`get_cog_tables`).
3. For each role, it compares the two (`_sync_owner_and_mailing`).
4. When the owner or the mailing differs, it deactivates the stored chain and
   writes the county's data through get-or-create ("ensure") helpers. It then
   links the new rows to the parcel and to each other.

The model has these parts:

- `Wrappers`: `Option`, `Result` and the exceptions that reach a caller.
- `Orm`: the tables, as append-only sequences. A row's primary key is its
  position, and `active` stands for `deactivatedts IS NULL`.
- `Schemas`: the value objects.
- `Normalize`: the normalisers.
- `Select`: every query of `app/operations/select.py`. Each is a filter over a
  table. All but two of them then take SQLAlchemy's `scalar_one`: no row raises
  `NoResultFound`, and two or more rows raise `MultipleResultsFound`.
  `parcel_mailing_addresses` returns every active link (`.all()`).
  `parcels_by_municode` returns every parcel of the municipality, retired or
  not (`.scalars()`).
- `Operations`: the get-or-create, deactivate and link primitives.
- `Reader`: the projection of stored rows to owner/mailing values, `_match_number`,
  and `get_cog_tables`, both as a specification function and as the loop the source runs.
- `Sync`: the reconciler. `Tx` is a database snapshot plus the log of writes
  issued, and `Step` is a returned value (or raised exception) paired with the
  `Tx` after the call. `Reconcile`, `SyncAll` and `SyncParcel` are
  specification functions. Class `Session` holds the store and log as mutable
  fields; its methods are the imperative code, each proved equal to its
  specification function.
- `ReconcileFacts`, `StoreInvariants` and `Scenarios`: what the reconciler
  writes, the store invariants it keeps, and end-to-end runs. One of those runs
  is the round trip "write the county's data, read it back, reconcile again →
  no write". The others are the cases where the next read breaks.

## Model

| member | source | states |
|---|---|---|
| Normalize.CleanTags | app/lib.py:225-226 | keeps exactly the text fragments (a string is in the result iff it was a text node in the input), never more items than the input |
| Normalize.CleanTagsAppend | app/lib.py:225-226 | filtering text nodes distributes over concatenation, so order is kept |
| Normalize.CleanWhitespace | app/lib.py:229-230 | collapsing whitespace runs never lengthens the text |
| Normalize.CleanWhitespaceRun | app/lib.py:229-230 | a leading whitespace run of any length, before a non-space or the end, becomes exactly one space |
| Normalize.CleanWhitespaceAppend | app/lib.py:229-230 | the collapse works run by run: after a non-space character, the collapse of a concatenation is the concatenation of the collapses |
| Normalize.CleanWhitespaceCollapsesRun | app/lib.py:229-230 | `re.sub(r"\s+", " ", ...)` as a rule: any maximal whitespace run between two texts becomes exactly one space, and the texts on both sides are collapsed independently |
| Normalize.CleanWhitespaceIsSingleSpaced | app/lib.py:229-230 | the result has no whitespace except single spaces |
| Normalize.CleanWhitespaceKeepsSingleSpaced | app/lib.py:229-230 | idempotence: already single-spaced text is returned unchanged |
| Normalize.CleanWhitespaceUnchangedIff | app/lib.py:229-230 | the text is unchanged iff it is already single-spaced (both directions) |
| Normalize.VisibleCleanWhitespace | app/lib.py:229-230 | collapsing whitespace keeps every non-whitespace character, in order |
| Normalize.TrimStart | app/lib.py:186 | `lstrip`: result is a suffix, everything dropped is whitespace, the result does not start with whitespace |
| Normalize.TrimEnd | app/lib.py:186 | `rstrip`: result is a prefix, everything dropped is whitespace, the result does not end with whitespace |
| Normalize.Strip | app/lib.py:186 | a non-empty stripped string starts and ends with a non-space |
| Normalize.VisibleStrip | app/lib.py:186 | stripping removes only whitespace |
| Normalize.VisibleJoinStripped | app/lib.py:186 | joining stripped names with " & " keeps every visible character of every name, separated by "&" |
| Normalize.OwnerFromRaw | app/lib.py:178-192 | the name is the whitespace-collapsed " & "-join of the stripped text fragments; it is single-spaced and carries every visible character of the fragments, joined by "&"; multi-entity iff more than one fragment or the joined name needed whitespace cleaning |
| Normalize.StripAllAt | app/lib.py:186 | the stripped list holds, at each position, that fragment stripped |
| Normalize.CleanWhitespaceJoin | app/lib.py:186-187 | collapsing a " & "-join of stripped non-empty names collapses each name on its own and keeps each separator as exactly " & " |
| Normalize.OwnerNameJoinsCollapsedNames | app/lib.py:178-192 | when no fragment strips to nothing, the owner name is the names, each stripped and with its inner whitespace runs collapsed to one space, joined by " & " |
| Normalize.MailingFromRawTax | app/lib.py:195-205 | no fragment gives None; three fragments give delivery line from the first and last line from the other two; any other count raises NotImplementedError (both directions) |
| Normalize.MailingFromRawGeneral | app/lib.py:208-222 | no fragment gives None; two give delivery and city/state/zip lines; three parse the second and third, with attention always the empty string; any other count raises RuntimeError (both directions) |
| Select.Where | app/operations/select.py:13-17 | the filter returns exactly the ids of the matching rows, in increasing order |
| Select.WhereCount | app/operations/select.py:13-17 | no id iff no row matches; two or more ids iff two distinct rows match |
| Select.SelectOne | app/operations/select.py:13-17 | `scalar_one`: Ok is the unique matching row; NoResultFound iff no row matches; MultipleResultsFound iff two rows match |
| Select.ParcelByCountyId | app/operations/select.py:13-17 | the unique active parcel with that county id; NoResultFound iff there is none; MultipleResultsFound iff two distinct active parcels carry that id |
| Select.ParcelMailingAddresses | app/operations/select.py:20-25 | exactly the active links of that parcel, in key order |
| Select.ParcelMailingAddressOf | app/operations/select.py:28-36 | the unique active link between that parcel and that address; NoResultFound iff none exists; MultipleResultsFound iff two exist |
| Select.AddressById | app/operations/select.py:39-44 | Ok iff the address exists and is active, and then it is that row; otherwise NoResultFound |
| Select.AddressByKey | app/operations/select.py:47-57 | the unique active address with those attributes; NoResultFound iff none; MultipleResultsFound iff two |
| Select.StreetById | app/operations/select.py:60-65 | Ok iff the street exists and is active; otherwise NoResultFound |
| Select.StreetByKey | app/operations/select.py:68-77 | the unique active street with those attributes; NoResultFound iff none; MultipleResultsFound iff two |
| Select.CityStateZipById | app/operations/select.py:80-85 | Ok iff the city/state/zip row exists and is active; otherwise NoResultFound |
| Select.CityStateZipByKey | app/operations/select.py:88-95 | the unique active city/state/zip row with those attributes; NoResultFound iff none; MultipleResultsFound iff two |
| Select.HumanMailingAddressOf | app/operations/select.py:98-103 | the unique active human link of that address; NoResultFound iff none; MultipleResultsFound iff two; no other error |
| Select.HumanById | app/operations/select.py:106-111 | Ok iff the human exists and is active; otherwise NoResultFound |
| Select.HumanByKey | app/operations/select.py:114-120 | the unique active human with that name and multi-entity flag; NoResultFound iff none; MultipleResultsFound iff two |
| Select.ParcelsByMunicode | app/operations/select.py:122-125 | exactly the parcels of that municipality (active or not), as `select_all_parcels_in_municode` at app/lib.py:276-277 returns them |
| Operations.EnsureCityStateZip | app/lib.py:70 | get-or-create: returns the existing active row when there is exactly one; appends a new one when there is none (created iff absent); raises MultipleResultsFound iff duplicates exist; nothing else changes |
| Operations.EnsureStreet | app/lib.py:71 | the same get-or-create contract for the street row |
| Operations.EnsureAddress | app/lib.py:72 | the same get-or-create contract for the address row |
| Operations.EnsureHuman | app/lib.py:105 | the same get-or-create contract for the human row |
| Operations.Deactivate | app/lib.py:62-67 | retiring a key of one of the four retirable tables (address, human, parcel → address link, human → address link) clears `active` on exactly that row, when it exists, and changes nothing else in the store |
| Reader.Project | app/lib.py:123-147 | owner is None iff no human row, otherwise its name and multi-entity flag; mailing is None iff the address tables are incomplete, otherwise assembled from the three rows |
| Reader.MailingOfKeyRows | app/lib.py:70-89 | a mailing written as canonical rows projects back to the same mailing |
| Reader.MatchNumber | app/lib.py:265-269 | None iff no chain has that role; otherwise the first chain with that role |
| Reader.HumanOfAddress | app/lib.py:243-247 | raises iff the address has two active human links (MultipleResultsFound); a unique link naming an active human gives that human and that link; no link, a NULL human id or a retired human gives (None, None), the caught NoResultFound |
| Reader.ReadChain | app/lib.py:239-256 | a chain read for one link carries that link and no parcel |
| Reader.ReadChainOutcome | app/lib.py:240-247 | the chain reads iff the linked address, its street and its city/state/zip are all active and the human lookup does not raise; a missing or retired row raises NoResultFound; two human links raise MultipleResultsFound; the human fields are the human lookup's |
| Reader.ReadChainRows | app/lib.py:239-256 | the chain is the address, street and city/state/zip selected by id in turn; a retired address raises NoResultFound |
| Reader.CollectSpec | app/lib.py:239-256 | the loop yields all chains iff every read succeeds, in link order; otherwise the first read's exception |
| Reader.ReadAllChains | app/lib.py:239-256 | one chain per active parcel link, in order, each carrying its link |
| Reader.ChosenChain | app/lib.py:257-261 | the chain chosen for a role is the first one whose link has that role, or the empty tables iff no link has it |
| Reader.CogTablesOf | app/lib.py:233-262 | no active parcel raises NoResultFound; on success both role chains carry the selected parcel |
| Reader.ReadAllOutcome | app/lib.py:239-256 | the loop succeeds iff every link's chain reads; otherwise it raises the error of the first link whose chain does not |
| Reader.CogTablesOfRead | app/lib.py:234-256 | `get_cog_tables` raises the parcel lookup's error when that fails, and otherwise succeeds iff the loop over the parcel's active links does, raising the loop's error |
| Reader.CogTablesOfOutcome | app/lib.py:234-256 | success iff the parcel is found and every one of its active links reads a whole chain; otherwise the parcel lookup's error or the first failing chain's |
| Reader.PickedForRole | app/lib.py:257-261 | the pick for a role is the chain read from the first active link with that role, or the empty tables iff no link has the role; either way with the parcel attached |
| Reader.CogTablesOfRoles | app/lib.py:257-262 | on success the general and the mortgage tables are each the chain read from the first active link of that role, or the empty tables iff the parcel has no link of that role, each with the parcel attached |
| Reader.GetCogTables | app/lib.py:233-262 | the loop over the parcel's links returns exactly `CogTablesOf` |
| Sync.RetireAddressChain | app/lib.py:58-67 | the deactivations issued are, in order, the parcel link, the human link and the address that are present; the parcel, street, city/state/zip, human and human-parcel tables are untouched |
| Sync.RetireHumanChain | app/lib.py:94-104 | the deactivations issued are, in order, the human-parcel link, the human link and the human that are present; the address-side tables are untouched |
| Sync.Session.constructor | app/lib.py:20 | a session starts on the given store with no write issued |
| Sync.Session.Retire | app/lib.py:62-67 | the deactivate primitive: store and log become `RetireStep` of the old state |
| Sync.Session.RetireHumanParcelRow | app/lib.py:96-97 | `deactivate.human_to_parcel` with a row: logged, no row changes |
| Sync.Session.EnsureCityStateZip | app/lib.py:70 | the new state and result are those of the get-or-create specification |
| Sync.Session.EnsureStreet | app/lib.py:71 | the new state and result are those of the get-or-create specification |
| Sync.Session.EnsureAddress | app/lib.py:72 | the new state and result are those of the get-or-create specification |
| Sync.Session.EnsureHuman | app/lib.py:105 | the new state and result are those of the get-or-create specification |
| Sync.Session.LinkParcelToAddress | app/lib.py:74 | appends an active parcel → address link and logs it |
| Sync.Session.LinkHumanToParcel | app/lib.py:106 | appends an active human → parcel link and logs it |
| Sync.Session.LinkHumanToAddress | app/lib.py:113-114 | appends an active human → address link and logs it |
| Sync.Session.DeactivateAddressChain | app/lib.py:58-67 | the new state is `RetireAddressChain` of the old one |
| Sync.Session.DeactivateHumanChain | app/lib.py:94-104 | the new state is `RetireHumanChain` of the old one |
| Sync.Session.InsertMailingRows | app/lib.py:69-89 | the new state and result are `InsertMailing` of the old state |
| Sync.Session.InsertOwnerRow | app/lib.py:105-111 | the new state and result are `InsertOwner` of the old state |
| Sync.Session.SyncOwnerAndMailing | app/lib.py:40-119 | the new state and result are `Reconcile` of the old state |
| Sync.Session.SyncParcelData | app/lib.py:20-37 | the new state and result are `SyncParcel` of the old state: read once, then reconcile general then mortgage |
| ReconcileFacts.UnchangedMakesNoCalls | app/lib.py:57-58 | when neither side differs, nothing is written or logged and the county data is returned |
| ReconcileFacts.MissingMailingRaisesAfterRetiring | app/lib.py:58-70 | a county mailing of None against a stored address retires that chain, then raises AttributeError |
| ReconcileFacts.InsertMailingWritesChain | app/lib.py:69-89 | on success the returned mailing is the county mailing, canonical rows for it exist at the returned address id, exactly one parcel link is appended, and the owner tables are untouched |
| ReconcileFacts.InsertOwnerWritesHuman | app/lib.py:105-111 | on success the returned owner is the county owner, its row exists at the returned id, exactly one human-parcel link is appended, and the address tables are untouched |
| ReconcileFacts.SyncAddressWrites | app/lib.py:55-89 | an unchanged mailing writes nothing and keeps the stored address id; a changed one writes the county mailing and appends one parcel link with the address role |
| ReconcileFacts.SyncHumanWrites | app/lib.py:91-111 | an unchanged owner writes nothing and keeps the stored human id; a changed one writes the county owner and appends one human-parcel link with the addressee role |
| ReconcileFacts.ReturnsCountyData | app/lib.py:116-119 | on success the value returned is the county data itself |
| ReconcileFacts.CrossLink | app/lib.py:113-114 | one human → address link is appended iff either side changed; it has the addressee role, is written last, and joins the new or the kept ids; other link tables grow by one exactly on their side's change |
| ReconcileFacts.OwnerWithoutHumanLinkIsRewritten | app/lib.py:91-111 | with no stored human, any county owner counts as a change and appends one human-parcel link, keeping the earlier links |
| ReconcileFacts.CrossLinkWithoutAddress | app/lib.py:55-114 | with no stored or county mailing, an owner change links the human to a NULL address |
| ReconcileFacts.RetireAddressChainRetiresAddress | app/lib.py:66-67 | the stored address row is inactive afterwards |
| ReconcileFacts.RetiringSharedAddressBreaksOtherReads | app/lib.py:66-67 | another parcel link to the retired address makes the next read raise NoResultFound |
| ReconcileFacts.SyncAllFilesByPair | app/lib.py:24-37 | results are filed under the role pair; when both roles share a pair, the general result is the mortgage one |
| ReconcileFacts.DeactivateKeepsLengths | app/lib.py:62-67 | a deactivation never adds or removes rows |
| ReconcileFacts.InsertMailingLog | app/lib.py:70-74 | a successful mailing insertion appends exactly four calls to the log: ensure city/state/zip, ensure street, ensure the address it returns, link the parcel (the link row's key is the next one); a failing one only appends |
| ReconcileFacts.InsertOwnerLog | app/lib.py:105-106 | a successful owner insertion appends exactly two calls: ensure the human it returns, then link it to the parcel |
| ReconcileFacts.SyncAddressLog | app/lib.py:55-89 | an unchanged mailing makes no call; a changed one first logs the retirements of `RetireAddressChain` and, on success, then exactly the four insertion calls and nothing else |
| ReconcileFacts.SyncHumanLog | app/lib.py:91-111 | an unchanged owner makes no call; a changed one first logs the retirements of `RetireHumanChain` and, on success, then exactly the two insertion calls and nothing else |
| ReconcileFacts.ReconcileLog | app/lib.py:40-119 | calls are never taken back; the address side's come first, then the human side's, and on success the log ends with the single human → address link iff either side changed |
| StoreInvariants.ReconcileEvolves | app/lib.py:40-119 | a reconcile keeps parcels, only appends canonical rows and human-parcel links, retires only the stored chain's rows, and keeps the store deduplicated |
| StoreInvariants.RetireAddressChainEvolves | app/lib.py:58-67 | retiring the address chain keeps the store invariant |
| StoreInvariants.RetireHumanChainEvolves | app/lib.py:94-104 | retiring the human chain keeps the store invariant |
| StoreInvariants.InsertMailingEvolves | app/lib.py:69-89 | writing a mailing keeps the store invariant |
| StoreInvariants.InsertOwnerEvolves | app/lib.py:105-111 | writing an owner keeps the store invariant |
| StoreInvariants.EnsuresSucceedOnDeduplicated | app/lib.py:70-105 | on a deduplicated store no get-or-create raises |
| StoreInvariants.ReconcileSucceeds | app/lib.py:40-119 | on a deduplicated store, with a stored parcel and county data present for each changed side, the reconcile succeeds |
| StoreInvariants.EvolvesTrans | app/lib.py:40-119 | the store invariant composes across successive writes |
| Scenarios.ReadBareParcel | app/lib.py:233-262 | a parcel with no links reads as empty tables carrying the parcel, for both roles |
| Scenarios.FirstReconcile | app/lib.py:40-119 | reconciling county data against a bare parcel writes exactly one chain of canonical rows and links |
| Scenarios.ReadWritten | app/lib.py:233-262 | that chain reads back as the county data |
| Scenarios.RoundTrip | app/lib.py:40-119 | for the general role pair: reconciling county data into a bare parcel succeeds; reading the parcel back projects to that same data; reconciling it again returns it, with no call made and the store unchanged |
| Scenarios.SecondReconcile | app/lib.py:40-119 | reconciling the same data for a second role reuses the canonical rows and adds only links |
| Scenarios.TwoHumanLinksBreakChain | app/lib.py:243-247 | two active human links on one address make the read raise MultipleResultsFound, which the handler does not catch |
| Scenarios.ReadWrittenTwice | app/lib.py:233-262 | after the same data is written for both roles, the next read raises MultipleResultsFound |
| Scenarios.SameDataForBothRolesBreaksNextRead | app/lib.py:20-37 | syncing equal general and mortgage data into a bare parcel succeeds, but the parcel then can no longer be read |

## Left out

- Scraping the county site (`get_parcel_data_from_county`, app/lib.py:154-175) is HTTP and HTML parsing. The county data is a parameter of `SyncParcel`.
- `lib.parse` is not part of this model. Its line parsers are total functions passed in through `LineParsers`.
- app/constants.py is not part of this model. The role numbers are the parameter `LinkedObjectRole`.
- Reader.Project: the mailing is built with the keywords `delivery_line=` and `last_line=` (app/lib.py:131, 138), while every other construction of a `Mailing` uses `delivery=` and `last=`. app/schemas.py is not part of this model, so the model takes both spellings to fill the same two fields; if the schema does not accept these keywords, the projection raises a validation error, and that is not modelled.
- app/schemas.py is only partly modelled: `has_address_tables` is taken to mean that the address, street and city/state/zip rows are all present.
- app/operations/ensure.py, deactivate.py and link.py are not part of this model. `ensure` is modelled as get-or-create over the `Select.*ByKey` queries, `deactivate` as clearing `active` on the row with that key, and `link` as appending an active link row.
- `deactivate.human_to_parcel` is called with a row object instead of an id (app/lib.py:97). It is modelled as logged but matching no row, so human-parcel links are never retired.
- Timestamps (`deactivatedts`) become the boolean `active`. Clocks are left out.
- Transactions, commit, rollback and concurrent sessions are left out. Every write is immediately visible to the next read in the same `Session`.
- SQL result order is taken to be primary-key order, so `parcel_mailing_addresses` and `_match_number` pick the lowest key.
- `_sync_owner_and_mailing` with `cog_tables` None (app/lib.py:59, 95) is left out, because its only caller always passes tables. `get_cog_tables` returning None tables (app/lib.py:236-237) cannot happen, because `select.parcel` raises first.
- Normalize.MailingFromRawGeneral: `re.sub` at app/lib.py:216 has its arguments swapped, so the attention line is always the empty string. The model gives `Some("")` and does not model the `re.error` raised when the first fragment, used as the replacement template, holds a bad backslash escape.
- Normalize.CleanTags: Beautiful Soup's `Comment` and other `NavigableString` subclasses are not distinguished from text.
- Normalize.IsSpace: the whitespace class is a fixed list of the characters Python's `str.strip` and `\s` treat as whitespace; it is not derived from a Unicode database.
- The polling loop and `sleep` in app/app.py, and the web endpoints, are left out.
