# Business aggregation store, modelled in Dafny

This project models the deduplicating aggregation store of the business
crawler: the `DataAggregator` class in `business_crawler.py` and the
`Business` record it stores. Several source adapters (OpenStreetMap,
Foursquare, Yelp, the Companies House registry) hand records to
`add_business` together with a provenance tag such as `osm_123` or
`companies_house_01234567`. The store then does one of three things:

- **Replace.** The record's rounded coordinates already point at a record
  from the company registry, and the new tag is not a registry tag. The
  registry record is deleted and the new record takes its place.
- **Merge.** A record with the same identity key exists (lower-cased,
  stripped name plus the first twenty address characters, lower-cased).
  The two records are merged field by field, and open sources win over the
  registry for the name and the category.
- **Insert.** Otherwise the record is stored as new and its location is
  indexed.

The project has these files:

- `records.dfy` is the `Business` record, plus Python truthiness for its
  optional fields.
- `text.dfy` models the string operations the keys use: `lower()`,
  `strip()`, slicing and substring search.
- `aggregator.dfy` holds the rest of the store:
  - the identity and location keys;
  - the source-tier test;
  - the merge, as a function (`Merged`) and as the step-by-step method of
    the source;
  - the store as a value (`Store`, specified by `Ingest`);
  - the `DataAggregator` class, whose `AddBusiness` is proved to match
    `Ingest`.
- `properties.dfy` holds what the store promises, proved about `Ingest`
  and `Merged`.
- `sic.dfy` is the Standard Industrial Classification code to category
  table the registry adapter uses.

Python's `dict` keeps its keys in insertion order. The model therefore
stores the dictionary `businesses` as a map plus a sequence of its keys, so
`get_all_businesses` returns records in the order Python would.

A lookup at `business_crawler.py:79` can raise `KeyError`: the location
index may still name a key that a replacement has deleted. This is an
explicit outcome in the model. `AddBusiness` returns the error and leaves
the store unchanged. `Ingest` returns `Failure(KeyError(key))`.

The clock (`datetime.now().isoformat()`) is a parameter, `now`.

## Model

| member | source | states |
|---|---|---|
| PyText.LowerChar | business_crawler.py:109 | `lower()` on one character: ASCII capitals to small letters, all else unchanged; used through `Lower` and its lemmas |
| PyText.IsSpace | business_crawler.py:109 | the characters `str.strip()` removes (Python's `isspace` set); used by the `strip()` lemmas |
| PyText.TrimStart | business_crawler.py:109 | `lstrip()`; characterized by TrimStartSpec and TrimStartSkipsSpace |
| PyText.TrimEnd | business_crawler.py:109 | `rstrip()`; characterized by TrimEndSpec and TrimEndSkipsSpace |
| PyText.Strip | business_crawler.py:109 | `strip()`; characterized by StripSpec, StripIgnoresTrailingSpace and StripIgnoresPadding |
| PyText.Contains | business_crawler.py:124 | the substring test `in`; characterized by ContainsIff |
| Records.Business | business_crawler.py:17-30 | the record the store holds: name, address and the nine optional fields, with `None` as `Option.None` |
| Records.TruthyReal | business_crawler.py:113 | Python truthiness of an optional number: present and non-zero; used by LocationKeyAbsent and the merge lemmas |
| Records.TruthyText | business_crawler.py:144-167 | Python truthiness of an optional text: present and non-empty; used by the merge lemmas |
| Records.TruthyHours | business_crawler.py:157 | Python truthiness of the optional hours mapping: present and non-empty; used by MergeFillsOnlyMissing |
| Records.TruthyList | business_crawler.py:122 | Python truthiness of the optional tag list: present and non-empty; used by NoSourcesIsOpenTier |
| Records.Provenance | business_crawler.py:171-174 | the tag list a merge appends to, `[]` when there is none; used by MergeProvenance |
| Aggregator.GenerateKey | business_crawler.py:106-109 | the identity key; characterized by KeyIgnoresNameCaseAndPadding, KeyIgnoresAddressCase and KeyIgnoresAddressTail |
| Aggregator.Round5 | business_crawler.py:115-116 | `round(x, 5)` in units of 1e-5, through RoundHalfEven; examples in RoundingExamples |
| Aggregator.GenerateLocationKey | business_crawler.py:111-118 | the location key; characterized by LocationKeyAbsent and LocationKeysCollide |
| Aggregator.MentionsCompaniesHouse | business_crawler.py:124 | one tag names the registry; characterized by CompaniesHouseTagMentions and, through AnyCompaniesHouse, RegistryTierIff |
| Aggregator.IsCompaniesHouseSource | business_crawler.py:120-124 | the registry-tier test; characterized by NoSourcesIsOpenTier, RegistryTierIff, RegistryTierIgnoresCase and RegistryTierAppend |
| Aggregator.Merged | business_crawler.py:126-178 | the merge rules; stated by MergeNameAndCategory, MergeFillsOnlyMissing, MergeRating, RatingMeanIsPairwise and MergeProvenance |
| Aggregator.Store | business_crawler.py:64-66 | the aggregator's two dictionaries, `businesses` and `location_index`, as one value; `order` is the insertion order Python's `dict` keeps for the keys of `businesses` |
| Aggregator.WellFormed | business_crawler.py:64-104 | the invariant behind `DataAggregator.Valid()`: the key order lists each stored key once, and every stored record has a non-empty tag list; kept by AssignWellFormed, DeleteWellFormed, IngestWellFormed and IngestAllWellFormed |
| Aggregator.LocationKey | business_crawler.py:117 | the location key `f"{lat}_{lng}"` as the pair of rounded coordinates in units of 1e-5 |
| Aggregator.KeyError | business_crawler.py:79 | the `KeyError` raised by `self.businesses[existing_key]`, carrying the missing key |
| SicCategory.Divisions | business_crawler.py:374-383 | the `sic_mapping` table from two-digit division to category |
| Aggregator.Assign | business_crawler.py:86 | `d[k] = v` on the store value; AssignWellFormed shows it keeps the store well formed |
| Aggregator.Delete | business_crawler.py:83 | `del d[k]` on the store value; DeleteWellFormed shows it keeps the store well formed |
| Aggregator.Index | business_crawler.py:87 | `location_index[l] = k` on the store value; the ingest lemmas state its effect on the index |
| Aggregator.Stamped | business_crawler.py:84-85 | the record as stored on insert or replacement, with provenance `[source]` and the time stamp; used by IngestInsertsFresh and IngestReplacesRegistryOccupant |
| Aggregator.Dangling | business_crawler.py:74-79 | the state in which the lookup at line 79 raises; IngestFailsOnlyOnDanglingEntry shows it is the only failure |
| Aggregator.Replaces | business_crawler.py:74-80 | the condition for the co-location replacement; IngestReplacesRegistryOccupant states its outcome |
| Aggregator.Ingest | business_crawler.py:68-104 | `add_business` on a store value; its outcomes are stated by IngestFailsOnlyOnDanglingEntry, IngestInsertsFresh, IngestReplacesRegistryOccupant, IngestMergesSameKey and IngestWellFormed, and AddBusiness is proved to match it |
| AggregatorProperties.IngestAll | business_crawler.py:68-104 | a sequence of `add_business` calls that stops at the first `KeyError`; characterized by IngestAllWellFormed, IngestAllDistinctCount and IngestAllOpenMixCount |
| AggregatorProperties.FreshKeepsIndexOpenTier | business_crawler.py:97-104 | a fresh record without a location, or from an open source, keeps every index entry on a stored open-tier record |
| AggregatorProperties.IngestAllOpenMixCount | business_crawler.py:68-104 | while no registry record holds a location, a run of registry records without coordinates and open records with them, all with distinct new identity keys, never raises and adds one record each |
| PyText.Lower | business_crawler.py:109 | `lower()` keeps the length of the string |
| PyText.LowerAt | business_crawler.py:109 | `lower()` maps each character on its own, so character i of the result is the lowered character i |
| PyText.LowerOfLowercase | business_crawler.py:109 | a string with no upper-case letter is its own lower-case form |
| PyText.LowerConcat | business_crawler.py:109 | lowering distributes over concatenation |
| PyText.LowerKeepsSpace | business_crawler.py:109 | lowering whitespace gives whitespace |
| PyText.LowerPrefix | business_crawler.py:109 | `s[:n].lower()` equals `s.lower()[:n]` |
| PyText.Prefix | business_crawler.py:109 | `s[:n]` has length min(n, len(s)) and is a prefix of `s` |
| PyText.TrimStartSpec | business_crawler.py:109 | `lstrip` returns a suffix; what it dropped is all whitespace; what it keeps does not start with whitespace |
| PyText.TrimEndSpec | business_crawler.py:109 | `rstrip` returns a prefix; what it dropped is all whitespace; what it keeps does not end with whitespace |
| PyText.StripSpec | business_crawler.py:109 | `strip()` returns an infix; the text dropped on both sides is whitespace; the result neither starts nor ends with whitespace |
| PyText.TrimStartSkipsSpace | business_crawler.py:109 | leading whitespace never reaches the result of `lstrip` |
| PyText.TrimEndSkipsSpace | business_crawler.py:109 | trailing whitespace never reaches the result of `rstrip` |
| PyText.StripIgnoresTrailingSpace | business_crawler.py:109 | appending whitespace does not change `strip()` |
| PyText.StripIgnoresPadding | business_crawler.py:109 | whitespace added on either side does not change `strip()` |
| PyText.ContainsIff | business_crawler.py:124 | the substring test `needle in hay` holds iff the needle occurs at some index of the haystack |
| AggregatorProperties.KeyIgnoresNameCaseAndPadding | business_crawler.py:106-109 | the identity key is unchanged when the name differs only in case or surrounding whitespace |
| AggregatorProperties.KeyIgnoresAddressCase | business_crawler.py:106-109 | the identity key is unchanged when the address differs only in case |
| AggregatorProperties.KeySeparatorIsAmbiguous | business_crawler.py:109 | the identity key is not injective: name `a` with address `b_c` and name `a_b` with address `c` share the key `a_b_c` |
| AggregatorProperties.KeyIgnoresAddressTail | business_crawler.py:106-109 | address characters after the twentieth never change the identity key |
| Aggregator.RoundHalfEven | business_crawler.py:115-116 | `round()` gives the nearest integer, and a tie goes to the even one |
| AggregatorProperties.RoundingExamples | business_crawler.py:115-116 | coordinates rounded at the fifth decimal; exact binary ties (1/64, 3/64) go to the even neighbour, as Python's `round` does |
| AggregatorProperties.LocationKeyAbsent | business_crawler.py:111-118 | there is no location key iff a coordinate is missing or zero (zero is falsy) |
| AggregatorProperties.LocationKeysCollide | business_crawler.py:113-117 | two located records share a location key iff both rounded coordinates agree |
| Aggregator.AnyCompaniesHouse | business_crawler.py:124 | `any(...)` over the tags holds iff some tag, lower-cased, contains `companies_house` |
| AggregatorProperties.NoSourcesIsOpenTier | business_crawler.py:122-123 | a missing or empty tag list is never registry tier |
| AggregatorProperties.RegistryTierIff | business_crawler.py:120-124 | a tag list is registry tier iff some lower-cased tag contains `companies_house` at some position |
| AggregatorProperties.RegistryTierFromOccurrence | business_crawler.py:120-124 | an occurrence of the marker in some lower-cased tag makes the list registry tier |
| AggregatorProperties.OccurrenceFromRegistryTier | business_crawler.py:120-124 | a registry-tier list has a lower-cased tag with the marker at some position |
| AggregatorProperties.RegistryTierIgnoresCase | business_crawler.py:124 | two tag lists that agree up to letter case have the same tier |
| AggregatorProperties.CompaniesHousePrefixIsLowercase | business_crawler.py:359 | the registry adapter's tag prefix is already lower case |
| AggregatorProperties.CompaniesHouseTagMentions | business_crawler.py:124 | the tag `companies_house_<number>` mentions the registry, whatever the number |
| AggregatorProperties.CompaniesHouseTagIsRegistry | business_crawler.py:359 | the one-tag list the registry adapter submits is registry tier, for every company number |
| AggregatorProperties.RegistryTierAppend | business_crawler.py:171-172 | appending a tag makes a list registry tier iff the list already was or the tag is |
| AggregatorProperties.MergeNameAndCategory | business_crawler.py:134-155 | a registry record takes a non-empty name and category from an open source; otherwise the name stays and the category is only filled when missing |
| AggregatorProperties.MergeFillsOnlyMissing | business_crawler.py:150-168 | coordinates, hours and price are set only when the stored value is falsy; both coordinates are copied on the latitude test alone; address and description never change |
| AggregatorProperties.MergeRating | business_crawler.py:160-165 | with both ratings present the result is their mean; a missing stored rating is replaced; a falsy incoming rating changes nothing |
| AggregatorProperties.RatingMeanIsPairwise | business_crawler.py:160-165 | ratings 4, 5, 3 merged in turn give 3.75, not the mean 4 of all three |
| AggregatorProperties.MergeProvenance | business_crawler.py:170-176 | provenance gains exactly the new tag at its end; the record is stamped; it is registry tier afterwards iff it was before or the tag is |
| Aggregator.DataAggregator.MergeBusinessData | business_crawler.py:126-178 | the in-place, field-by-field merge, where later tests read fields already written, yields exactly `Merged` |
| Aggregator.Without | business_crawler.py:83 | `del` removes the key from the key order, keeps every other key, and keeps the keys distinct; its order is characterized by WithoutAt and WithoutAbsent |
| Aggregator.WithoutAt | business_crawler.py:83 | `del d[k]` cuts `k` out of the key order at its position, and every other key keeps its relative order |
| Aggregator.WithoutAbsent | business_crawler.py:83 | removing a key the order does not hold leaves the order unchanged |
| Aggregator.AssignWellFormed | business_crawler.py:86 | storing a record with non-empty provenance keeps the store well formed |
| Aggregator.DeleteWellFormed | business_crawler.py:83 | deleting a key keeps the store well formed |
| Aggregator.IngestWellFormed | business_crawler.py:68-104 | every successful `add_business` keeps the key order in step with the dictionary and every record's provenance non-empty |
| Aggregator.OrderCount | business_crawler.py:182 | a duplicate-free key order that lists exactly the dictionary's keys is as long as the dictionary |
| AggregatorProperties.IngestFailsOnlyOnDanglingEntry | business_crawler.py:74-79 | `add_business` raises iff the record's location is indexed under a key the store no longer holds; it never raises while every index entry is live |
| AggregatorProperties.IngestInsertsFresh | business_crawler.py:97-104 | a new identity key adds exactly one record, last in order, with provenance `[source]`; other records stay; the location is indexed to the new key |
| AggregatorProperties.IngestReplacesRegistryOccupant | business_crawler.py:74-88 | the registry occupant is removed and the record is stored unmerged with provenance `[source]`; it takes the location; no other record or index entry changes; the store never grows; the key order loses the occupant and gains the incoming key at the end unless that key was already held by another record |
| AggregatorProperties.IngestMergesSameKey | business_crawler.py:90-96 | merging keeps the keys, their order and the index; the record becomes the merge, whose provenance gains `source`; other records stay |
| AggregatorProperties.IngestKeepsIndexComplete | business_crawler.py:90-104 | an ingest that does not replace succeeds and keeps every index entry pointing at a stored record |
| AggregatorProperties.ReplacementLeavesDanglingEntry | business_crawler.py:79-87 | a replacement whose occupant was also indexed at a second location leaves that entry dangling, and the next record there raises `KeyError` |
| AggregatorProperties.NeverReplacesIsNoConflict | business_crawler.py:74-80 | a record without coordinates, or one from a registry tag, never triggers the replacement |
| AggregatorProperties.IngestAllWellFormed | business_crawler.py:68-104 | any run of `add_business` calls that does not raise leaves a well-formed store |
| AggregatorProperties.IngestAllDistinctCount | business_crawler.py:90-104 | records with pairwise distinct new identity keys that cannot replace anything each add exactly one record |
| AggregatorProperties.SameIdentityMergesOnce | business_crawler.py:90-100 | two records with one identity key give one canonical record whose provenance is the two tags in order |
| Aggregator.DataAggregator.constructor | business_crawler.py:64-66 | both dictionaries start empty, and no records are listed |
| Aggregator.DataAggregator.PutBusiness | business_crawler.py:86 | `businesses[key] = value`: a new key goes last in the order, an existing key keeps its place |
| Aggregator.DataAggregator.DeleteBusiness | business_crawler.py:83 | `del businesses[key]` removes the key and its place in the order |
| Aggregator.DataAggregator.IndexLocation | business_crawler.py:87 | `location_index[location] = key` changes only that entry |
| Aggregator.DataAggregator.AddBusiness | business_crawler.py:68-104 | the in-place update takes the store to exactly the state `Ingest` describes, or returns the `KeyError` and leaves the store unchanged; the store stays well formed |
| Aggregator.DataAggregator.GetAllBusinesses | business_crawler.py:180-182 | each stored record is listed once, in key insertion order, and nothing else is listed |
| SicCategory.Division | business_crawler.py:385 | `sic_code[:2]` is the first two characters, or the whole code when it is shorter |
| SicCategory.MapSicToCategory | business_crawler.py:372-386 | the category is one of the table's categories or `Business` |
| SicCategory.DivisionsAreTwoLong | business_crawler.py:374-383 | every division in the table is two characters long |
| SicCategory.ShortCodeIsDefault | business_crawler.py:385-386 | a code shorter than two characters gets `Business` |
| SicCategory.CategoryDependsOnDivision | business_crawler.py:385-386 | only the first two characters decide the category |
| SicCategory.CategoriesAreDistinct | business_crawler.py:374-383 | no two divisions share a category |
| SicCategory.MapSicToCategoryIff | business_crawler.py:372-386 | a code gets a table category iff it starts with that category's division |
| SicCategory.RestaurantExample | business_crawler.py:372-386 | `56101` is a restaurant; an unknown or one-digit code gets `Business` |

## Left out

- I/O is left out. This covers the console messages, the crawlers that call the store, HTTP, rate limiting and `asyncio`. It also covers the JSON export (`export_to_json`), the database writes, and everything in `init_crawler.py` and `scheduler.py`. These sit around the store and do not change what it holds.
- `RobotsTxtChecker`, the adapters' field extraction and the AI description generator are not part of this model. They feed the store records; they are not the store.
- Aggregator.DataAggregator.AddBusiness: `name` and `address` are typed as strings. In Python, a `None` name raises `AttributeError` at `business_crawler.py:109` (`name.lower()`), and a `None` address raises `TypeError` there (`address[:20]`). Both are raised before the store changes. The adapters can pass `None`, because they read the name with `.get(...)` (354, 531, 605). The model has no such input and therefore no such failure.
- Aggregator.DataAggregator.AddBusiness: the source mutates the caller's `Business` object and stores that very object, so the stored record is the object first passed to `add_business`. A later merge appends to that record's own `source_urls` list in place (line 172) and sets its other fields in place. The caller's reference therefore sees every later change. The model stores values, so it does not capture this aliasing: the caller's record and the stored record are separate values.
- Aggregator.Round5: rounds the exact decimal value, half to even. It does not model the binary floating-point value Python actually rounds. So an input that is a tie only as a decimal may round the other way: `round(0.000005, 5)` is `1e-05` in Python, while `Round5(0.000005)` is `0`. Ties that are exact binary fractions, such as the two ties in RoundingExamples, round the same in both.
- Aggregator.GenerateLocationKey: the key is the pair of rounded integers, not the text `f"{lat}_{lng}"`. For one rounded value, Python can print two different keys, and the model gives one. Two cases:
  - A non-zero coordinate that rounds to zero prints as `0.0` or `-0.0`, depending on its sign.
  - A coordinate that is a Python `int` stays an `int` under `round(x, 5)`, so `51` prints as `51` while `51.0` prints as `51.0`.
- Aggregator.Merged: ratings are exact `real`s, so the mean `(a + b) / 2` at line 163 is exact. Python computes it in binary doubles and rounds it.
- PyText.Lower: ASCII letters only. Python's `lower()` also maps non-ASCII letters, and a few of them to more than one character.
- AggregatorProperties.IngestAll: a `KeyError` stops the whole run. In the crawler, it stops less, because every adapter catches exceptions:
  - the OpenStreetMap adapter's `try` wraps its whole crawl (410-468), so the exception ends that adapter;
  - Companies House catches per search query (313, 367), Foursquare per category (508, 545) and Yelp per category (584, 619), so the exception ends only the current query or category, and the adapter goes on with the next one.
- The timestamp: `datetime.now().isoformat()` is the parameter `now`. The model does not constrain its format or its monotonicity.

## Behaviour worth knowing

- No record is rejected for an empty name or address.
- Two different records can share an identity key, because `_` may also occur in a name or an address. They are then merged.
- The replacement branch fires even when the occupant's key is the incoming key. The stored record is then replaced, not merged, and moves to the end of the listing.
- When the latitude is filled, the longitude is copied with it even if the incoming longitude is missing.
- A coordinate, rating, or text of `0.0` or `""` counts as absent.
- Provenance is a list, not a set. Ingesting the same tag twice records it twice.
- A location entry that names a record deleted by an earlier replacement makes the lookup at line 79 raise `KeyError`.
