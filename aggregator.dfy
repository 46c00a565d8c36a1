/**
 * The deduplicating aggregation store (`DataAggregator`): identity and
 * location keys, the source-tier test, the field-by-field merge, and the store
 * itself as a class over two dictionaries, specified by the pure `Ingest`.
 */
module Aggregator {
  import opened Wrappers
  import opened PyText
  import opened Records

  // ---- Keys ----

  /** Number of address characters that take part in the identity key. */
  const AddressPrefixLength: nat := 20

  /** `name.lower().strip() + "_" + address[:20].lower()`. */
  function GenerateKey(b: Business): string
  {
    Strip(Lower(b.name)) + "_" + Lower(Prefix(b.address, AddressPrefixLength))
  }

  /** Python's `round()` to an integer: the nearest integer, ties to the even one. */
  function RoundHalfEven(y: real): (r: int)
    ensures y - 0.5 <= r as real <= y + 0.5
    ensures (r as real == y - 0.5 || r as real == y + 0.5) ==> r % 2 == 0
  {
    var f := y.Floor;
    var frac := y - f as real;
    if frac < 0.5 then f
    else if frac > 0.5 then f + 1
    else if f % 2 == 0 then f else f + 1
  }

  /** `round(x, 5)`, as a whole number of 1e-5 degrees. */
  function Round5(x: real): int
  {
    RoundHalfEven(x * 100000.0)
  }

  /**
   * The string `f"{lat}_{lng}"` of the two rounded coordinates. Distinct
   * rounded floats print differently, so the key is the pair of rounded values.
   */
  datatype LocationKey = LocationKey(lat: int, lng: int)

  /** No key unless both coordinates are truthy (so `0.0` counts as missing). */
  function GenerateLocationKey(b: Business): Option<LocationKey>
  {
    if TruthyReal(b.latitude) && TruthyReal(b.longitude) then
      Some(LocationKey(Round5(b.latitude.value), Round5(b.longitude.value)))
    else
      None
  }

  // ---- Source tier ----

  /** The substring that marks a tag as coming from the company registry. */
  const RegistryMarker: string := "companies_house"

  /** `'companies_house' in str(s).lower()`. */
  predicate MentionsCompaniesHouse(tag: string)
  {
    Contains(Lower(tag), RegistryMarker)
  }

  /** `any(...)` over the tags. */
  function AnyCompaniesHouse(tags: seq<string>): (r: bool)
    ensures r <==> exists i :: 0 <= i < |tags| && MentionsCompaniesHouse(tags[i])
  {
    if tags == [] then false
    else
      var rest := AnyCompaniesHouse(tags[1..]);
      assert forall i :: 1 <= i < |tags| ==> tags[i] == tags[1..][i - 1];
      MentionsCompaniesHouse(tags[0]) || rest
  }

  /** Registry tier: a non-empty tag list in which some tag names Companies House. */
  predicate IsCompaniesHouseSource(sourceUrls: Option<seq<string>>)
  {
    TruthyList(sourceUrls) && AnyCompaniesHouse(sourceUrls.value)
  }

  // ---- Merge ----

  /**
   * The record `_merge_business_data` leaves behind when `incoming` arrives
   * from `source` for an identity key already held by `existing`.
   */
  function Merged(existing: Business, incoming: Business, source: string, now: string): Business
  {
    var overrideRegistry := IsCompaniesHouseSource(existing.sourceUrls) && !IsCompaniesHouseSource(Some([source]));
    Business(
      name := if overrideRegistry && incoming.name != "" then incoming.name else existing.name,
      address := existing.address,
      latitude := if TruthyReal(incoming.latitude) && !TruthyReal(existing.latitude)
                  then incoming.latitude else existing.latitude,
      longitude := if TruthyReal(incoming.latitude) && !TruthyReal(existing.latitude)
                   then incoming.longitude else existing.longitude,
      category := if TruthyText(incoming.category) && (overrideRegistry || !TruthyText(existing.category))
                  then incoming.category else existing.category,
      openingHours := if TruthyHours(incoming.openingHours) && !TruthyHours(existing.openingHours)
                      then incoming.openingHours else existing.openingHours,
      averageRating :=
        if !TruthyReal(incoming.averageRating) then existing.averageRating
        else if TruthyReal(existing.averageRating)
        then Some((existing.averageRating.value + incoming.averageRating.value) / 2.0)
        else incoming.averageRating,
      priceRange := if TruthyText(incoming.priceRange) && !TruthyText(existing.priceRange)
                    then incoming.priceRange else existing.priceRange,
      aiDescription := existing.aiDescription,
      sourceUrls := Some(Provenance(existing.sourceUrls) + [source]),
      lastUpdated := Some(now))
  }

  // ---- The store's state, as a value ----

  predicate Distinct(ks: seq<string>)
  {
    forall i, j :: 0 <= i < j < |ks| ==> ks[i] != ks[j]
  }

  /** The key order left by `del d[k]`. */
  function Without(ks: seq<string>, k: string): (r: seq<string>)
    ensures forall x :: x in r <==> x in ks && x != k
    ensures Distinct(ks) ==> Distinct(r)
  {
    if ks == [] then []
    else if ks[0] == k then Without(ks[1..], k)
    else
      var rest := Without(ks[1..], k);
      assert Distinct(ks) ==> ks[0] !in ks[1..];
      [ks[0]] + rest
  }

  /** A key the order does not hold leaves it unchanged. */
  lemma {:induction false} WithoutAbsent(ks: seq<string>, k: string)
    requires k !in ks
    ensures Without(ks, k) == ks
    decreases |ks|
  {
    if ks != [] {
      WithoutAbsent(ks[1..], k);
    }
  }

  /** `del` cuts the key out at its position; every other key keeps its relative order. */
  lemma {:induction false} WithoutAt(ks: seq<string>, k: string, p: int)
    requires Distinct(ks) && 0 <= p < |ks| && ks[p] == k
    ensures Without(ks, k) == ks[..p] + ks[p + 1..]
    decreases |ks|
  {
    if p == 0 {
      assert k !in ks[1..];
      WithoutAbsent(ks[1..], k);
    } else {
      assert Distinct(ks[1..]);
      WithoutAt(ks[1..], k, p - 1);
      assert ks[1..][..p - 1] == ks[1..p];
      assert ks[1..][p..] == ks[p + 1..];
    }
  }

  /**
   * The two dictionaries of a `DataAggregator`; `order` is the iteration
   * order Python keeps for the keys of `businesses`.
   */
  datatype Store = Store(
    order: seq<string>,
    businesses: map<string, Business>,
    locationIndex: map<LocationKey, string>)

  /**
   * What holds of every store the aggregator builds: the key order lists each
   * key once, and every record has at least one provenance tag.
   */
  ghost predicate WellFormed(s: Store)
  {
    && Distinct(s.order)
    && (forall k :: k in s.order <==> k in s.businesses)
    && (forall k :: k in s.businesses ==> TruthyList(s.businesses[k].sourceUrls))
  }

  /** `d[k] = v`: a new key goes last in the order, an existing one keeps its place. */
  function Assign(s: Store, k: string, v: Business): Store
  {
    s.(order := if k in s.businesses then s.order else s.order + [k],
       businesses := s.businesses[k := v])
  }

  /** `del d[k]`. */
  function Delete(s: Store, k: string): Store
  {
    s.(order := Without(s.order, k), businesses := s.businesses - {k})
  }

  /** `index[l] = k`. */
  function Index(s: Store, l: LocationKey, k: string): Store
  {
    s.(locationIndex := s.locationIndex[l := k])
  }

  /** The `KeyError` raised by `self.businesses[existing_key]`. */
  datatype KeyError = KeyError(key: string)

  /** `b` with provenance reset to `[source]` and stamped with `now`, as stored on insert or replacement. */
  function Stamped(b: Business, source: string, now: string): Business
  {
    b.(sourceUrls := Some([source]), lastUpdated := Some(now))
  }

  /** The index points the record's location at a key the store no longer holds. */
  predicate Dangling(s: Store, b: Business)
  {
    var loc := GenerateLocationKey(b);
    loc.Some? && loc.value in s.locationIndex && s.locationIndex[loc.value] !in s.businesses
  }

  /** The co-location check fires: the occupant is registry-tier and the incoming source is not. */
  predicate Replaces(s: Store, b: Business, source: string)
  {
    var loc := GenerateLocationKey(b);
    && loc.Some? && loc.value in s.locationIndex
    && s.locationIndex[loc.value] in s.businesses
    && IsCompaniesHouseSource(s.businesses[s.locationIndex[loc.value]].sourceUrls)
    && !IsCompaniesHouseSource(Some([source]))
  }

  /** `add_business(b, source)` at time `now`, on a store value. */
  function Ingest(s: Store, b: Business, source: string, now: string): Result<Store, KeyError>
  {
    var key := GenerateKey(b);
    var loc := GenerateLocationKey(b);
    if Dangling(s, b) then
      Failure(KeyError(s.locationIndex[loc.value]))
    else if Replaces(s, b, source) then
      var existingKey := s.locationIndex[loc.value];
      Success(Index(Assign(Delete(s, existingKey), key, Stamped(b, source, now)), loc.value, key))
    else if key in s.businesses then
      Success(Assign(s, key, Merged(s.businesses[key], b, source, now)))
    else
      var inserted := Assign(s, key, Stamped(b, source, now));
      Success(if loc.Some? then Index(inserted, loc.value, key) else inserted)
  }

  lemma AssignWellFormed(s: Store, k: string, v: Business)
    requires WellFormed(s) && TruthyList(v.sourceUrls)
    ensures WellFormed(Assign(s, k, v))
  {
  }

  lemma DeleteWellFormed(s: Store, k: string)
    requires WellFormed(s)
    ensures WellFormed(Delete(s, k))
  {
  }

  /** Every successful ingest keeps the store well formed. */
  lemma IngestWellFormed(s: Store, b: Business, source: string, now: string, t: Store)
    requires WellFormed(s) && Ingest(s, b, source, now) == Success(t)
    ensures WellFormed(t)
  {
    var key := GenerateKey(b);
    var loc := GenerateLocationKey(b);
    if Replaces(s, b, source) {
      DeleteWellFormed(s, s.locationIndex[loc.value]);
      AssignWellFormed(Delete(s, s.locationIndex[loc.value]), key, Stamped(b, source, now));
    } else if key in s.businesses {
      AssignWellFormed(s, key, Merged(s.businesses[key], b, source, now));
    } else {
      AssignWellFormed(s, key, Stamped(b, source, now));
    }
  }

  /** Distinct keys that list exactly a map's domain are as many as its entries. */
  lemma {:induction false} OrderCount(order: seq<string>, m: map<string, Business>)
    requires Distinct(order) && forall k :: k in order <==> k in m
    ensures |order| == |m|
    decreases |order|
  {
    if order == [] {
      assert m.Keys == {};
    } else {
      var k := order[0];
      assert Distinct(order[1..]);
      forall x ensures x in order[1..] <==> x in m - {k} {
        if x in order[1..] {
          var j :| 0 <= j < |order[1..]| && order[1..][j] == x;
          assert order[j + 1] == x;
        }
        if x in order && x != k {
          var j :| 0 <= j < |order| && order[j] == x;
          assert j != 0 && order[1..][j - 1] == x;
        }
      }
      OrderCount(order[1..], m - {k});
    }
  }

  // ---- The store object ----

  class DataAggregator {
    /** The keys of `businesses`, in the order Python iterates them. */
    var order: seq<string>
    /** Identity key to canonical record. */
    var businesses: map<string, Business>
    /** Location key to the identity key that occupies it. */
    var locationIndex: map<LocationKey, string>

    ghost function State(): Store
      reads this
    {
      Store(order, businesses, locationIndex)
    }

    ghost predicate Valid()
      reads this
    {
      WellFormed(State())
    }

    /** `__init__`: both dictionaries empty. */
    constructor ()
      ensures Valid() && State() == Store([], map[], map[])
      ensures GetAllBusinesses() == []
    {
      order := [];
      businesses := map[];
      locationIndex := map[];
    }

    /** `self.businesses[key] = value`. */
    method PutBusiness(key: string, value: Business)
      requires Valid() && TruthyList(value.sourceUrls)
      modifies this
      ensures Valid()
      ensures State() == Assign(old(State()), key, value)
    {
      AssignWellFormed(State(), key, value);
      if key !in businesses {
        order := order + [key];
      }
      businesses := businesses[key := value];
    }

    /** `del self.businesses[key]`. */
    method DeleteBusiness(key: string)
      requires Valid()
      modifies this
      ensures Valid()
      ensures State() == Delete(old(State()), key)
    {
      DeleteWellFormed(State(), key);
      order := Without(order, key);
      businesses := businesses - {key};
    }

    /** `self.location_index[location] = key`. */
    method IndexLocation(location: LocationKey, key: string)
      requires Valid()
      modifies this
      ensures Valid()
      ensures State() == Index(old(State()), location, key)
    {
      locationIndex := locationIndex[location := key];
    }

    /**
     * `add_business`: co-location replacement, else merge into the record
     * with the same identity key, else a fresh insert. A location entry that
     * points at a deleted key raises `KeyError` before anything changes.
     */
    method AddBusiness(business: Business, source: string, now: string) returns (error: Option<KeyError>)
      requires Valid()
      modifies this
      ensures Valid()
      ensures Ingest(old(State()), business, source, now)
                == if error.Some? then Failure(error.value) else Success(State())
      ensures error.Some? ==> State() == old(State())
    {
      ghost var before := State();
      var key := GenerateKey(business);
      var locationKey := GenerateLocationKey(business);
      if locationKey.Some? && locationKey.value in locationIndex {
        var existingKey := locationIndex[locationKey.value];
        if existingKey !in businesses {
          assert Dangling(before, business);
          return Some(KeyError(existingKey));
        }
        if IsCompaniesHouseSource(businesses[existingKey].sourceUrls) {
          if !IsCompaniesHouseSource(Some([source])) {
            assert !Dangling(before, business) && Replaces(before, business, source);
            DeleteBusiness(existingKey);
            var replacement := business.(sourceUrls := Some([source]));
            replacement := replacement.(lastUpdated := Some(now));
            PutBusiness(key, replacement);
            IndexLocation(locationKey.value, key);
            assert State() == Index(Assign(Delete(before, existingKey), key, Stamped(business, source, now)),
                                    locationKey.value, key);
            return None;
          }
        }
      }
      assert !Dangling(before, business) && !Replaces(before, business, source);
      if key in businesses {
        var merged := MergeBusinessData(businesses[key], business, source, now);
        PutBusiness(key, merged);
        assert State() == Assign(before, key, Merged(before.businesses[key], business, source, now));
      } else {
        var inserted := business.(sourceUrls := Some([source]));
        inserted := inserted.(lastUpdated := Some(now));
        PutBusiness(key, inserted);
        if locationKey.Some? {
          IndexLocation(locationKey.value, key);
        }
      }
      error := None;
    }

    /**
     * `_merge_business_data`: updates a copy of `existing` field by field.
     * In the source `merged` and `existing` are the same object, so the later
     * tests read fields the earlier steps may already have written.
     */
    method MergeBusinessData(existing: Business, incoming: Business, source: string, now: string)
      returns (merged: Business)
      ensures merged == Merged(existing, incoming, source, now)
    {
      ghost var spec := Merged(existing, incoming, source, now);
      merged := existing;
      var existingIsCh := IsCompaniesHouseSource(merged.sourceUrls);
      var newIsCh := IsCompaniesHouseSource(Some([source]));
      if newIsCh && !existingIsCh {
        // keep the name and category of the open-tier record
      } else if !newIsCh && existingIsCh {
        if incoming.name != "" {
          merged := merged.(name := incoming.name);
        }
        if TruthyText(incoming.category) {
          merged := merged.(category := incoming.category);
        }
      }
      ghost var overridden := merged.category;
      assert merged == existing.(name := spec.name, category := overridden);
      if TruthyReal(incoming.latitude) && !TruthyReal(merged.latitude) {
        merged := merged.(latitude := incoming.latitude);
        merged := merged.(longitude := incoming.longitude);
      }
      assert merged == existing.(name := spec.name, category := overridden,
                                 latitude := spec.latitude, longitude := spec.longitude);
      if TruthyText(incoming.category) && !TruthyText(merged.category) {
        merged := merged.(category := incoming.category);
      }
      assert merged == existing.(name := spec.name, category := spec.category,
                                 latitude := spec.latitude, longitude := spec.longitude);
      if TruthyHours(incoming.openingHours) && !TruthyHours(merged.openingHours) {
        merged := merged.(openingHours := incoming.openingHours);
      }
      if TruthyReal(incoming.averageRating) {
        if TruthyReal(merged.averageRating) {
          merged := merged.(averageRating := Some((merged.averageRating.value + incoming.averageRating.value) / 2.0));
        } else {
          merged := merged.(averageRating := incoming.averageRating);
        }
      }
      if TruthyText(incoming.priceRange) && !TruthyText(merged.priceRange) {
        merged := merged.(priceRange := incoming.priceRange);
      }
      assert merged == spec.(sourceUrls := existing.sourceUrls, lastUpdated := existing.lastUpdated);
      if TruthyList(merged.sourceUrls) {
        merged := merged.(sourceUrls := Some(merged.sourceUrls.value + [source]));
      } else {
        assert Provenance(existing.sourceUrls) + [source] == [source];
        merged := merged.(sourceUrls := Some([source]));
      }
      merged := merged.(lastUpdated := Some(now));
    }

    /** `get_all_businesses`: every canonical record, once each, in key order. */
    function GetAllBusinesses(): (r: seq<Business>)
      reads this
      requires Valid()
      ensures |r| == |order| == |businesses|
      ensures forall i :: 0 <= i < |r| ==> r[i] == businesses[order[i]]
      ensures forall i :: 0 <= i < |r| ==> r[i] in businesses.Values
      ensures forall k :: k in businesses ==> businesses[k] in r
    {
      OrderCount(order, businesses);
      var keys, records := order, businesses;
      var r := seq(|keys|, i requires 0 <= i < |keys| => records[keys[i]]);
      assert forall k :: k in records ==> exists i :: 0 <= i < |keys| && keys[i] == k && r[i] == records[k];
      r
    }
  }
}
