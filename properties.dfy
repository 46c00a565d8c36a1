/**
 * What the aggregator promises, proved about the pure model: the two keys,
 * the source tier, the merge policy, the three outcomes of an ingest, and
 * runs of several ingests.
 */
module AggregatorProperties {
  import opened Wrappers
  import opened PyText
  import opened Records
  import opened Aggregator

  // ---- Identity key ----

  /** The identity key ignores the case of the name and whitespace around it. */
  lemma {:induction false} KeyIgnoresNameCaseAndPadding(b: Business, name: string, w1: string, w2: string)
    requires AllSpace(w1) && AllSpace(w2) && Lower(name) == Lower(b.name)
    ensures GenerateKey(b.(name := w1 + name + w2)) == GenerateKey(b)
  {
    LowerConcat(w1 + name, w2);
    LowerConcat(w1, name);
    LowerKeepsSpace(w1);
    LowerKeepsSpace(w2);
    StripIgnoresPadding(Lower(w1), Lower(b.name), Lower(w2));
  }

  /** The identity key ignores the case of the address. */
  lemma {:induction false} KeyIgnoresAddressCase(b: Business, address: string)
    requires Lower(address) == Lower(b.address)
    ensures GenerateKey(b.(address := address)) == GenerateKey(b)
  {
    LowerPrefix(address, AddressPrefixLength);
    LowerPrefix(b.address, AddressPrefixLength);
  }

  /** Every address character after the twentieth is ignored. */
  lemma {:induction false} KeyIgnoresAddressTail(b: Business, tail: string)
    requires |b.address| >= AddressPrefixLength
    ensures GenerateKey(b.(address := b.address + tail)) == GenerateKey(b)
  {
    assert (b.address + tail)[..AddressPrefixLength] == b.address[..AddressPrefixLength];
  }

  /**
   * The separator `_` may also occur in a name or an address, so two
   * different records can share an identity key and be merged.
   */
  lemma KeySeparatorIsAmbiguous(b: Business)
    requires b.name == "a" && b.address == "b_c"
    ensures GenerateKey(b) == GenerateKey(b.(name := "a_b", address := "c"))
  {
    assert Strip(Lower("a")) == "a";
    assert Strip(Lower("a_b")) == "a_b";
    assert Prefix("b_c", AddressPrefixLength) == "b_c";
    assert Prefix("c", AddressPrefixLength) == "c";
    assert Lower("b_c") == "b_c";
    assert Lower("c") == "c";
  }

  // ---- Location key ----

  /** No location key exactly when a coordinate is missing or zero. */
  lemma LocationKeyAbsent(b: Business)
    ensures GenerateLocationKey(b).None? <==>
              b.latitude in {None, Some(0.0)} || b.longitude in {None, Some(0.0)}
  {
  }

  /** Two records with coordinates share a location key iff their rounded coordinates agree. */
  lemma LocationKeysCollide(b1: Business, b2: Business)
    requires GenerateLocationKey(b1).Some? && GenerateLocationKey(b2).Some?
    ensures GenerateLocationKey(b1) == GenerateLocationKey(b2) <==>
              Round5(b1.latitude.value) == Round5(b2.latitude.value)
              && Round5(b1.longitude.value) == Round5(b2.longitude.value)
  {
  }

  /**
   * Rounding at the fifth decimal, with ties going to the even neighbour.
   * `0.015625` (1/64) and `0.046875` (3/64) are ties in binary as well, so
   * Python's doubles round them the same way.
   */
  lemma RoundingExamples()
    ensures Round5(51.50738) == 5150738 && Round5(51.50739) == 5150739
    ensures Round5(-0.12781) == -12781 && Round5(-0.12779) == -12779
    ensures Round5(51.507384) == Round5(51.50738)
    ensures Round5(0.015625) == 1562 && Round5(0.046875) == 4688
  {
  }

  // ---- Source tier ----

  /** An empty or missing source list is never registry-tier. */
  lemma NoSourcesIsOpenTier()
    ensures !IsCompaniesHouseSource(None) && !IsCompaniesHouseSource(Some([]))
  {
  }

  /** A source list is registry-tier iff some tag mentions Companies House, in any letter case. */
  lemma RegistryTierIff(tags: seq<string>)
    ensures IsCompaniesHouseSource(Some(tags)) <==>
              exists i, j :: 0 <= i < |tags| && OccursAt(Lower(tags[i]), RegistryMarker, j)
  {
    if exists i, j :: 0 <= i < |tags| && OccursAt(Lower(tags[i]), RegistryMarker, j) {
      RegistryTierFromOccurrence(tags);
    }
    if IsCompaniesHouseSource(Some(tags)) {
      OccurrenceFromRegistryTier(tags);
    }
  }

  lemma RegistryTierFromOccurrence(tags: seq<string>)
    requires exists i, j :: 0 <= i < |tags| && OccursAt(Lower(tags[i]), RegistryMarker, j)
    ensures IsCompaniesHouseSource(Some(tags))
  {
    var i, j :| 0 <= i < |tags| && OccursAt(Lower(tags[i]), RegistryMarker, j);
    ContainsIff(Lower(tags[i]), RegistryMarker);
    assert MentionsCompaniesHouse(tags[i]);
    assert tags != [] && AnyCompaniesHouse(tags);
  }

  lemma OccurrenceFromRegistryTier(tags: seq<string>)
    requires IsCompaniesHouseSource(Some(tags))
    ensures exists i, j :: 0 <= i < |tags| && OccursAt(Lower(tags[i]), RegistryMarker, j)
  {
    assert AnyCompaniesHouse(tags);
    var i :| 0 <= i < |tags| && MentionsCompaniesHouse(tags[i]);
    ContainsIff(Lower(tags[i]), RegistryMarker);
    var j :| OccursAt(Lower(tags[i]), RegistryMarker, j);
    assert 0 <= i < |tags| && OccursAt(Lower(tags[i]), RegistryMarker, j);
  }

  /** The tier does not depend on the letter case of the tags. */
  lemma {:induction false} RegistryTierIgnoresCase(tags1: seq<string>, tags2: seq<string>)
    requires |tags1| == |tags2|
    requires forall i :: 0 <= i < |tags1| ==> Lower(tags1[i]) == Lower(tags2[i])
    ensures IsCompaniesHouseSource(Some(tags1)) == IsCompaniesHouseSource(Some(tags2))
  {
    if IsCompaniesHouseSource(Some(tags1)) {
      var i :| 0 <= i < |tags1| && MentionsCompaniesHouse(tags1[i]);
      assert MentionsCompaniesHouse(tags2[i]);
    }
    if IsCompaniesHouseSource(Some(tags2)) {
      var i :| 0 <= i < |tags2| && MentionsCompaniesHouse(tags2[i]);
      assert MentionsCompaniesHouse(tags1[i]);
    }
  }

  lemma CompaniesHousePrefixIsLowercase()
    ensures Lower("companies_house_") == "companies_house_"
  {
    LowerOfLowercase("companies_house_");
  }

  lemma {:induction false} CompaniesHouseTagMentions(companyNumber: string)
    ensures MentionsCompaniesHouse("companies_house_" + companyNumber)
  {
    var prefix := "companies_house_";
    var hay := Lower(prefix + companyNumber);
    assert hay == prefix + Lower(companyNumber) by {
      LowerConcat(prefix, companyNumber);
      CompaniesHousePrefixIsLowercase();
    }
    assert hay[..15] == "companies_house" by {
      assert hay[..15] == prefix[..15];
    }
  }

  /** The tags the Companies House adapter attaches are registry-tier, whatever the company number. */
  lemma {:induction false} CompaniesHouseTagIsRegistry(companyNumber: string)
    ensures IsCompaniesHouseSource(Some(["companies_house_" + companyNumber]))
  {
    CompaniesHouseTagMentions(companyNumber);
    assert ["companies_house_" + companyNumber][0] == "companies_house_" + companyNumber;
  }

  /** Appending a tag makes a list registry-tier iff it was already or the tag is. */
  lemma {:induction false} RegistryTierAppend(tags: seq<string>, source: string)
    ensures IsCompaniesHouseSource(Some(tags + [source])) <==>
              IsCompaniesHouseSource(Some(tags)) || IsCompaniesHouseSource(Some([source]))
  {
    var all := tags + [source];
    if IsCompaniesHouseSource(Some(all)) {
      var i :| 0 <= i < |all| && MentionsCompaniesHouse(all[i]);
      if i < |tags| {
        assert tags[i] == all[i];
      } else {
        assert [source][0] == all[i];
      }
    }
    if IsCompaniesHouseSource(Some(tags)) {
      var i :| 0 <= i < |tags| && MentionsCompaniesHouse(tags[i]);
      assert all[i] == tags[i];
    }
    if IsCompaniesHouseSource(Some([source])) {
      assert all[|tags|] == source;
    }
  }

  // ---- Merge ----

  /**
   * Name and category: a registry-tier record takes both from an open-tier
   * one whenever they are non-empty; otherwise the name is kept and the
   * category is only filled when missing.
   */
  lemma MergeNameAndCategory(e: Business, n: Business, source: string, now: string)
    ensures var r := Merged(e, n, source, now);
      var overrides := IsCompaniesHouseSource(e.sourceUrls) && !IsCompaniesHouseSource(Some([source]));
      && (overrides && n.name != "" ==> r.name == n.name)
      && (!overrides || n.name == "" ==> r.name == e.name)
      && (overrides && TruthyText(n.category) ==> r.category == n.category)
      && (!TruthyText(n.category) ==> r.category == e.category)
      && (!TruthyText(e.category) && TruthyText(n.category) ==> r.category == n.category)
      && (!overrides && TruthyText(e.category) ==> r.category == e.category)
  {
  }

  /**
   * Coordinates, opening hours and price range are set only when the stored
   * value is falsy; the coordinate pair is copied on the latitude test alone.
   */
  lemma MergeFillsOnlyMissing(e: Business, n: Business, source: string, now: string)
    ensures var r := Merged(e, n, source, now);
      && (TruthyReal(e.latitude) || !TruthyReal(n.latitude) ==>
            r.latitude == e.latitude && r.longitude == e.longitude)
      && (!TruthyReal(e.latitude) && TruthyReal(n.latitude) ==>
            r.latitude == n.latitude && r.longitude == n.longitude)
      && (TruthyHours(e.openingHours) || !TruthyHours(n.openingHours) ==> r.openingHours == e.openingHours)
      && (!TruthyHours(e.openingHours) && TruthyHours(n.openingHours) ==> r.openingHours == n.openingHours)
      && (TruthyText(e.priceRange) || !TruthyText(n.priceRange) ==> r.priceRange == e.priceRange)
      && (!TruthyText(e.priceRange) && TruthyText(n.priceRange) ==> r.priceRange == n.priceRange)
      && r.address == e.address && r.aiDescription == e.aiDescription
  {
  }

  /** The rating is the mean of the stored and the incoming one; a falsy incoming rating changes nothing. */
  lemma MergeRating(e: Business, n: Business, source: string, now: string)
    ensures var r := Merged(e, n, source, now);
      && (!TruthyReal(n.averageRating) ==> r.averageRating == e.averageRating)
      && (TruthyReal(n.averageRating) && !TruthyReal(e.averageRating) ==> r.averageRating == n.averageRating)
      && (TruthyReal(n.averageRating) && TruthyReal(e.averageRating) ==>
            r.averageRating == Some((e.averageRating.value + n.averageRating.value) / 2.0))
  {
  }

  /** Ratings 4.0, 5.0, 3.0 in turn leave 3.75, not the mean 4.0 of all three. */
  lemma RatingMeanIsPairwise(e: Business, n1: Business, n2: Business, s1: string, s2: string, t1: string, t2: string)
    requires e.averageRating == Some(4.0) && n1.averageRating == Some(5.0) && n2.averageRating == Some(3.0)
    ensures Merged(e, n1, s1, t1).averageRating == Some(4.5)
    ensures Merged(Merged(e, n1, s1, t1), n2, s2, t2).averageRating == Some(3.75)
  {
  }

  /**
   * Provenance grows by the one new tag at the end, the record is stamped,
   * and it is registry-tier afterwards iff it was before or the tag is.
   */
  lemma {:induction false} MergeProvenance(e: Business, n: Business, source: string, now: string)
    ensures var r := Merged(e, n, source, now);
      && r.sourceUrls == Some(Provenance(e.sourceUrls) + [source])
      && r.lastUpdated == Some(now)
      && (IsCompaniesHouseSource(r.sourceUrls) <==>
            IsCompaniesHouseSource(e.sourceUrls) || IsCompaniesHouseSource(Some([source])))
  {
    RegistryTierAppend(Provenance(e.sourceUrls), source);
  }

  // ---- One ingest ----

  /** Every index entry names a record the store holds. */
  ghost predicate IndexComplete(s: Store)
  {
    forall l :: l in s.locationIndex ==> s.locationIndex[l] in s.businesses
  }

  /** `add_business` raises only when the record's location is indexed under a deleted key. */
  lemma IngestFailsOnlyOnDanglingEntry(s: Store, b: Business, source: string, now: string)
    ensures Ingest(s, b, source, now).Failure? <==> Dangling(s, b)
    ensures IndexComplete(s) ==> Ingest(s, b, source, now).Success?
  {
  }

  /**
   * A fresh insert: exactly one new entry, at the identity key, with
   * provenance `[source]`; every other record stays; the location is pointed
   * at the new key even when another record held it.
   */
  lemma IngestInsertsFresh(s: Store, b: Business, source: string, now: string)
    requires !Dangling(s, b) && !Replaces(s, b, source) && GenerateKey(b) !in s.businesses
    ensures Ingest(s, b, source, now).Success?
    ensures var r := Ingest(s, b, source, now).value;
      var key, loc := GenerateKey(b), GenerateLocationKey(b);
      && r.businesses.Keys == s.businesses.Keys + {key}
      && |r.businesses| == |s.businesses| + 1
      && (forall k :: k in s.businesses ==> r.businesses[k] == s.businesses[k])
      && r.businesses[key] == b.(sourceUrls := Some([source]), lastUpdated := Some(now))
      && r.order == s.order + [key]
      && (loc.Some? ==> r.locationIndex == s.locationIndex[loc.value := key])
      && (loc.None? ==> r.locationIndex == s.locationIndex)
  {
  }

  /**
   * The conflict replacement: the registry-tier occupant is removed, the
   * incoming record is stored under its own key with provenance `[source]`
   * and takes the location. Nothing is merged, even when the occupant's key
   * is the incoming key, and no other index entry changes.
   */
  lemma IngestReplacesRegistryOccupant(s: Store, b: Business, source: string, now: string)
    requires WellFormed(s)
    requires Replaces(s, b, source)
    ensures Ingest(s, b, source, now).Success?
    ensures var r := Ingest(s, b, source, now).value;
      var key, loc := GenerateKey(b), GenerateLocationKey(b).value;
      var occupant := s.locationIndex[loc];
      && r.businesses.Keys == s.businesses.Keys - {occupant} + {key}
      && (occupant != key ==> occupant !in r.businesses)
      && r.businesses[key] == b.(sourceUrls := Some([source]), lastUpdated := Some(now))
      && (forall k :: k in s.businesses && k != occupant && k != key ==> r.businesses[k] == s.businesses[k])
      && |r.businesses| <= |s.businesses|
      && r.order == Without(s.order, occupant)
                    + (if key in s.businesses && key != occupant then [] else [key])
      && r.locationIndex == s.locationIndex[loc := key]
  {
    var key, loc := GenerateKey(b), GenerateLocationKey(b).value;
    var occupant := s.locationIndex[loc];
    var r := Ingest(s, b, source, now).value;
    assert r.businesses == (s.businesses - {occupant})[key := b.(sourceUrls := Some([source]), lastUpdated := Some(now))];
    assert r.businesses.Keys == s.businesses.Keys - {occupant} + {key};
    if key in s.businesses && key != occupant {
      assert r.businesses.Keys == s.businesses.Keys - {occupant};
      assert |r.businesses.Keys| == |s.businesses.Keys| - 1;
    } else {
      assert r.businesses.Keys == s.businesses.Keys - {occupant} + {key};
      assert |r.businesses.Keys| == |s.businesses.Keys|;
    }
  }

  /**
   * A merge: same keys, same order, same index; the record at the identity
   * key becomes the merged record, whose provenance ends with `source`.
   */
  lemma IngestMergesSameKey(s: Store, b: Business, source: string, now: string)
    requires WellFormed(s)
    requires !Dangling(s, b) && !Replaces(s, b, source) && GenerateKey(b) in s.businesses
    ensures Ingest(s, b, source, now).Success?
    ensures var r := Ingest(s, b, source, now).value;
      var key := GenerateKey(b);
      && r.businesses.Keys == s.businesses.Keys
      && |r.businesses| == |s.businesses|
      && r.order == s.order
      && r.locationIndex == s.locationIndex
      && r.businesses[key] == Merged(s.businesses[key], b, source, now)
      && Provenance(r.businesses[key].sourceUrls) == Provenance(s.businesses[key].sourceUrls) + [source]
      && (forall k :: k in s.businesses && k != key ==> r.businesses[k] == s.businesses[k])
  {
    var key := GenerateKey(b);
    assert s.businesses.Keys + {key} == s.businesses.Keys;
  }

  /** An ingest that does not replace keeps every index entry pointing at a stored record. */
  lemma IngestKeepsIndexComplete(s: Store, b: Business, source: string, now: string)
    requires IndexComplete(s) && !Replaces(s, b, source)
    ensures Ingest(s, b, source, now).Success?
    ensures IndexComplete(Ingest(s, b, source, now).value)
  {
  }

  /**
   * A replacement whose occupant was also indexed at a second location
   * leaves that entry dangling: the next record there raises `KeyError`.
   */
  lemma ReplacementLeavesDanglingEntry(s: Store, b: Business, source: string, now: string,
                                       other: Business, otherSource: string, later: string)
    requires Replaces(s, b, source)
    requires GenerateLocationKey(other).Some?
    requires GenerateLocationKey(other) != GenerateLocationKey(b)
    requires GenerateLocationKey(other).value in s.locationIndex
    requires s.locationIndex[GenerateLocationKey(other).value] == s.locationIndex[GenerateLocationKey(b).value]
    requires GenerateKey(b) != s.locationIndex[GenerateLocationKey(b).value]
    ensures Ingest(s, b, source, now).Success?
    ensures Ingest(Ingest(s, b, source, now).value, other, otherSource, later)
              == Failure(KeyError(s.locationIndex[GenerateLocationKey(b).value]))
  {
    var r := Ingest(s, b, source, now).value;
    var occupant := s.locationIndex[GenerateLocationKey(b).value];
    var l2 := GenerateLocationKey(other).value;
    assert r.locationIndex[l2] == occupant;
    assert occupant !in r.businesses;
    assert Dangling(r, other);
  }

  // ---- Several ingests ----

  /** One `add_business(business, source)` call made at time `now`. */
  datatype Submission = Submission(business: Business, source: string, now: string)

  /** The calls in turn; a `KeyError` stops the run. */
  function IngestAll(s: Store, subs: seq<Submission>): Result<Store, KeyError>
    decreases |subs|
  {
    if subs == [] then Success(s)
    else
      match Ingest(s, subs[0].business, subs[0].source, subs[0].now)
      case Failure(e) => Failure(e)
      case Success(s1) => IngestAll(s1, subs[1..])
  }

  /** A submission that can never trigger a replacement: no location key, or a registry-tier tag. */
  predicate NeverReplaces(sub: Submission)
  {
    GenerateLocationKey(sub.business).None? || IsCompaniesHouseSource(Some([sub.source]))
  }

  lemma NeverReplacesIsNoConflict(s: Store, sub: Submission)
    requires NeverReplaces(sub)
    ensures !Replaces(s, sub.business, sub.source)
  {
  }

  /** Every successful run keeps the store well formed: each record keeps a non-empty provenance. */
  lemma {:induction false} IngestAllWellFormed(s: Store, subs: seq<Submission>)
    requires WellFormed(s)
    ensures IngestAll(s, subs).Success? ==> WellFormed(IngestAll(s, subs).value)
    decreases |subs|
  {
    if subs != [] {
      var sub := subs[0];
      match Ingest(s, sub.business, sub.source, sub.now)
      case Failure(_) =>
      case Success(s1) =>
        IngestWellFormed(s, sub.business, sub.source, sub.now, s1);
        IngestAllWellFormed(s1, subs[1..]);
    }
  }

  /**
   * Records with distinct identity keys that are new to the store, none of
   * which can replace another, each add one record.
   */
  lemma {:induction false} IngestAllDistinctCount(s: Store, subs: seq<Submission>)
    requires WellFormed(s) && IndexComplete(s)
    requires forall i :: 0 <= i < |subs| ==> NeverReplaces(subs[i])
    requires forall i :: 0 <= i < |subs| ==> GenerateKey(subs[i].business) !in s.businesses
    requires forall i, j :: 0 <= i < j < |subs| ==> GenerateKey(subs[i].business) != GenerateKey(subs[j].business)
    ensures IngestAll(s, subs).Success?
    ensures |IngestAll(s, subs).value.businesses| == |s.businesses| + |subs|
    decreases |subs|
  {
    if subs != [] {
      var sub := subs[0];
      NeverReplacesIsNoConflict(s, sub);
      IngestFailsOnlyOnDanglingEntry(s, sub.business, sub.source, sub.now);
      IngestInsertsFresh(s, sub.business, sub.source, sub.now);
      IngestKeepsIndexComplete(s, sub.business, sub.source, sub.now);
      var s1 := Ingest(s, sub.business, sub.source, sub.now).value;
      IngestWellFormed(s, sub.business, sub.source, sub.now, s1);
      var rest := subs[1..];
      forall i | 0 <= i < |rest| ensures GenerateKey(rest[i].business) !in s1.businesses {
        assert rest[i] == subs[i + 1];
      }
      IngestAllDistinctCount(s1, rest);
    }
  }

  /** Every index entry names a stored record that no registry tag vouches for. */
  ghost predicate IndexOpenTier(s: Store)
  {
    forall l :: l in s.locationIndex ==>
      s.locationIndex[l] in s.businesses
      && !IsCompaniesHouseSource(s.businesses[s.locationIndex[l]].sourceUrls)
  }

  /** A submission with no location key, or one from an open (non-registry) source. */
  predicate UnlocatedOrOpen(sub: Submission)
  {
    GenerateLocationKey(sub.business).None? || !IsCompaniesHouseSource(Some([sub.source]))
  }

  /** A fresh open or unlocated record keeps every index entry on a stored open-tier record. */
  lemma FreshKeepsIndexOpenTier(s: Store, sub: Submission)
    requires IndexOpenTier(s) && UnlocatedOrOpen(sub)
    requires GenerateKey(sub.business) !in s.businesses
    ensures Ingest(s, sub.business, sub.source, sub.now).Success?
    ensures IndexOpenTier(Ingest(s, sub.business, sub.source, sub.now).value)
  {
    assert !Dangling(s, sub.business) && !Replaces(s, sub.business, sub.source);
    IngestInsertsFresh(s, sub.business, sub.source, sub.now);
    var s1 := Ingest(s, sub.business, sub.source, sub.now).value;
    var key, loc := GenerateKey(sub.business), GenerateLocationKey(sub.business);
    forall l | l in s1.locationIndex
      ensures s1.locationIndex[l] in s1.businesses
           && !IsCompaniesHouseSource(s1.businesses[s1.locationIndex[l]].sourceUrls)
    {
      if loc.Some? && l == loc.value {
        assert s1.locationIndex[l] == key;
        assert s1.businesses[key].sourceUrls == Some([sub.source]);
      } else {
        assert l in s.locationIndex && s1.locationIndex[l] == s.locationIndex[l];
      }
    }
  }

  /**
   * The crawler's usual mix: registry records without coordinates and open
   * records with them. While no registry record holds a location, records
   * with distinct new identity keys each add one record.
   */
  lemma {:induction false} IngestAllOpenMixCount(s: Store, subs: seq<Submission>)
    requires WellFormed(s) && IndexOpenTier(s)
    requires forall i :: 0 <= i < |subs| ==> UnlocatedOrOpen(subs[i])
    requires forall i :: 0 <= i < |subs| ==> GenerateKey(subs[i].business) !in s.businesses
    requires forall i, j :: 0 <= i < j < |subs| ==> GenerateKey(subs[i].business) != GenerateKey(subs[j].business)
    ensures IngestAll(s, subs).Success?
    ensures |IngestAll(s, subs).value.businesses| == |s.businesses| + |subs|
    decreases |subs|
  {
    if subs != [] {
      var sub := subs[0];
      FreshKeepsIndexOpenTier(s, sub);
      assert !Dangling(s, sub.business) && !Replaces(s, sub.business, sub.source);
      IngestInsertsFresh(s, sub.business, sub.source, sub.now);
      var s1 := Ingest(s, sub.business, sub.source, sub.now).value;
      IngestWellFormed(s, sub.business, sub.source, sub.now, s1);
      var rest := subs[1..];
      forall i | 0 <= i < |rest| ensures GenerateKey(rest[i].business) !in s1.businesses {
        assert rest[i] == subs[i + 1];
      }
      IngestAllOpenMixCount(s1, rest);
    }
  }

  /**
   * Two records with the same identity key, neither of which replaces: one
   * canonical record whose provenance is the two tags in order.
   */
  lemma {:induction false} SameIdentityMergesOnce(s: Store, b1: Business, src1: string, t1: string,
                                                  b2: Business, src2: string, t2: string)
    requires WellFormed(s) && IndexComplete(s)
    requires GenerateKey(b1) == GenerateKey(b2) && GenerateKey(b1) !in s.businesses
    requires !Replaces(s, b1, src1)
    ensures Ingest(s, b1, src1, t1).Success?
    ensures var s1 := Ingest(s, b1, src1, t1).value;
      !Replaces(s1, b2, src2) ==>
        && Ingest(s1, b2, src2, t2).Success?
        && var s2 := Ingest(s1, b2, src2, t2).value;
        && |s2.businesses| == |s.businesses| + 1
        && Provenance(s2.businesses[GenerateKey(b1)].sourceUrls) == [src1, src2]
  {
    IngestInsertsFresh(s, b1, src1, t1);
    IngestKeepsIndexComplete(s, b1, src1, t1);
    var s1 := Ingest(s, b1, src1, t1).value;
    IngestWellFormed(s, b1, src1, t1, s1);
    if !Replaces(s1, b2, src2) {
      IngestMergesSameKey(s1, b2, src2, t2);
    }
  }
}
