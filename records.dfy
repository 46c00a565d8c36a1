/**
 * The `Business` record every source adapter produces, and the Python
 * truthiness tests the aggregator applies to its optional fields.
 */
module Records {
  import opened Wrappers

  /**
   * One business observation. Coordinates and the rating are `real`s (the
   * source's floats without rounding error); `openingHours` maps a day label to
   * its hours text; `sourceUrls` is the provenance list; `lastUpdated` is the
   * ISO timestamp of the last change.
   */
  datatype Business = Business(
    name: string,
    address: string,
    latitude: Option<real>,
    longitude: Option<real>,
    category: Option<string>,
    openingHours: Option<map<string, string>>,
    averageRating: Option<real>,
    priceRange: Option<string>,
    aiDescription: Option<string>,
    sourceUrls: Option<seq<string>>,
    lastUpdated: Option<string>)

  /** Python truthiness of an optional float: `None` and `0.0` are false. */
  predicate TruthyReal(o: Option<real>)
  {
    o.Some? && o.value != 0.0
  }

  /** Python truthiness of an optional string: `None` and `""` are false. */
  predicate TruthyText(o: Option<string>)
  {
    o.Some? && o.value != ""
  }

  /** Python truthiness of an optional dict: `None` and `{}` are false. */
  predicate TruthyHours(o: Option<map<string, string>>)
  {
    o.Some? && o.value != map[]
  }

  /** Python truthiness of an optional list: `None` and `[]` are false. */
  predicate TruthyList(o: Option<seq<string>>)
  {
    o.Some? && o.value != []
  }

  /** The provenance tags of a record, with `None` read as no tags. */
  function Provenance(o: Option<seq<string>>): seq<string>
  {
    if o.Some? then o.value else []
  }
}
