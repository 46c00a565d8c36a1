/**
 * The category a registry record gets from its Standard Industrial
 * Classification code: the division (the first two digits) looked up in a
 * fixed table, with "Business" for every division the table does not name.
 */
module SicCategory {
  import opened PyText

  /** The divisions the crawler recognises. */
  const Divisions: map<string, string> := map[
    "56" := "Restaurant",
    "55" := "Hotel",
    "47" := "Retail",
    "68" := "Real Estate",
    "70" := "Consulting",
    "41" := "Construction",
    "62" := "Technology",
    "86" := "Healthcare"
  ]

  const DefaultCategory: string := "Business"

  /** `sic_code[:2]`, or the whole code when it is shorter. */
  function Division(code: string): (r: string)
    ensures |r| == if |code| >= 2 then 2 else |code|
    ensures r <= code
  {
    Prefix(code, 2)
  }

  /** `_map_sic_to_category`: the division's category, or the default. */
  function MapSicToCategory(code: string): (r: string)
    ensures r == DefaultCategory || r in Divisions.Values
  {
    var d := Division(code);
    if d in Divisions then Divisions[d] else DefaultCategory
  }

  /** Every division in the table is two characters long. */
  lemma DivisionsAreTwoLong(d: string)
    requires d in Divisions
    ensures |d| == 2
  {
  }

  /** Codes shorter than a division never match the table. */
  lemma ShortCodeIsDefault(code: string)
    requires |code| < 2
    ensures MapSicToCategory(code) == DefaultCategory
  {
    if Division(code) in Divisions {
      DivisionsAreTwoLong(Division(code));
    }
  }

  /** Only the first two characters of a code decide its category. */
  lemma CategoryDependsOnDivision(a: string, b: string)
    requires |a| >= 2 && |b| >= 2 && a[..2] == b[..2]
    ensures MapSicToCategory(a) == MapSicToCategory(b)
  {
    assert Division(a) == a[..2] && Division(b) == b[..2];
  }

  /** No two divisions share a category, so a category names its division. */
  lemma CategoriesAreDistinct(d: string, e: string)
    requires d in Divisions && e in Divisions && Divisions[d] == Divisions[e]
    ensures d == e
  {
  }

  /**
   * A code gets a named category exactly when it starts with that
   * category's division; otherwise it gets the default.
   */
  lemma MapSicToCategoryIff(code: string, d: string)
    requires d in Divisions
    ensures MapSicToCategory(code) == Divisions[d] <==> |code| >= 2 && code[..2] == d
  {
    DivisionsAreTwoLong(d);
    var c := Division(code);
    if MapSicToCategory(code) == Divisions[d] {
      assert Divisions[d] != DefaultCategory;
      assert c in Divisions;
      CategoriesAreDistinct(c, d);
      DivisionsAreTwoLong(c);
    }
  }

  /** A five-digit restaurant code, as the registry issues them. */
  lemma RestaurantExample()
    ensures MapSicToCategory("56101") == "Restaurant"
    ensures MapSicToCategory("99999") == DefaultCategory
    ensures MapSicToCategory("5") == DefaultCategory
  {
    assert Division("56101") == "56";
    assert Division("99999") == "99";
    ShortCodeIsDefault("5");
  }
}
