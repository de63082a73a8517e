/**
  The vehicle and body-type keyword tables of the agent (app/llm.py:38-117):
  Python dictionaries from a lower-case alias to a canonical label, iterated in
  insertion order. Also the two lookups the extractor performs over them: the
  first keyword occurring in the text (body type, app/llm.py:482-488) and the
  best-scoring keyword of an explicit truck phrase (app/llm.py:543-551).
 */
module Keywords {
  import opened Wrappers
  import opened Text

  /** A dictionary in insertion order: (key, value) entries, keys distinct. */
  type Table = seq<(string, string)>

  function Keys(t: Table): seq<string> {
    seq(|t|, i requires 0 <= i < |t| => t[i].0)
  }

  predicate DistinctKeys(t: Table) {
    forall i, j :: 0 <= i < j < |t| ==> t[i].0 != t[j].0
  }

  /** `t.get(k)` */
  function Lookup(t: Table, k: string): Option<string>
    decreases |t|
  {
    if t == [] then None
    else if t[0].0 == k then Some(t[0].1)
    else Lookup(t[1..], k)
  }

  /** `t[k] = v`: an existing key keeps its position and takes the new value;
      a new key goes to the end. */
  function Put(t: Table, k: string, v: string): Table
    decreases |t|
  {
    if t == [] then [(k, v)]
    else if t[0].0 == k then [(k, v)] + t[1..]
    else [t[0]] + Put(t[1..], k, v)
  }

  /** After `t[k] = v`, `k` reads `v` and every other key reads as before. */
  lemma {:induction false} LookupPut(t: Table, k: string, v: string, key: string)
    ensures Lookup(Put(t, k, v), key) == if key == k then Some(v) else Lookup(t, key)
    decreases |t|
  {
    if t != [] && t[0].0 != k {
      LookupPut(t[1..], k, v, key);
    }
  }

  /** `t[k] = v` keeps the key order, and appends `k` exactly when it is new. */
  lemma {:induction false} KeysPut(t: Table, k: string, v: string)
    ensures Keys(Put(t, k, v)) == if k in Keys(t) then Keys(t) else Keys(t) + [k]
    decreases |t|
  {
    if t != [] && t[0].0 == k {
      assert Keys(t)[0] == k;
      assert Keys(Put(t, k, v)) == Keys(t);
    } else if t != [] {
      KeysPut(t[1..], k, v);
      assert Keys(t) == [t[0].0] + Keys(t[1..]);
      assert Keys(Put(t, k, v)) == [t[0].0] + Keys(Put(t[1..], k, v));
      assert k in Keys(t) <==> k in Keys(t[1..]);
    }
  }

  /** Distinct keys stay distinct under `t[k] = v`. */
  lemma DistinctPut(t: Table, k: string, v: string)
    requires DistinctKeys(t)
    ensures DistinctKeys(Put(t, k, v))
  {
    KeysPut(t, k, v);
    var p := Put(t, k, v);
    assert |Keys(p)| == |p|;
    forall i, j | 0 <= i < j < |p|
      ensures p[i].0 != p[j].0
    {
      assert p[i].0 == Keys(p)[i] && p[j].0 == Keys(p)[j];
      assert Keys(p)[i] == Keys(t)[i] == t[i].0;
      if j < |t| {
        assert Keys(p)[j] == Keys(t)[j] == t[j].0;
      } else {
        assert Keys(p)[j] == k && k !in Keys(t);
      }
    }
  }

  // ---------------------------------------------------------------------
  // Seeding

  /** The built-in vehicle aliases, in the order the agent inserts them. */
  const DefaultVehicleKeywords: Table := [
    ("tata ace", "Tata Ace"), ("tata ac", "Tata Ace"), ("ace", "Tata Ace"),
    ("dost", "Dost"), ("bada dost", "Bada Dost"),
    ("bolero", "Bolero"), ("bolero pickup", "Bolero"),
    ("407", "407"), ("eicher", "Eicher"), ("ashok leyland", "Ashok Leyland"),
    ("12 feet", "12 Feet"), ("14 feet", "14 Feet"), ("17 feet", "17 Feet"),
    ("19 feet", "19 Feet"), ("20 feet", "20 Feet"), ("22 feet", "22 Feet"),
    ("24 feet", "24 Feet"), ("32 feet", "32 Feet Multi-Axle"),
    ("32 feet multi-axle", "32 Feet Multi-Axle"), ("32 feet multi axle", "32 Feet Multi-Axle"),
    ("trailer", "Trailer"), ("20 feet trailer", "20 Feet Trailer"),
    ("24 feet trailer", "24 Feet Trailer"), ("40 feet trailer", "40 Feet Trailer"),
    ("low-bed", "Low-Bed Trailer"), ("low bed", "Low-Bed Trailer"),
    ("semi-bed", "Semi-Bed Trailer"), ("semi bed", "Semi-Bed Trailer"),
    ("high-bed", "High-Bed Trailer"), ("high bed", "High-Bed Trailer"),
    ("6-wheel", "6-Wheel Truck"), ("6 wheel", "6-Wheel Truck"),
    ("10-wheel", "10-Wheel Truck"), ("10 wheel", "10-Wheel Truck"),
    ("12-wheel", "12-Wheel Truck"), ("12 wheel", "12-Wheel Truck"),
    ("14-wheel", "14-Wheel Truck"), ("14 wheel", "14-Wheel Truck"),
    ("16-wheel", "16-Wheel Truck"), ("16 wheel", "16-Wheel Truck"),
    ("car-carrier", "Car-Carrier"), ("car carrier", "Car-Carrier"),
    ("part-load", "Part-Load"), ("part load", "Part-Load")
  ]

  /** The built-in body types. */
  const DefaultBodyTypes: Table := [("open", "Open"), ("container", "Container")]

  /** The two aliases a catalog vehicle name is inserted under: its lower-case
      form, then that form with every hyphen turned into a space. */
  function VehicleAliases(name: string): seq<string> {
    [Lower(name), ReplaceAll(Lower(name), "-", " ")]
  }

  /** The vehicle table after inserting the catalog names in order. */
  function SeededVehicles(t: Table, names: seq<string>): Table
    decreases |names|
  {
    if names == [] then t
    else
      var n := names[|names| - 1];
      var aliases := VehicleAliases(n);
      Put(Put(SeededVehicles(t, names[..|names| - 1]), aliases[0], n), aliases[1], n)
  }

  /** The body table after inserting the catalog names in order, each under
      its lower-case form. */
  function SeededBodies(t: Table, names: seq<string>): Table
    decreases |names|
  {
    if names == [] then t
    else
      var n := names[|names| - 1];
      Put(SeededBodies(t, names[..|names| - 1]), Lower(n), n)
  }

  /** The seeding loop over the catalog's vehicle names (app/llm.py:103-108). */
  method SeedVehicleKeywords(defaults: Table, names: seq<string>) returns (t: Table)
    ensures t == SeededVehicles(defaults, names)
  {
    t := defaults;
    for i := 0 to |names|
      invariant t == SeededVehicles(defaults, names[..i])
    {
      var name := names[i];
      assert names[..i + 1][..i] == names[..i];
      t := Put(t, Lower(name), name);
      t := Put(t, ReplaceAll(Lower(name), "-", " "), name);
    }
    assert names[..|names|] == names;
  }

  /** The seeding loop over the catalog's body names (app/llm.py:113-117). */
  method SeedBodyTypes(defaults: Table, names: seq<string>) returns (t: Table)
    ensures t == SeededBodies(defaults, names)
  {
    t := defaults;
    for i := 0 to |names|
      invariant t == SeededBodies(defaults, names[..i])
    {
      assert names[..i + 1][..i] == names[..i];
      t := Put(t, Lower(names[i]), names[i]);
    }
    assert names[..|names|] == names;
  }

  /** The catalog name that an alias reads after seeding: the last name in the
      list having that alias, if any. */
  function LastNameWithAlias(names: seq<string>, key: string): Option<string>
    decreases |names|
  {
    if names == [] then None
    else if key in VehicleAliases(names[|names| - 1]) then Some(names[|names| - 1])
    else LastNameWithAlias(names[..|names| - 1], key)
  }

  /** Last write wins: after seeding, an alias reads the last catalog name that
      has it, and any other key reads as in the defaults. */
  lemma {:induction false} SeededVehiclesLookup(t: Table, names: seq<string>, key: string)
    ensures Lookup(SeededVehicles(t, names), key) ==
      match LastNameWithAlias(names, key)
      case Some(n) => Some(n)
      case None => Lookup(t, key)
    decreases |names|
  {
    if names != [] {
      var n := names[|names| - 1];
      var aliases := VehicleAliases(n);
      var before := SeededVehicles(t, names[..|names| - 1]);
      SeededVehiclesLookup(t, names[..|names| - 1], key);
      LookupPut(before, aliases[0], n, key);
      LookupPut(Put(before, aliases[0], n), aliases[1], n, key);
    }
  }

  /** Seeding extends the table: the defaults keep their keys and their
      positions at the front, and keys stay distinct. */
  lemma {:induction false} SeededVehiclesExtend(t: Table, names: seq<string>)
    ensures |Keys(t)| <= |Keys(SeededVehicles(t, names))|
    ensures Keys(SeededVehicles(t, names))[..|t|] == Keys(t)
    ensures DistinctKeys(t) ==> DistinctKeys(SeededVehicles(t, names))
    decreases |names|
  {
    if names != [] {
      var n := names[|names| - 1];
      var aliases := VehicleAliases(n);
      var before := SeededVehicles(t, names[..|names| - 1]);
      SeededVehiclesExtend(t, names[..|names| - 1]);
      KeysPut(before, aliases[0], n);
      KeysPut(Put(before, aliases[0], n), aliases[1], n);
      if DistinctKeys(t) {
        DistinctPut(before, aliases[0], n);
        DistinctPut(Put(before, aliases[0], n), aliases[1], n);
      }
    }
  }

  /** The catalog name that a body key reads after seeding: the last name in
      the list whose lower-case form is that key, if any. */
  function LastNameWithKey(names: seq<string>, key: string): Option<string>
    decreases |names|
  {
    if names == [] then None
    else if Lower(names[|names| - 1]) == key then Some(names[|names| - 1])
    else LastNameWithKey(names[..|names| - 1], key)
  }

  /** Last write wins for the body table too: after seeding, a key reads the
      last catalog name whose lower-case form it is, and any other key reads
      as in the defaults. */
  lemma {:induction false} SeededBodiesLookup(t: Table, names: seq<string>, key: string)
    ensures Lookup(SeededBodies(t, names), key) ==
      match LastNameWithKey(names, key)
      case Some(n) => Some(n)
      case None => Lookup(t, key)
    decreases |names|
  {
    if names != [] {
      var n := names[|names| - 1];
      SeededBodiesLookup(t, names[..|names| - 1], key);
      LookupPut(SeededBodies(t, names[..|names| - 1]), Lower(n), n, key);
    }
  }

  // ---------------------------------------------------------------------
  // Lookups used by the extractor

  /** The value of the first key, in table order, that occurs in `text`. */
  function FirstContained(t: Table, text: string): Option<string>
    decreases |t|
  {
    if t == [] then None
    else if Contains(text, t[0].0) then Some(t[0].1)
    else FirstContained(t[1..], text)
  }

  /** `FirstContained` finds the value at index `i` exactly when key `i` occurs in
      the text and no earlier key does; it finds nothing exactly when no key occurs. */
  lemma {:induction false} FirstContainedSpec(t: Table, text: string)
    ensures FirstContained(t, text).None? <==> forall j :: 0 <= j < |t| ==> !Contains(text, t[j].0)
    ensures FirstContained(t, text).Some? ==>
      exists i :: 0 <= i < |t| && Contains(text, t[i].0) && t[i].1 == FirstContained(t, text).value
        && forall j :: 0 <= j < i ==> !Contains(text, t[j].0)
    decreases |t|
  {
    if t != [] && !Contains(text, t[0].0) {
      FirstContainedSpec(t[1..], text);
      if FirstContained(t, text).Some? {
        var i :| 0 <= i < |t[1..]| && Contains(text, t[1..][i].0) && t[1..][i].1 == FirstContained(t, text).value
          && forall j :: 0 <= j < i ==> !Contains(text, t[1..][j].0);
        assert forall j :: 0 <= j < i + 1 ==> !Contains(text, t[j].0) by {
          forall j | 0 <= j < i + 1 ensures !Contains(text, t[j].0) {
            if j > 0 { assert t[j] == t[1..][j - 1]; }
          }
        }
        assert t[i + 1] == t[1..][i];
      } else {
        forall j | 0 <= j < |t| ensures !Contains(text, t[j].0) {
          if j > 0 { assert t[j] == t[1..][j - 1]; }
        }
      }
    }
  }

  /** A string-similarity score (0 to 100), such as fuzzywuzzy's `fuzz.ratio`. */
  type Scorer = (string, string) -> int

  /** The smallest score the truck phrase accepts. */
  const TruckPhraseThreshold := 65

  /** Scanning the table in order, keep the label of a keyword whose score
      is at least the threshold and strictly above the best so far; start from
      score 0 and no label. */
  function BestMatch(t: Table, mention: string, ratio: Scorer): (Option<string>, int)
    decreases |t|
  {
    if t == [] then (None, 0)
    else
      var (best, bestScore) := BestMatch(t[..|t| - 1], mention, ratio);
      var score := ratio(mention, t[|t| - 1].0);
      if score > bestScore && score >= TruckPhraseThreshold then (Some(t[|t| - 1].1), score)
      else (best, bestScore)
  }

  /** Keyword `i` has a score at the threshold, no keyword scores higher, and
      every earlier keyword scores strictly lower. */
  predicate EarliestBest(t: Table, mention: string, ratio: Scorer, i: int) {
    && 0 <= i < |t|
    && ratio(mention, t[i].0) >= TruckPhraseThreshold
    && (forall j :: 0 <= j < |t| ==> ratio(mention, t[j].0) <= ratio(mention, t[i].0))
    && (forall j :: 0 <= j < i ==> ratio(mention, t[j].0) < ratio(mention, t[i].0))
  }

  /** The keyword loop of the truck phrase (app/llm.py:543-551). */
  method BestKeywordMatch(t: Table, mention: string, ratio: Scorer) returns (best: Option<string>, bestScore: int)
    ensures (best, bestScore) == BestMatch(t, mention, ratio)
  {
    best, bestScore := None, 0;
    for i := 0 to |t|
      invariant (best, bestScore) == BestMatch(t[..i], mention, ratio)
    {
      assert t[..i + 1][..i] == t[..i];
      var (keyword, vehicleName) := t[i];
      var score := ratio(mention, keyword);
      if score > bestScore && score >= TruckPhraseThreshold {
        bestScore := score;
        best := Some(vehicleName);
      }
    }
    assert t[..|t|] == t;
  }

  /** The loop keeps the label of the earliest keyword with the highest score,
      provided that score reaches the threshold; otherwise it keeps nothing and
      the best score stays 0. */
  lemma {:induction false} BestMatchSpec(t: Table, mention: string, ratio: Scorer)
    ensures BestMatch(t, mention, ratio).0.None? <==>
      forall j :: 0 <= j < |t| ==> ratio(mention, t[j].0) < TruckPhraseThreshold
    ensures BestMatch(t, mention, ratio).0.None? ==> BestMatch(t, mention, ratio).1 == 0
    ensures BestMatch(t, mention, ratio).0.Some? ==>
      exists i :: EarliestBest(t, mention, ratio, i) && t[i].1 == BestMatch(t, mention, ratio).0.value
        && BestMatch(t, mention, ratio).1 == ratio(mention, t[i].0)
    decreases |t|
  {
    if t != [] {
      var front := t[..|t| - 1];
      var last := |t| - 1;
      BestMatchSpec(front, mention, ratio);
      var (best, bestScore) := BestMatch(front, mention, ratio);
      var score := ratio(mention, t[last].0);
      assert forall j :: 0 <= j < last ==> t[j] == front[j];
      if score > bestScore && score >= TruckPhraseThreshold {
        if best.Some? {
          var i :| EarliestBest(front, mention, ratio, i) && front[i].1 == best.value && bestScore == ratio(mention, front[i].0);
        }
        assert EarliestBest(t, mention, ratio, last);
      } else if best.Some? {
        var i :| EarliestBest(front, mention, ratio, i) && front[i].1 == best.value && bestScore == ratio(mention, front[i].0);
        assert EarliestBest(t, mention, ratio, i);
      }
    }
  }
}
