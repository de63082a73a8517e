/**
  The field extractors of the agent: `_extract_booking_info` (app/llm.py:329-627)
  and `_extract_from_confirmation` (app/llm.py:286-327), as functions from the
  current record and one utterance to the updated record.

  Each regular expression of the source is a `Pattern` tag, and `re.search` is
  the parameter `search`, which gives the capture groups of a match. Fuzzy
  string similarity is the parameter `ratio`, and the reference date
  (`datetime.now()`) is the parameter `today`.
 */
module Extraction {
  import opened Wrappers
  import opened Text
  import opened Booking
  import opened SpokenDigits
  import opened Keywords
  import opened CivilDate

  /** The regular expressions of the two extractors, one tag per expression. */
  datatype Pattern =
    | NameIntro          // "my name is|i am|this is|name is|i'm" + name
    | NameBare           // "name" + name
    | PhoneBare          // ten digits starting with 6-9, between word boundaries
    | PhoneSeparated     // the same with optional space/dash separators
    | PhoneAfterKeyword  // "number|mobile|phone|contact" + ten digits
    | FromTo             // "from|pickup|trip from" X "to|drop" Y
    | PickupDropEcho     // "pickup [in] X, drop [in] Y"
    | TruckPhrase        // "truck [type] X"
    | FeetSize           // digits + "feet|ft|foot"
    | Carrying | Transporting | Moving | MaterialIs | GoodsIs | LoadIs
    | MaterialEcho       // "material X" up to a comma, "date" or a period
    | EchoName           // "name X" up to a comma or "mobile"
    | EchoMobile         // "mobile" + ten digits
    | EchoMobileGrouped  // "mobile (ddd) ddd-dddd", three groups
    | EchoNumber         // "number" + ten digits

  /** `re.search(pattern, text)`: the capture groups of the leftmost match. */
  type Search = (Pattern, string) -> Option<seq<string>>

  /** `match.group(i)`, counting from 1. */
  function Group(m: seq<string>, i: nat): string {
    if 1 <= i <= |m| then m[i - 1] else ""
  }

  type Day = d: Date | Valid(d) witness Date(1, 1, 1)

  /** What one extraction pass depends on besides the record and the text. */
  datatype Env = Env(search: Search, ratio: Scorer, vehicles: Table, bodies: Table, today: Day)

  /** `len(x or "")` */
  function Len(o: Option<string>): nat {
    if o.Some? then |o.value| else 0
  }

  /** A capture as the extractors store it: stripped and title-cased. */
  function Cleaned(capture: string): string {
    Title(Strip(capture))
  }

  // ---------------------------------------------------------------------
  // Pattern lists

  /** What a pattern yields on the utterance: its capture, once it survives
      the extractor's filters. */
  type Yield = Pattern -> Option<string>

  /** The loop over a pattern list that stops at the first accepted capture:
      the yield of the first pattern, in order, that yields anything. */
  function FirstYield(ps: seq<Pattern>, at: Yield): Option<string>
    decreases |ps|
  {
    if ps == [] then None
    else if at(ps[0]).Some? then at(ps[0])
    else FirstYield(ps[1..], at)
  }

  /** Pattern `k` yields `v`, and no pattern before it yields anything. */
  predicate YieldsFirst(ps: seq<Pattern>, at: Yield, k: int, v: string) {
    0 <= k < |ps| && at(ps[k]) == Some(v) && forall j :: 0 <= j < k ==> at(ps[j]).None?
  }

  /** The loop finds nothing exactly when no pattern yields anything, and
      otherwise it finds the yield of the first pattern that does. */
  lemma {:induction false} FirstYieldSpec(ps: seq<Pattern>, at: Yield)
    ensures FirstYield(ps, at).None? <==> forall k :: 0 <= k < |ps| ==> at(ps[k]).None?
    ensures FirstYield(ps, at).Some? ==> exists k :: YieldsFirst(ps, at, k, FirstYield(ps, at).value)
    decreases |ps|
  {
    if ps != [] && at(ps[0]).None? {
      FirstYieldSpec(ps[1..], at);
      if FirstYield(ps, at).Some? {
        var k :| YieldsFirst(ps[1..], at, k, FirstYield(ps, at).value);
        forall j | 0 <= j < k + 1
          ensures at(ps[j]).None?
        {
          if j > 0 {
            assert ps[j] == ps[1..][j - 1];
          }
        }
        assert ps[k + 1] == ps[1..][k];
        assert YieldsFirst(ps, at, k + 1, FirstYield(ps, at).value);
      } else {
        forall k | 0 <= k < |ps|
          ensures at(ps[k]).None?
        {
          if k > 0 {
            assert ps[k] == ps[1..][k - 1];
          }
        }
      }
    } else if ps != [] {
      assert YieldsFirst(ps, at, 0, FirstYield(ps, at).value);
    }
  }

  // ---------------------------------------------------------------------
  // Customer name (app/llm.py:342-363)

  const StopWords := ["is", "and", "my", "the", "from", "to", "for", "i", "said", "please", "you", "your"]
  const NameCities := ["chennai", "bangalore", "mumbai", "delhi", "pune", "hyderabad"]
  const NamePatterns := [NameIntro, NameBare]

  /** The words that are not stop words, compared in lower case. */
  function NonStopWords(ws: seq<string>): (r: seq<string>)
    ensures |r| <= |ws|
    ensures forall k :: 0 <= k < |r| ==> Lower(r[k]) !in StopWords
    ensures forall k :: 0 <= k < |r| ==> r[k] in ws
    ensures forall k :: 0 <= k < |ws| && Lower(ws[k]) !in StopWords ==> ws[k] in r
    ensures (forall k :: 0 <= k < |ws| ==> IsWord(ws[k])) ==> forall k :: 0 <= k < |r| ==> IsWord(r[k])
  {
    if ws == [] then []
    else (if Lower(ws[0]) in StopWords then [] else [ws[0]]) + NonStopWords(ws[1..])
  }

  /** The filter keeps the order of the words: filtering a concatenation
      concatenates the filtered parts. */
  lemma {:induction false} NonStopWordsAppend(a: seq<string>, b: seq<string>)
    ensures NonStopWords(a + b) == NonStopWords(a) + NonStopWords(b)
    decreases |a|
  {
    if a == [] {
      assert a + b == b;
    } else {
      assert (a + b)[0] == a[0] && (a + b)[1..] == a[1..] + b;
      NonStopWordsAppend(a[1..], b);
    }
  }

  /** What the name filter lets through: at least one word, none of them a
      stop word, at least two characters, and not one of the listed cities. */
  predicate AcceptableName(n: string) {
    && Words(n) != []
    && (forall k :: 0 <= k < |Words(n)| ==> Lower(Words(n)[k]) !in StopWords)
    && |n| >= 2
    && Lower(n) !in NameCities
  }

  /** The cleaned capture with its stop words dropped, words joined by single spaces. */
  function NameCandidate(capture: string): string {
    Join(" ", NonStopWords(Words(Cleaned(capture))))
  }

  /** The name a capture yields: its candidate, exactly when that passes the filter. */
  function NameFromCapture(capture: string): (r: Option<string>)
    ensures r.Some? <==> AcceptableName(NameCandidate(capture))
    ensures r.Some? ==> r.value == NameCandidate(capture)
  {
    var parts := NonStopWords(Words(Cleaned(capture)));
    var clean := Join(" ", parts);
    WordsOfJoin(parts);
    assert Words(clean) == parts;
    if parts != [] && |clean| >= 2 && Lower(clean) !in NameCities then Some(clean) else None
  }

  /** What one name pattern yields. */
  function NameAt(p: Pattern, lower: string, search: Search): Option<string> {
    match search(p, lower)
    case Some(m) => NameFromCapture(Group(m, 1))
    case None => None
  }

  function NameYield(lower: string, search: Search): Yield {
    p => NameAt(p, lower, search)
  }

  /** The name of the first pattern, in order, whose capture survives the filter. */
  function FirstName(patterns: seq<Pattern>, lower: string, search: Search): (r: Option<string>)
    ensures r.None? <==> forall k :: 0 <= k < |patterns| ==> NameAt(patterns[k], lower, search).None?
    ensures r.Some? ==> exists k :: YieldsFirst(patterns, NameYield(lower, search), k, r.value)
    ensures r.Some? ==> AcceptableName(r.value)
  {
    FirstYieldSpec(patterns, NameYield(lower, search));
    FirstYield(patterns, NameYield(lower, search))
  }

  function ExtractName(current: Option<string>, lower: string, search: Search): (r: Option<string>)
    ensures Truthy(current) ==> r == current
    ensures !Truthy(current) && NameAt(NameIntro, lower, search).Some? ==> r == NameAt(NameIntro, lower, search)
    ensures !Truthy(current) && NameAt(NameIntro, lower, search).None? && NameAt(NameBare, lower, search).Some? ==>
      r == NameAt(NameBare, lower, search)
    ensures NameAt(NameIntro, lower, search).None? && NameAt(NameBare, lower, search).None? ==> r == current
    ensures r != current ==> r.Some? && AcceptableName(r.value)
  {
    if Truthy(current) then current
    else
      match FirstName(NamePatterns, lower, search)
      case Some(n) => Some(n)
      case None => current
  }

  // ---------------------------------------------------------------------
  // Contact (app/llm.py:367-417)

  const PhonePatterns := [PhoneBare, PhoneSeparated, PhoneAfterKeyword]

  /** `capture.replace(' ', '').replace('-', '')` */
  function PhoneDigits(capture: string): string {
    ReplaceAll(ReplaceAll(capture, " ", ""), "-", "")
  }

  /** What one numeric pattern yields: its capture without separators, when
      that has ten characters. */
  function PhoneAt(p: Pattern, text: string, search: Search): Option<string> {
    match search(p, text)
    case Some(m) => if |PhoneDigits(Group(m, 1))| == 10 then Some(PhoneDigits(Group(m, 1))) else None
    case None => None
  }

  function PhoneYield(text: string, search: Search): Yield {
    p => PhoneAt(p, text, search)
  }

  /** The number of the first pattern, in order, whose capture has ten
      characters once separators are removed. */
  function FirstPhone(patterns: seq<Pattern>, text: string, search: Search): (r: Option<string>)
    ensures r.None? <==> forall k :: 0 <= k < |patterns| ==> PhoneAt(patterns[k], text, search).None?
    ensures r.Some? ==> exists k :: YieldsFirst(patterns, PhoneYield(text, search), k, r.value)
    ensures r.Some? ==> |r.value| == 10
  {
    FirstYieldSpec(patterns, PhoneYield(text, search));
    FirstYield(patterns, PhoneYield(text, search))
  }

  /** The contact once the spoken-digit scan has produced `spoken`: the scan
      when it is a mobile number, else the numeric patterns on the original text. */
  function ContactAfterScan(current: Option<string>, spoken: string, text: string, search: Search): Option<string> {
    if IsMobileNumber(spoken) then Some(spoken)
    else
      match FirstPhone(PhonePatterns, text, search)
      case Some(p) => Some(p)
      case None => current
  }

  function ExtractContact(current: Option<string>, text: string, search: Search): (r: Option<string>)
    ensures Truthy(current) ==> r == current
    ensures !Truthy(current) && IsMobileNumber(Spelled(Words(Lower(text)))) ==> r == Some(Spelled(Words(Lower(text))))
    ensures !Truthy(current) && !IsMobileNumber(Spelled(Words(Lower(text)))) && FirstPhone(PhonePatterns, text, search).Some? ==>
      r == FirstPhone(PhonePatterns, text, search)
    ensures !IsMobileNumber(Spelled(Words(Lower(text)))) && FirstPhone(PhonePatterns, text, search).None? ==> r == current
    ensures r != current ==> r.Some? && |r.value| == 10
  {
    if Truthy(current) then current
    else ContactAfterScan(current, Spelled(Words(Lower(text))), text, search)
  }

  // ---------------------------------------------------------------------
  // Pickup and drop (app/llm.py:425-466)

  /** The from/to rule: take the candidate when the field is empty or the
      candidate is strictly longer. */
  function LongerWins(current: Option<string>, candidate: string): Option<string> {
    if !Truthy(current) || |candidate| > Len(current) then Some(candidate) else current
  }

  function FromToPair(pickup: Option<string>, drop: Option<string>, lower: string, search: Search): (Option<string>, Option<string>) {
    match search(FromTo, lower)
    case Some(m) => (LongerWins(pickup, Cleaned(Group(m, 1))), LongerWins(drop, Cleaned(Group(m, 2))))
    case None => (pickup, drop)
  }

  const EchoPrefixes := ["in ", "from ", "at "]

  /** For each prefix in turn: if the lower-cased value starts with it, cut it
      off and title-case the rest again. */
  function StripPrefixes(s: string, prefixes: seq<string>): string
    decreases |prefixes|
  {
    if prefixes == [] then s
    else StripPrefixes(if StartsWith(Lower(s), prefixes[0]) then Title(s[|prefixes[0]|..]) else s, prefixes[1..])
  }

  /** The echo rule: take the candidate whenever it has more than two characters. */
  function EchoWins(current: Option<string>, candidate: string): Option<string> {
    if |candidate| > 2 then Some(candidate) else current
  }

  function EchoLocation(capture: string): string {
    StripPrefixes(Cleaned(capture), EchoPrefixes)
  }

  function EchoPair(pickup: Option<string>, drop: Option<string>, lower: string, search: Search): (Option<string>, Option<string>) {
    match search(PickupDropEcho, lower)
    case Some(m) => (EchoWins(pickup, EchoLocation(Group(m, 1))), EchoWins(drop, EchoLocation(Group(m, 2))))
    case None => (pickup, drop)
  }

  // ---------------------------------------------------------------------
  // Body type (app/llm.py:482-488)

  function ExtractBody(current: Option<string>, lower: string, bodies: Table): Option<string> {
    if current.Some? then current else FirstContained(bodies, lower)
  }

  // ---------------------------------------------------------------------
  // Vehicle type (app/llm.py:496-571)

  /** The phrase after "truck [type]", as it is scored. */
  function TruckMention(m: seq<string>): string {
    Lower(Strip(Group(m, 1)))
  }

  /** The explicit truck phrase: the best-scoring keyword's label replaces the
      field, filled or not. */
  function AfterTruckPhrase(current: Option<string>, lower: string, env: Env): Option<string> {
    match env.search(TruckPhrase, lower)
    case Some(m) =>
      var best := BestMatch(env.vehicles, TruckMention(m), env.ratio).0;
      if best.Some? && best.value != "" then best else current
    case None => current
  }

  /** The fallback on an empty field: "<digits> Feet", else the generic "Truck". */
  function AfterFeet(current: Option<string>, lower: string, search: Search): Option<string> {
    if Truthy(current) then current
    else
      match search(FeetSize, lower)
      case Some(m) => Some(Group(m, 1) + " Feet")
      case None => if Contains(lower, "truck") then Some("Truck") else current
  }

  function ExtractVehicle(current: Option<string>, lower: string, env: Env): Option<string> {
    AfterFeet(AfterTruckPhrase(current, lower, env), lower, env.search)
  }

  // ---------------------------------------------------------------------
  // Goods (app/llm.py:575-607)

  const MaterialPatterns := [Carrying, Transporting, Moving, MaterialIs, GoodsIs, LoadIs]

  function MaterialFromCapture(capture: string): string {
    ReplaceAll(Cleaned(capture), " And ", " and ")
  }

  /** What one material pattern yields: its cleaned capture, when that has
      more than two characters. */
  function MaterialAt(p: Pattern, lower: string, search: Search): Option<string> {
    match search(p, lower)
    case Some(m) => if |MaterialFromCapture(Group(m, 1))| > 2 then Some(MaterialFromCapture(Group(m, 1))) else None
    case None => None
  }

  function MaterialYield(lower: string, search: Search): Yield {
    p => MaterialAt(p, lower, search)
  }

  /** The material of the first pattern, in order, whose cleaned capture has
      more than two characters. */
  function FirstMaterial(patterns: seq<Pattern>, lower: string, search: Search): (r: Option<string>)
    ensures r.None? <==> forall k :: 0 <= k < |patterns| ==> MaterialAt(patterns[k], lower, search).None?
    ensures r.Some? ==> exists k :: YieldsFirst(patterns, MaterialYield(lower, search), k, r.value)
    ensures r.Some? ==> |r.value| > 2
  {
    FirstYieldSpec(patterns, MaterialYield(lower, search));
    FirstYield(patterns, MaterialYield(lower, search))
  }

  /** The confirmation form "material X": its cleaned capture, when that has
      more than two characters. */
  function EchoMaterial(lower: string, search: Search): (r: Option<string>)
    ensures r.Some? ==> |r.value| > 2
    ensures r.Some? <==> search(MaterialEcho, lower).Some? && |Cleaned(Group(search(MaterialEcho, lower).value, 1))| > 2
    ensures r.Some? ==> r.value == Cleaned(Group(search(MaterialEcho, lower).value, 1))
  {
    match search(MaterialEcho, lower)
    case Some(m) => if |Cleaned(Group(m, 1))| > 2 then Some(Cleaned(Group(m, 1))) else None
    case None => None
  }

  function ExtractGoods(current: Option<string>, lower: string, search: Search): (r: Option<string>)
    ensures Truthy(current) ==> r == current
    ensures !Truthy(current) && FirstMaterial(MaterialPatterns, lower, search).Some? ==>
      r == FirstMaterial(MaterialPatterns, lower, search)
    ensures !Truthy(current) && FirstMaterial(MaterialPatterns, lower, search).None? && EchoMaterial(lower, search).Some? ==>
      r == EchoMaterial(lower, search)
    ensures FirstMaterial(MaterialPatterns, lower, search).None? && EchoMaterial(lower, search).None? ==> r == current
    ensures r != current ==> r.Some? && |r.value| > 2
  {
    if Truthy(current) then current
    else
      match FirstMaterial(MaterialPatterns, lower, search)
      case Some(g) => Some(g)
      case None => if EchoMaterial(lower, search).Some? then EchoMaterial(lower, search) else current
  }

  // ---------------------------------------------------------------------
  // Trip date (app/llm.py:612-627)

  function ExtractDate(current: Option<string>, lower: string, today: Day): Option<string> {
    if Truthy(current) then current
    else if Contains(lower, "today") || Contains(lower, "now") then Some(Iso(today))
    else if Contains(lower, "tomorrow") then Some(Iso(NextDay(today)))
    else if Contains(lower, "day after tomorrow") || Contains(lower, "overmorrow") then Some(Iso(NextDay(NextDay(today))))
    else current
  }

  // ---------------------------------------------------------------------
  // The whole pass

  /** `_extract_booking_info(text)`: every extractor, in the source's order,
      each writing only its own field(s). */
  function ExtractBookingInfo(r: Record, text: string, env: Env): (r': Record)
    ensures r'.leadSource == r.leadSource && r'.confirmationStatus == r.confirmationStatus
    ensures Truthy(r.customerName) ==> r'.customerName == r.customerName
    ensures Truthy(r.contact) ==> r'.contact == r.contact
    ensures r.bodyType.Some? ==> r'.bodyType == r.bodyType
    ensures Truthy(r.goodsType) ==> r'.goodsType == r.goodsType
    ensures Truthy(r.tripDate) ==> r'.tripDate == r.tripDate
    ensures r'.customerName != r.customerName ==> r'.customerName.Some? && AcceptableName(r'.customerName.value)
    ensures r'.contact != r.contact ==> r'.contact.Some? && |r'.contact.value| == 10
    ensures r'.goodsType != r.goodsType ==> r'.goodsType.Some? && |r'.goodsType.value| > 2
    ensures r'.customerName != r.customerName ==> r'.customerName == FirstName(NamePatterns, Lower(text), env.search)
    ensures !Truthy(r.customerName) && FirstName(NamePatterns, Lower(text), env.search).Some? ==>
      r'.customerName == FirstName(NamePatterns, Lower(text), env.search)
    ensures !Truthy(r.contact) && IsMobileNumber(Spelled(Words(Lower(text)))) ==>
      r'.contact == Some(Spelled(Words(Lower(text))))
    ensures r'.contact != r.contact ==>
      r'.contact == Some(Spelled(Words(Lower(text)))) || r'.contact == FirstPhone(PhonePatterns, text, env.search)
    ensures !Truthy(r.goodsType) && FirstMaterial(MaterialPatterns, Lower(text), env.search).Some? ==>
      r'.goodsType == FirstMaterial(MaterialPatterns, Lower(text), env.search)
    ensures r'.goodsType != r.goodsType ==>
      r'.goodsType == FirstMaterial(MaterialPatterns, Lower(text), env.search) || r'.goodsType == EchoMaterial(Lower(text), env.search)
  {
    var lower := Lower(text);
    var fromTo := FromToPair(r.pickupLocation, r.dropLocation, lower, env.search);
    var echo := EchoPair(fromTo.0, fromTo.1, lower, env.search);
    r.(customerName := ExtractName(r.customerName, lower, env.search),
       contact := ExtractContact(r.contact, text, env.search),
       pickupLocation := echo.0,
       dropLocation := echo.1,
       bodyType := ExtractBody(r.bodyType, lower, env.bodies),
       vehicleType := ExtractVehicle(r.vehicleType, lower, env),
       goodsType := ExtractGoods(r.goodsType, lower, env.search),
       tripDate := ExtractDate(r.tripDate, lower, env.today))
  }

  // ---------------------------------------------------------------------
  // The steps that run the scanning loops

  /** The contact step, running the spoken-digit scan only when the field is empty. */
  method ScanContact(current: Option<string>, text: string, search: Search) returns (contact: Option<string>)
    ensures contact == ExtractContact(current, text, search)
  {
    contact := current;
    if !Truthy(current) {
      var spoken := WordsToDigits(text);
      contact := ContactAfterScan(current, spoken, text, search);
    }
  }

  /** The body step, building this call's table from the database names. */
  method MatchBody(current: Option<string>, lower: string, dbBodies: seq<string>) returns (body: Option<string>)
    ensures body == ExtractBody(current, lower, SeededBodies(DefaultBodyTypes, dbBodies))
  {
    body := current;
    if current.None? {
      var bodies := SeedBodyTypes(DefaultBodyTypes, dbBodies);
      body := FirstContained(bodies, lower);
    }
  }

  /** The vehicle step: the truck phrase scored against the table, then the fallbacks. */
  method MatchVehicle(current: Option<string>, lower: string, env: Env) returns (vehicle: Option<string>)
    ensures vehicle == ExtractVehicle(current, lower, env)
  {
    vehicle := current;
    var truck := env.search(TruckPhrase, lower);
    if truck.Some? {
      var best, _ := BestKeywordMatch(env.vehicles, TruckMention(truck.value), env.ratio);
      if best.Some? && best.value != "" {
        vehicle := best;
      }
    }
    vehicle := AfterFeet(vehicle, lower, env.search);
  }

  /** One extraction pass, step by step, with the body table built on this
      call from the database names. */
  method RunPass(r: Record, text: string, env: Env, dbBodies: seq<string>) returns (r': Record)
    requires env.bodies == SeededBodies(DefaultBodyTypes, dbBodies)
    ensures r' == ExtractBookingInfo(r, text, env)
  {
    var search, today := env.search, env.today;
    var lower := Lower(text);
    var name := ExtractName(r.customerName, lower, search);
    var contact := ScanContact(r.contact, text, search);
    var fromTo := FromToPair(r.pickupLocation, r.dropLocation, lower, search);
    var echo := EchoPair(fromTo.0, fromTo.1, lower, search);
    var body := MatchBody(r.bodyType, lower, dbBodies);
    var vehicle := MatchVehicle(r.vehicleType, lower, env);
    var goods := ExtractGoods(r.goodsType, lower, search);
    var date := ExtractDate(r.tripDate, lower, today);
    r' := r.(customerName := name, contact := contact, pickupLocation := echo.0, dropLocation := echo.1,
             bodyType := body, vehicleType := vehicle, goodsType := goods, tripDate := date);
  }

  // ---------------------------------------------------------------------
  // Confirmation echo (app/llm.py:286-327)

  const EchoNameCities := NameCities + ["goa", "kolkata"]
  const EchoPhonePatterns := [EchoMobile, EchoMobileGrouped, EchoNumber]

  /** The name the confirmation form "name X" yields: the cleaned capture,
      unless it is one of the listed cities. */
  function EchoNameAt(lower: string, search: Search): (r: Option<string>)
    ensures r.Some? ==> Lower(r.value) !in EchoNameCities
    ensures r.Some? <==> search(EchoName, lower).Some? && Lower(Cleaned(Group(search(EchoName, lower).value, 1))) !in EchoNameCities
    ensures r.Some? ==> r.value == Cleaned(Group(search(EchoName, lower).value, 1))
  {
    match search(EchoName, lower)
    case Some(m) => if Lower(Cleaned(Group(m, 1))) !in EchoNameCities then Some(Cleaned(Group(m, 1))) else None
    case None => None
  }

  function ExtractEchoName(current: Option<string>, lower: string, search: Search): (r: Option<string>)
    ensures Truthy(current) ==> r == current
    ensures !Truthy(current) && EchoNameAt(lower, search).Some? ==> r == EchoNameAt(lower, search)
    ensures EchoNameAt(lower, search).None? ==> r == current
  {
    if Truthy(current) then current
    else if EchoNameAt(lower, search).Some? then EchoNameAt(lower, search)
    else current
  }

  /** The number a match gives: its single group, or all groups joined. */
  function EchoPhone(m: seq<string>): string {
    if |m| == 1 then m[0] else Concat(m)
  }

  /** What one confirmation-form number pattern yields: its number, when
      that has ten characters. */
  function EchoPhoneAt(p: Pattern, lower: string, search: Search): Option<string> {
    match search(p, lower)
    case Some(m) => if |EchoPhone(m)| == 10 then Some(EchoPhone(m)) else None
    case None => None
  }

  function EchoPhoneYield(lower: string, search: Search): Yield {
    p => EchoPhoneAt(p, lower, search)
  }

  /** The number of the first pattern, in order, that gives ten characters. */
  function FirstEchoPhone(patterns: seq<Pattern>, lower: string, search: Search): (r: Option<string>)
    ensures r.None? <==> forall k :: 0 <= k < |patterns| ==> EchoPhoneAt(patterns[k], lower, search).None?
    ensures r.Some? ==> exists k :: YieldsFirst(patterns, EchoPhoneYield(lower, search), k, r.value)
    ensures r.Some? ==> |r.value| == 10
  {
    FirstYieldSpec(patterns, EchoPhoneYield(lower, search));
    FirstYield(patterns, EchoPhoneYield(lower, search))
  }

  function ExtractEchoContact(current: Option<string>, lower: string, search: Search): (r: Option<string>)
    ensures Truthy(current) ==> r == current
    ensures !Truthy(current) && FirstEchoPhone(EchoPhonePatterns, lower, search).Some? ==>
      r == FirstEchoPhone(EchoPhonePatterns, lower, search)
    ensures FirstEchoPhone(EchoPhonePatterns, lower, search).None? ==> r == current
    ensures r != current ==> r.Some? && |r.value| == 10
  {
    if Truthy(current) then current
    else
      match FirstEchoPhone(EchoPhonePatterns, lower, search)
      case Some(p) => Some(p)
      case None => current
  }

  /** `_extract_from_confirmation(text)` */
  function ExtractFromConfirmation(r: Record, text: string, search: Search): (r': Record)
    ensures r'.(customerName := r.customerName, contact := r.contact) == r
    ensures Truthy(r.customerName) ==> r'.customerName == r.customerName
    ensures Truthy(r.contact) ==> r'.contact == r.contact
    ensures !Truthy(r.customerName) && EchoNameAt(Lower(text), search).Some? ==> r'.customerName == EchoNameAt(Lower(text), search)
    ensures r'.customerName != r.customerName ==>
      && search(EchoName, Lower(text)).Some?
      && r'.customerName == Some(Cleaned(Group(search(EchoName, Lower(text)).value, 1)))
      && Lower(r'.customerName.value) !in EchoNameCities
    ensures !Truthy(r.contact) && FirstEchoPhone(EchoPhonePatterns, Lower(text), search).Some? ==>
      r'.contact == FirstEchoPhone(EchoPhonePatterns, Lower(text), search)
    ensures r'.contact != r.contact ==> r'.contact == FirstEchoPhone(EchoPhonePatterns, Lower(text), search) && r'.contact.Some? && |r'.contact.value| == 10
  {
    var lower := Lower(text);
    r.(customerName := ExtractEchoName(r.customerName, lower, search),
       contact := ExtractEchoContact(r.contact, lower, search))
  }

  // ---------------------------------------------------------------------
  // Properties of one pass

  /** A spoken number that reads as a mobile number becomes the contact of a
      record that has none, whatever digits the text also contains. */
  lemma SpokenContactAccepted(r: Record, text: string, env: Env, ts: seq<Spoken>)
    requires forall k :: 0 <= k < |ts| ==> WellFormed(ts[k])
    requires Words(Lower(text)) == Render(ts)
    requires !Truthy(r.contact) && IsMobileNumber(Expand(ts))
    ensures ExtractBookingInfo(r, text, env).contact == Some(Expand(ts))
  {
    SpelledRender(ts);
  }

  /** The explicit truck phrase overrides any vehicle already recorded: when
      some keyword scores at least 65 against the phrase, the vehicle becomes
      the label of the earliest keyword with the highest score. */
  lemma TruckPhraseDecides(r: Record, text: string, env: Env, m: seq<string>)
    requires env.search(TruckPhrase, Lower(text)) == Some(m)
    requires exists j :: 0 <= j < |env.vehicles| && env.ratio(TruckMention(m), env.vehicles[j].0) >= TruckPhraseThreshold
    requires forall j :: 0 <= j < |env.vehicles| ==> env.vehicles[j].1 != ""
    ensures exists i :: (EarliestBest(env.vehicles, TruckMention(m), env.ratio, i)
                         && ExtractBookingInfo(r, text, env).vehicleType == Some(env.vehicles[i].1))
  {
    BestMatchSpec(env.vehicles, TruckMention(m), env.ratio);
    var best := BestMatch(env.vehicles, TruckMention(m), env.ratio).0;
    var i :| EarliestBest(env.vehicles, TruckMention(m), env.ratio, i) && env.vehicles[i].1 == best.value;
    assert AfterTruckPhrase(r.vehicleType, Lower(text), env) == Some(env.vehicles[i].1);
  }

  /** An utterance that says "truck" always leaves a vehicle type recorded. */
  lemma TruckMentionFillsVehicle(r: Record, text: string, env: Env)
    requires Contains(Lower(text), "truck")
    ensures Truthy(ExtractBookingInfo(r, text, env).vehicleType)
  {
  }

  /** When the vehicle is still empty after the truck phrase, a size in feet
      gives "<digits> Feet". */
  lemma FeetFallback(r: Record, text: string, env: Env, m: seq<string>)
    requires !Truthy(AfterTruckPhrase(r.vehicleType, Lower(text), env))
    requires env.search(FeetSize, Lower(text)) == Some(m)
    ensures ExtractBookingInfo(r, text, env).vehicleType == Some(Group(m, 1) + " Feet")
  {
  }

  /** Without the truck phrase, a recorded vehicle type is kept. */
  lemma VehicleKeptWithoutPhrase(r: Record, text: string, env: Env)
    requires env.search(TruckPhrase, Lower(text)).None? && Truthy(r.vehicleType)
    ensures ExtractBookingInfo(r, text, env).vehicleType == r.vehicleType
  {
  }

  /** Without the confirmation form, the from/to form sets a location exactly
      when the field is empty or its cleaned capture is strictly longer: a
      location it changes was empty or gets longer, and is that capture. */
  lemma FromToLongerWins(r: Record, text: string, env: Env)
    requires env.search(PickupDropEcho, Lower(text)).None?
    ensures var r' := ExtractBookingInfo(r, text, env);
      && Len(r'.pickupLocation) >= Len(r.pickupLocation)
      && Len(r'.dropLocation) >= Len(r.dropLocation)
    ensures var r' := ExtractBookingInfo(r, text, env);
      && (r'.pickupLocation != r.pickupLocation ==>
            !Truthy(r.pickupLocation) || Len(r'.pickupLocation) > Len(r.pickupLocation))
      && (r'.dropLocation != r.dropLocation ==>
            !Truthy(r.dropLocation) || Len(r'.dropLocation) > Len(r.dropLocation))
    ensures var r', m := ExtractBookingInfo(r, text, env), env.search(FromTo, Lower(text));
      && (r'.pickupLocation != r.pickupLocation ==> m.Some? && r'.pickupLocation == Some(Cleaned(Group(m.value, 1))))
      && (r'.dropLocation != r.dropLocation ==> m.Some? && r'.dropLocation == Some(Cleaned(Group(m.value, 2))))
    ensures var r', m := ExtractBookingInfo(r, text, env), env.search(FromTo, Lower(text));
      m.Some? ==>
        && ((!Truthy(r.pickupLocation) || |Cleaned(Group(m.value, 1))| > Len(r.pickupLocation)) ==>
              r'.pickupLocation == Some(Cleaned(Group(m.value, 1))))
        && ((!Truthy(r.dropLocation) || |Cleaned(Group(m.value, 2))| > Len(r.dropLocation)) ==>
              r'.dropLocation == Some(Cleaned(Group(m.value, 2))))
  {
  }

  /** The confirmation form wins over everything before it, as soon as the
      cleaned location has more than two characters. */
  lemma EchoOverrides(r: Record, text: string, env: Env, m: seq<string>)
    requires env.search(PickupDropEcho, Lower(text)) == Some(m)
    ensures |EchoLocation(Group(m, 1))| > 2 ==>
      ExtractBookingInfo(r, text, env).pickupLocation == Some(EchoLocation(Group(m, 1)))
    ensures |EchoLocation(Group(m, 2))| > 2 ==>
      ExtractBookingInfo(r, text, env).dropLocation == Some(EchoLocation(Group(m, 2)))
  {
  }

  /** Cutting the prefixes only removes a leading part: in lower case, the
      result is a suffix of the input. */
  lemma {:induction false} StripPrefixesSuffix(s: string, prefixes: seq<string>)
    ensures |StripPrefixes(s, prefixes)| <= |s|
    ensures Lower(StripPrefixes(s, prefixes)) == Lower(s)[|s| - |StripPrefixes(s, prefixes)|..]
    decreases |prefixes|
  {
    if prefixes != [] {
      var p := prefixes[0];
      var next := if StartsWith(Lower(s), p) then Title(s[|p|..]) else s;
      if StartsWith(Lower(s), p) {
        TitleAfterLower(s[|p|..], false);
        assert Lower(s[|p|..]) == Lower(s)[|p|..];
      }
      assert |next| <= |s| && Lower(next) == Lower(s)[|s| - |next|..];
      StripPrefixesSuffix(next, prefixes[1..]);
      var out := StripPrefixes(next, prefixes[1..]);
      assert Lower(s)[|s| - |next|..][|next| - |out|..] == Lower(s)[|s| - |out|..];
    }
  }

  /** Which prefix is cut: a value without any of the prefixes is kept as it
      is; one starting with "at " loses it; one starting with "in " loses it
      and, when the rest starts with neither "from " nor "at ", is that rest
      title-cased; one starting with "from " loses it and, when the rest does
      not start with "at ", is that rest title-cased. */
  lemma StripPrefixesCases(s: string)
    ensures (forall k :: 0 <= k < |EchoPrefixes| ==> !StartsWith(Lower(s), EchoPrefixes[k])) ==>
      StripPrefixes(s, EchoPrefixes) == s
    ensures StartsWith(Lower(s), "at ") ==> StripPrefixes(s, EchoPrefixes) == Title(s[3..])
    ensures StartsWith(Lower(s), "in ") && !StartsWith(Lower(Title(s[3..])), "from ") && !StartsWith(Lower(Title(s[3..])), "at ") ==>
      StripPrefixes(s, EchoPrefixes) == Title(s[3..])
    ensures StartsWith(Lower(s), "from ") && !StartsWith(Lower(Title(s[5..])), "at ") ==>
      StripPrefixes(s, EchoPrefixes) == Title(s[5..])
  {
    if StartsWith(Lower(s), "at ") {
      assert Lower(s)[0] == 'a';
      assert !StartsWith(Lower(s), "in ") && !StartsWith(Lower(s), "from ");
    }
    if StartsWith(Lower(s), "from ") {
      assert Lower(s)[0] == 'f';
      assert !StartsWith(Lower(s), "in ");
    }
  }

  /** The date keywords, in the order the code tests them. */
  lemma DateKeywords(current: Option<string>, lower: string, today: Day)
    requires !Truthy(current)
    ensures Contains(lower, "today") || Contains(lower, "now") ==>
      ExtractDate(current, lower, today) == Some(Iso(today))
    ensures !Contains(lower, "today") && !Contains(lower, "now") && Contains(lower, "tomorrow") ==>
      ExtractDate(current, lower, today) == Some(Iso(NextDay(today)))
    ensures !Contains(lower, "today") && !Contains(lower, "now") && !Contains(lower, "tomorrow") && Contains(lower, "overmorrow") ==>
      ExtractDate(current, lower, today) == Some(Iso(NextDay(NextDay(today))))
    ensures !Contains(lower, "today") && !Contains(lower, "now") && !Contains(lower, "tomorrow") && !Contains(lower, "overmorrow") ==>
      ExtractDate(current, lower, today) == current
  {
    if Contains(lower, "day after tomorrow") {
      DayAfterTomorrowContainsTomorrow();
      ContainsTransitive(lower, "day after tomorrow", "tomorrow");
    }
  }

  lemma DayAfterTomorrowContainsTomorrow()
    ensures Contains("day after tomorrow", "tomorrow")
  {
    ContainsAt("day after tomorrow", "tomorrow", 10);
  }

  /** As written, "day after tomorrow" resolves to the day after the reference
      date, not two days after it: the "tomorrow" test comes first and matches. */
  lemma DayAfterTomorrowIsTomorrow(current: Option<string>, lower: string, today: Day)
    requires !Truthy(current)
    requires Contains(lower, "day after tomorrow") && !Contains(lower, "today") && !Contains(lower, "now")
    ensures ExtractDate(current, lower, today) == Some(Iso(NextDay(today)))
    ensures ExtractDate(current, lower, today) != Some(Iso(NextDay(NextDay(today))))
  {
    DayAfterTomorrowContainsTomorrow();
    ContainsTransitive(lower, "day after tomorrow", "tomorrow");
    var d1, d2 := NextDay(today), NextDay(NextDay(today));
    NextPrevInverse(d1);
    IsoRoundTrip(d1);
    IsoRoundTrip(d2);
  }

  /** The evidently intended date rule: the longer phrase is tested before
      "tomorrow", so each phrase keeps its meaning. */
  function IntendedDate(current: Option<string>, lower: string, today: Day): Option<string> {
    if Truthy(current) then current
    else if Contains(lower, "today") || Contains(lower, "now") then Some(Iso(today))
    else if Contains(lower, "day after tomorrow") || Contains(lower, "overmorrow") then Some(Iso(NextDay(NextDay(today))))
    else if Contains(lower, "tomorrow") then Some(Iso(NextDay(today)))
    else current
  }

  /** Under the intended rule "day after tomorrow" reads as two days on, and
      the rule differs from the written one only on that phrase. */
  lemma IntendedDateSpec(current: Option<string>, lower: string, today: Day)
    requires !Truthy(current) && !Contains(lower, "today") && !Contains(lower, "now")
    ensures Contains(lower, "day after tomorrow") ==>
      ParseIso(IntendedDate(current, lower, today).value) == NextDay(NextDay(today))
    ensures !Contains(lower, "day after tomorrow") && !(Contains(lower, "tomorrow") && Contains(lower, "overmorrow")) ==>
      IntendedDate(current, lower, today) == ExtractDate(current, lower, today)
  {
    IsoRoundTrip(NextDay(NextDay(today)));
  }

  /** A pass that changes the trip date records a date that reads back as the
      reference date, the day after it, or the day after that. */
  lemma DateReadsBack(r: Record, text: string, env: Env)
    requires ExtractBookingInfo(r, text, env).tripDate != r.tripDate
    ensures var d := ParseIso(ExtractBookingInfo(r, text, env).tripDate.value);
      d == env.today || d == NextDay(env.today) || d == NextDay(NextDay(env.today))
  {
    IsoRoundTrip(env.today);
    IsoRoundTrip(NextDay(env.today));
    IsoRoundTrip(NextDay(NextDay(env.today)));
  }

  /** Running the pass a second time on the same text changes nothing: every
      value it writes is one that its own guards then keep. */
  lemma ExtractIdempotent(r: Record, text: string, env: Env)
    ensures ExtractBookingInfo(ExtractBookingInfo(r, text, env), text, env) == ExtractBookingInfo(r, text, env)
  {
    var r1 := ExtractBookingInfo(r, text, env);
    var lower := Lower(text);
    IsoRoundTrip(env.today);
    IsoRoundTrip(NextDay(env.today));
    IsoRoundTrip(NextDay(NextDay(env.today)));
    LocationIdempotent(r.pickupLocation, r.dropLocation, lower, env.search);
  }

  lemma LocationIdempotent(pickup: Option<string>, drop: Option<string>, lower: string, search: Search)
    ensures var once := EchoPair(FromToPair(pickup, drop, lower, search).0, FromToPair(pickup, drop, lower, search).1, lower, search);
      EchoPair(FromToPair(once.0, once.1, lower, search).0, FromToPair(once.0, once.1, lower, search).1, lower, search) == once
  {
  }

  /** The confirmation echo, run twice on the same text, changes nothing more. */
  lemma ConfirmationIdempotent(r: Record, text: string, search: Search)
    ensures ExtractFromConfirmation(ExtractFromConfirmation(r, text, search), text, search) == ExtractFromConfirmation(r, text, search)
  {
  }
}
