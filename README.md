# DropTruck voice sales agent — booking extraction and conversation state

This project models the conversation engine of the DropTruck voice sales agent.
The agent talks to a customer, turn by turn. From every utterance, and from
every reply of the chat-completion service, it fills a booking record with:

- the customer's name and mobile number
- pickup and drop locations
- vehicle type and body type
- goods and trip date
- a confirmation status

The modelled parts:

- **Booking record** (`core/prompt.py`): `Booking.Record` as a value and
  `Booking.BookingData` as the object the agent updates in place. Also the
  required fields, the missing-field list, completeness and the dictionary view.
- **Extractors** (`_extract_booking_info`, `_extract_from_confirmation`):
  `Extraction`, one function per field. Each keeps the source's guards, pattern
  order, post-filters and overwrite rules.
  - `re.search` is the parameter `search`, over one `Pattern` tag per regular
    expression; it returns the capture groups of the match.
  - Fuzzy similarity (`fuzz.ratio`) is the parameter `ratio`.
  - The reference date (`datetime.now()`) is the parameter `today`.
- **Supporting modules**:
  - `SpokenDigits`: the spoken-digit scanner (`words_to_digits`), a method with
    its loop.
  - `Keywords`: the keyword tables and their seeding from database names, plus
    the best-match loop.
  - `CivilDate`: the calendar arithmetic behind `+ timedelta(days=n)` and
    `strftime("%Y-%m-%d")`.
  - `Text`: the ASCII string operations.
- **Confirmation status machine**: `Confirmation`.
- **The agent** (`LLMAgent`): `Session.LLMAgent`. It holds:
  - the history
  - the tables
  - `generate_response`, where the service's reply is a parameter and `None`
    stands for a failed call
  - the context window (`_get_recent_messages`)
  - the end-of-call test (`is_call_complete`)

Each method of the agent is proved equal to a function of the old state.
Lemmas then state what the source promises about those functions:

- write-once fields
- the precedence of the truck phrase and of the confirmation echo
- the from/to form never shortens a location, while the confirmation form overrides it whenever its value has more than two characters, shorter or not
- contacts of ten characters
- spoken numbers read back
- the date keywords
- idempotence of an extraction pass
- the status never returning to `pending`
- completeness kept across a turn

Two behaviours of the code are worth knowing, and the model keeps both:

- **Confirm and reject in one utterance.** When an utterance contains both a
  confirmation and a rejection keyword, the status ends `confirmed`. The
  confirmation test runs first and sets `confirmed`; the rejection test then
  fires only on a status that is still `pending` (app/llm.py:646-658).
- **"day after tomorrow".** It resolves to the day after the reference date,
  because "tomorrow" is tested first (app/llm.py:618-620). The code's own
  branch for that phrase (app/llm.py:623-625), which adds two days, cannot be
  reached by it. See "## Findings".

## Model

| member | source | states |
|---|---|---|
| Booking.Fresh | core/prompt.py:32-44 | a new booking has every field `None` and status "pending" |
| Booking.BookingData.constructor | core/prompt.py:32-44 | the object's fields form the fresh record |
| Booking.FieldNameRoundTrip | core/prompt.py:46-49 | the ten attribute names and the field tags correspond one to one |
| Booking.BookingData.UpdateField | core/prompt.py:46-49 | the new state is the old one with the named attribute set; an unknown name changes nothing |
| Booking.UpdatedOnlyNamed | core/prompt.py:46-49 | after `update_field` only the named field differs and it holds the value; an unknown name is a no-op |
| Booking.BookingData.GetMissingFields | core/prompt.py:51-57 | the loop returns the labels of the required fields that are `None`, in declaration order |
| Booking.MissingFieldsExact | core/prompt.py:7-14 | a required label is reported missing exactly when its field is `None`; at most six labels |
| Booking.MissingLabelsExact | core/prompt.py:51-57 | with distinct labels, a label appears exactly when its field is `None` |
| Booking.MissingLabelsBound | core/prompt.py:51-57 | never more labels than required fields |
| Booking.MissingLabelsFrom | core/prompt.py:51-57 | every reported label is one of the required labels |
| Booking.MissingLabelsAppend | core/prompt.py:54-56 | the missing list of a concatenation is the concatenation of the missing lists |
| Booking.CompleteIgnoresOptionalFields | core/prompt.py:59-68 | name, contact, lead source and status do not affect completeness |
| Booking.CompleteVersusMissing | core/prompt.py:51-68 | complete implies nothing missing; nothing missing but incomplete means a required field holds "" |
| Booking.AsDictReadBack | core/prompt.py:70-83 | the dictionary has exactly the ten attribute names as keys and each reads back its field |
| Booking.CompleteByTable | core/prompt.py:7-14 | `is_complete` tests exactly the six fields `REQUIRED_FIELDS` lists: complete iff each listed field is truthy |
| Booking.BookingData.IsComplete | core/prompt.py:59-68 | true exactly when every field of `REQUIRED_FIELDS` holds a non-empty value (`Complete` of the current fields), and then no label is missing (see `CompleteVersusMissing`) |
| Booking.BookingData.ToDict | core/prompt.py:70-83 | `AsDict` of the current fields: exactly the ten attribute names as keys, each mapped to the current value of its field (see `AsDictReadBack`) |
| CivilDate.NextDay | app/llm.py:618-620 | the successor of a valid date is a valid date |
| CivilDate.PrevDay | app/llm.py:618-620 | the predecessor of a valid date after 0001-01-01 is valid |
| CivilDate.NextPrevInverse | app/llm.py:618-625 | successor and predecessor undo each other |
| CivilDate.IsoRoundTrip | app/llm.py:615 | the `%Y-%m-%d` rendering reads back as the same date and is at least ten characters |
| CivilDate.IsoShape | app/llm.py:615 | for four-digit years the rendering is `YYYY-MM-DD`: dashes at 4 and 7, digits elsewhere |
| CivilDate.ValueOfPadded | app/llm.py:615 | zero padding does not change the number written |
| CivilDate.PaddedTwo | app/llm.py:615 | months and days are written with two digits |
| SpokenDigits.WordsToDigits | app/llm.py:369-393 | the scanner returns exactly `Spelled` of the lower-cased words |
| SpokenDigits.DigitsOfWords | app/llm.py:378-393 | the scanning loop returns `Spelled` of its words |
| SpokenDigits.ScanStep | app/llm.py:380-392 | one step appends what the word (or `double`/`triple` plus a digit word) emits and moves past the words used |
| SpokenDigits.SpelledWord | app/llm.py:381-392 | a word not modifying a following digit word emits its own table value |
| SpokenDigits.SpelledModifier | app/llm.py:384-389 | `double X` / `triple X` emit X's digit two / three times and consume X |
| SpokenDigits.SpelledRender | app/llm.py:369-393 | scanning the words of any spoken number (digit words, `double`/`triple` groups, unknown words) gives the number it denotes |
| Keywords.LookupPut | app/llm.py:106-108 | after `t[k] = v`, `k` reads `v` and other keys read as before |
| Keywords.KeysPut | app/llm.py:106-108 | `t[k] = v` keeps key order and appends `k` only when new |
| Keywords.DistinctPut | app/llm.py:106-108 | keys stay distinct under `t[k] = v` |
| Keywords.SeedVehicleKeywords | app/llm.py:38-108 | the seeding loop builds the defaults plus both aliases of every database truck name |
| Keywords.SeededVehiclesLookup | app/llm.py:103-108 | after seeding, an alias reads the last truck name that has it, else its default |
| Keywords.SeededVehiclesExtend | app/llm.py:38-108 | seeding keeps the default keys at the front and keeps keys distinct |
| Keywords.SeedBodyTypes | app/llm.py:470-478 | the body table is the defaults plus each database body name under its lower-case key |
| Keywords.SeededBodiesLookup | app/llm.py:470-478 | after seeding, a body key reads the last database name whose lower-case form it is, else its default |
| Keywords.FirstContainedSpec | app/llm.py:482-488 | the body type found is the value of the first key contained in the text; none exactly when no key is |
| Keywords.BestKeywordMatch | app/llm.py:543-551 | the keyword loop computes `BestMatch` |
| Keywords.BestMatchSpec | app/llm.py:543-551 | no label iff every score is below 65; otherwise the label of the earliest keyword with the highest score |
| Extraction.NonStopWords | app/llm.py:355 | no kept word is a stop word; every kept word comes from the input; every input word that is not a stop word is kept; never more words than given; words stay words |
| Extraction.NonStopWordsAppend | app/llm.py:355 | the filter keeps word order: filtering a concatenation concatenates the filtered parts (with the membership facts above, this pins down the result) |
| Extraction.NameFromCapture | app/llm.py:350-360 | a capture yields a name exactly when its stop-word-free candidate passes the filter (a word, no stop words, two characters, not a listed city), and the name is that candidate |
| Extraction.FirstYieldSpec | app/llm.py:348-363 | a pattern loop that stops at the first accepted capture finds nothing iff no pattern yields anything, and otherwise the yield of the first pattern that does |
| Extraction.FirstName | app/llm.py:342-363 | no name iff neither pattern's capture survives the filter; otherwise the name of the first pattern whose capture does, which passes the filter |
| Extraction.ExtractName | app/llm.py:342-363 | a filled name is kept; on an empty one the "my name is" pattern's accepted name is taken, else the bare "name" pattern's, else nothing changes; a new name passes the filter |
| Extraction.FirstPhone | app/llm.py:403-417 | no number iff no pattern's capture has ten characters once spaces and dashes are removed; otherwise the first such stripped capture |
| Extraction.ExtractContact | app/llm.py:367-417 | a filled contact is kept; on an empty one a spoken mobile number wins, else the first numeric pattern's ten-character number, else nothing changes |
| Extraction.ScanContact | app/llm.py:367-417 | the contact step, with the scanning loop, computes `ExtractContact` |
| Extraction.MatchBody | app/llm.py:468-488 | the body step, with this call's table, computes `ExtractBody` |
| Extraction.MatchVehicle | app/llm.py:537-571 | the vehicle step, with the keyword loop, computes `ExtractVehicle` |
| Extraction.FirstMaterial | app/llm.py:577-596 | no material iff no pattern's cleaned capture exceeds two characters; otherwise the first such cleaned capture |
| Extraction.EchoMaterial | app/llm.py:598-607 | the "material X" form yields a value exactly when it matches and its cleaned capture has more than two characters, and the value is that cleaned capture |
| Extraction.ExtractGoods | app/llm.py:575-607 | a filled goods type is kept; on an empty one the first material pattern's value is taken, else the "material X" form's, else nothing changes |
| Extraction.ExtractBookingInfo | app/llm.py:329-627 | lead source and status untouched; filled name, contact, goods and date and a present body type are kept; an empty name takes the first accepted name, an empty contact a spoken mobile number, an empty goods type the first material; any new name, contact or goods value is the one the patterns or the spoken scan yield |
| Extraction.RunPass | app/llm.py:329-627 | running the steps one after another, with the body table built on this call, gives the pass |
| Extraction.SpokenContactAccepted | app/llm.py:396-400 | a spoken mobile number becomes the contact of a record without one, whatever digits the text also holds |
| Extraction.TruckPhraseDecides | app/llm.py:537-557 | the truck phrase overrides any recorded vehicle with the earliest highest-scoring label when some score reaches 65 |
| Extraction.TruckMentionFillsVehicle | app/llm.py:537-571 | an utterance saying "truck" always leaves a vehicle type recorded |
| Extraction.FeetFallback | app/llm.py:559-565 | when the vehicle is still empty after the truck phrase, a feet match sets it to "<digits> Feet" |
| Extraction.VehicleKeptWithoutPhrase | app/llm.py:496-571 | without the truck phrase a recorded vehicle type is kept |
| Extraction.FromToLongerWins | app/llm.py:425-440 | without the confirmation form, the from/to capture replaces a location exactly when the field is empty or the capture is strictly longer; a changed location was empty or got longer, and is that capture |
| Extraction.EchoOverrides | app/llm.py:444-466 | the confirmation form sets a location whenever its cleaned value exceeds two characters |
| Extraction.StripPrefixesCases | app/llm.py:450-455 | a value without "in ", "from " or "at " is kept; a leading "at " is cut and the rest title-cased; a leading "in " is cut and the rest title-cased when that rest has no further prefix; a leading "from " is cut and the rest title-cased when that rest does not start with "at " |
| Extraction.StripPrefixesSuffix | app/llm.py:451-455 | prefix cutting only removes a leading part: in lower case the result is a suffix of the input |
| Extraction.DateKeywords | app/llm.py:612-627 | an empty date becomes today for "today"/"now", else tomorrow for "tomorrow", else two days on for "overmorrow"; otherwise unchanged |
| Extraction.DayAfterTomorrowIsTomorrow | app/llm.py:618-627 | as written, "day after tomorrow" yields the next day, not two days on |
| Extraction.IntendedDateSpec | app/llm.py:612-627 | with the longer phrase tested first, "day after tomorrow" reads as two days on, and nothing else changes except texts with both "tomorrow" and "overmorrow" |
| Extraction.DateReadsBack | app/llm.py:612-627 | a date written by a pass reads back as today, tomorrow or the day after |
| Extraction.ExtractIdempotent | app/llm.py:329-627 | a second pass over the same text changes nothing |
| Extraction.LocationIdempotent | app/llm.py:425-466 | the two location rules applied twice equal once |
| Extraction.EchoNameAt | app/llm.py:295-303 | the "name X" form yields its cleaned capture exactly when that is not a listed city |
| Extraction.ExtractEchoName | app/llm.py:294-303 | a filled name is kept; an empty one takes what the "name X" form yields, if anything |
| Extraction.FirstEchoPhone | app/llm.py:306-327 | no number iff no pattern gives ten characters (a single group, or all groups joined); otherwise the first pattern's number that does |
| Extraction.ExtractEchoContact | app/llm.py:306-327 | a filled contact is kept; an empty one takes the first ten-character number of the three patterns, else nothing changes |
| Extraction.ExtractFromConfirmation | app/llm.py:286-327 | only name and contact can change and filled ones are kept; an empty name takes an accepted "name X" capture, and a new name is that cleaned capture and not a listed city; an empty contact takes the first echo number, and a new contact is that ten-character number |
| Extraction.ConfirmationIdempotent | app/llm.py:286-327 | a second echo pass over the same text changes nothing |
| Confirmation.DetectConfirmationSpec | app/llm.py:629-658 | from pending: confirmed iff a confirmation keyword occurs, not_interested iff only a rejection keyword does, pending iff neither; any other status is kept |
| Confirmation.RejectionInsideWord | app/llm.py:653-658 | substring matching makes "now" count as the rejection "no" |
| Session.SliceFromEnd | app/llm.py:282 | a negative slice start `-n` keeps the last `n` elements |
| Session.RecentMessagesSpec | app/llm.py:269-284 | the window is all system messages plus the last 2 * bound others; a bound of 0 keeps all |
| Session.SystemsOthersPartition | app/llm.py:278-281 | the split by role loses and adds no message |
| Session.Systems | app/llm.py:278 | only system messages are kept |
| Session.Others | app/llm.py:281 | no system message is kept |
| Session.LastAssistantSpec | app/llm.py:210-214 | the message found is an assistant message with none after it; none iff there is no assistant message |
| Session.LLMAgent.IsCallComplete | app/llm.py:201-234 | the backward scan answers whether the last assistant message is non-empty and holds the marker or a closing phrase |
| Session.MarkerClosesCall | app/llm.py:176-177 | a reply carrying BOOKING_CONFIRMED ends the call |
| Session.MarkerConfirms | app/llm.py:175-177 | a reply carrying BOOKING_CONFIRMED leaves the status `confirmed` after the turn, whatever it was, `not_interested` included |
| Session.TurnHistoryAppends | app/llm.py:155-188 | a turn only appends to the history, at most two messages, and the last assistant message becomes the reply if there is one |
| Session.TurnPreserves | app/llm.py:129-199 | over a turn a decided status is never undone, and it changes only to confirmed and only when the online reply carries the marker; filled write-once fields keep their values, and a complete booking stays complete |
| Session.LLMAgent.IsBookingComplete | app/llm.py:682-689 | true exactly when every required field of the agent's booking holds a non-empty value (`BookingData.IsComplete`), and then no label is missing (see `CompleteVersusMissing`) |
| Session.CompleteIsStable | app/llm.py:682-689 | one extraction pass never makes a complete booking incomplete |
| Session.LLMAgent.constructor | app/llm.py:15-126 | history holds the system prompt only with a key; fresh booking; both tables seeded from the database names |
| Session.LLMAgent.ExtractBookingInfo | app/llm.py:329-627 | the booking's new state is `Extraction.ExtractBookingInfo` of the old one |
| Session.LLMAgent.ExtractFromConfirmation | app/llm.py:286-327 | the booking's new state is `Extraction.ExtractFromConfirmation` of the old one |
| Session.LLMAgent.DetectConfirmation | app/llm.py:629-658 | only the status changes, to `DetectConfirmation` of the old status |
| Session.LLMAgent.HearUser | app/llm.py:142-146 | the customer's words update the booking by extraction, then detection |
| Session.LLMAgent.HearReply | app/llm.py:169-180 | the reply updates the booking by extraction, the echo, then the marker |
| Session.LLMAgent.GenerateResponse | app/llm.py:129-199 | blank input answers the repeat prompt and changes nothing; without a key the echo answer; otherwise history, window, booking and answer as `TurnRecord`/`TurnHistory`/`TurnResponse` describe, each extraction pass with its own body names and date |

## Findings

| source | as written | input that shows it | evidently intended | confidence | as-written member | corrected member |
|---|---|---|---|---|---|---|
| app/llm.py:618-627 | "tomorrow" is tested before "day after tomorrow", so the later branch is reached only by "overmorrow" | "day after tomorrow" with an empty trip date | the reference date plus two days | high; not executed | Extraction.DayAfterTomorrowIsTomorrow | Extraction.IntendedDateSpec |

The extraction pass (`Extraction.ExtractDate`) keeps the order the code has, so
the model of the agent behaves as written. `Extraction.IntendedDate` is the
corrected rule, with its property proved beside it.

## Left out

- The chat-completion call (`_call_openai`, HTTP, the model name, temperature, token limit): its reply is a parameter of `GenerateResponse`, `None` standing for any failure.
- The database client: the truck and body names it returns are parameters. A failing or empty query is an empty list. The body query that `_extract_booking_info` makes on every call is a parameter of each pass; within one turn the pass over the customer's words and the pass over the reply each get their own.
- Regular-expression matching: each pattern is an abstract `search` over a `Pattern` tag. What a pattern matches in a given text is not modelled, only what the code does with the groups.
- `fuzz.ratio`: an abstract scorer. The first fuzzy stage (app/llm.py:496-531) is not modelled because it never assigns anything: `best_vehicle` is never set there.
- `datetime.now()`: the parameter `today`, one per extraction pass. Reaching year 10000 raises `OverflowError` in Python, and the model does not raise.
- Logging, console output, environment variables (the key is passed in resolved), the system prompt text (a parameter), `get_booking_data` (the `booking` field itself), `get_conversation_summary` and `BookingData.__str__`.
- Unicode: lower-casing, title-casing, whitespace and splitting are modelled for ASCII only.
- `update_field` with the name of a method or other non-data attribute: only the ten data attributes are modelled.
- Exceptions raised inside extraction during a turn are not modelled.
- Extraction.TruckPhraseDecides: stated for tables whose labels are all non-empty. An empty label is never assigned (app/llm.py:553), and the lemma does not describe that case.
- CivilDate.IsoShape: stated for four-digit years only.
