# Flood SOS: a verified model of its request rules

Flood SOS is a small emergency-reporting system with two parts:

- a Next.js front end, where people in a flood send an SOS form, volunteers offer help, and everyone can browse hazard alerts and relief camps;
- a Django REST backend, which stores SOS requests, help offers and relief camps and lists them for coordinators.

Most of the code is presentation. This project models the layer of rules underneath it and proves properties of that model:

- **api.dfy**, from `flood-sos/lib/api.ts`. The encoders turn the SOS form and the help-offer form into snake_case request bodies. Two pure decoders are proved to be their inverses: the SOS decoder on canonical forms (one for each class of forms sent alike), the help-offer decoder on every form. Reading either JSON body back, each field from the entry under its key, gives the payload. `handleResponse` sorts HTTP statuses into ok (200–299, as in section 2.2.3 of the WHATWG Fetch Standard), 204 No Content (section 15.3.5 of RFC 9110) and errors of the form `API <status>: <text>`.
- **sos_page.dfy**, from `flood-sos/app/page.tsx`. This is the SOS page's state: the form, `loading`, the success message and the error message. Each transition is a pure function, and the class `HomePage` has one method per handler. Each method is proved to change its fields exactly as its function says.
- **hazard_map.dfy**, from `flood-sos/app/map/page.tsx`. This covers the hazard filter chips and the alert list they select from the mock data.
- **help_page.dfy**, from `flood-sos/app/help/page.tsx`. This covers the camp district filter and the offer form's `submitting`/`message` sequence, both as pure functions and as the class `HelpPage`.
- **records.dfy**, from `flood-sos-backend/flood_sos/sos/models.py`. It holds the stored records, their field constraints (one validity predicate per model), their choice lists and defaults, and the `__str__` display strings. The display strings are proved to read back.
- **list_views.dfy**, from `flood-sos-backend/flood_sos/sos/views.py`. The SOS list is newest first, with an optional case-insensitive district filter and an exact status filter. The relief-camp list holds the active camps, ordered by district.
- **wire_contract.dfy** joins the two halves:
  - the client's body keys are columns of the backend model;
  - the client's initial form encodes to the model's default record;
  - the serializers strip surrounding whitespace from text columns before validating them;
  - a form whose selects hold their options and whose typed text fits is accepted by the backend exactly when name and phone hold something besides whitespace, so the page's own check lets through a blank-looking name that the backend rejects.
- **text.dfy** and **seqs.dfy** hold the shared vocabulary:
  - decimal rendering and parsing (JavaScript template literals, `Number` on digit strings);
  - ASCII lower-casing (`toLowerCase`, `__iexact`) and code-point string order (`order_by` on a text column);
  - whitespace stripping as Python's `str.strip()` does it (the serializers' `CharField`);
  - last occurrence of a character;
  - `Array.prototype.filter`, and sorting under a total preorder (`order_by`, where ties may come out in any order).
- **wrappers.dfy** declares `Option` and `Result`.

The network is modelled as a value. An `Exchange` is either a response (status, body text, status text, and the error `res.json()` raises when the body is not JSON) or a failed `fetch` carrying its message. A timestamp is an integer instant.

## Model

| member | source | states |
|---|---|---|
| Api.ToNumber | flood-sos/lib/api.ts:64 | `Number(text)` on a digit string of at most 15 digits is its decimal value, which the double holds exactly; longer digit strings and any other text stay unevaluated |
| Api.OrEmpty | flood-sos/lib/api.ts:55-58 | the logical-or fallback to `""` gives back every string unchanged, because the empty string is the only falsy string |
| Api.NullIfEmpty | flood-sos/lib/api.ts:50 | the logical-or fallback to `null` is null exactly for the empty string and is the string otherwise |
| Api.EmptyIfNull | flood-sos/lib/api.ts:54 | the nullish fallback to `""` is `""` for null and the captured string otherwise |
| Api.NumberOrNull | flood-sos/lib/api.ts:63-65 | null exactly when the text is empty, otherwise `Number(text)` |
| Api.NumberOrOne | flood-sos/lib/api.ts:67-69 | 1 when the text is empty, otherwise `Number(text)` |
| Api.EncodeSos | flood-sos/lib/api.ts:46-74 | the text fields are copied verbatim; `alternate_phone_number` is null iff the phone is empty; `gps_location` is `""` iff none was captured; `needs_medicine` is always false; `need_power` and `need_water` are renames; battery is null iff empty; people is 1 when empty, else the parsed digits (an empty count and "1" encode alike) |
| Api.EncodeHelpOffer | flood-sos/lib/api.ts:85-92 | the four required fields are copied verbatim, and `preferred_areas` is the typed text (`""` when empty) |
| Api.SosJson | flood-sos/lib/api.ts:47-74 | the serialised SOS body has exactly the 22 snake_case keys in order; each value has its key's JSON type (text, flag, number, or null for the alternate phone and battery exactly when the payload holds none); `number_of_people` is the payload's number; `need_power` and `need_water` carry their own flags; `needs_medicine` is `false`; which key carries which field is `Api.SosJsonReadsBack` |
| Api.SosJsonReadsBack | flood-sos/lib/api.ts:47-74 | a receiver that takes each field from the entry under the key of that name gets the payload back, so every key carries its own field (swapping two values breaks it) |
| Api.SosJsonKeysFindTheirEntries | flood-sos/lib/api.ts:47-74 | a lookup by any SOS key, as a JSON parser does it, finds the entry at that key's position, the one the read-back takes |
| Api.HelpOfferJson | flood-sos/lib/api.ts:86-92 | the serialised help-offer body has exactly its five keys in order, every value a JSON string; which key carries which field is `Api.HelpOfferJsonReadsBack` |
| Api.HelpOfferJsonReadsBack | flood-sos/lib/api.ts:86-92 | reading each field from the entry under its key gives the payload back, and a lookup by any key finds that entry |
| Api.PayloadKeysDistinct | flood-sos/lib/api.ts:47-92 | no key appears twice in either body |
| Api.NumberTextOfToNumber | flood-sos/lib/api.ts:64 | a number typed as plain digits, with no leading zero and at most 15 digits, is recovered from its `Number` value |
| Api.SosRoundTrip | flood-sos/lib/api.ts:46-74 | decoding the encoded SOS form gives the form back whenever the form is canonical (no empty captured location, a people count typed in, numbers typed as plain digits with no leading zero and at most 15 digits) |
| Api.EmptyCountConflated | flood-sos/lib/api.ts:67-69 | an empty people count and "1" encode identically |
| Api.EmptyLocationConflated | flood-sos/lib/api.ts:54 | no captured location and an empty captured location encode identically |
| Api.LeadingZeroConflated | flood-sos/lib/api.ts:63-65 | "42" and "042" encode identically |
| Api.HelpOfferRoundTrip | flood-sos/lib/api.ts:85-92 | the help-offer encoding is a bijection whose inverse is its decoder, in both directions |
| Api.HandleResponse | flood-sos/lib/api.ts:37-44 | it is an error iff the status is outside 200–299, or the status is ok but not 204 and `res.json()` rejects the body; a bad status's message parses back to the status and the body, or to the status text when the body is empty; the result is `null` iff the status is 204; any other ok status gives the parsed body, or the parser's error when the body is not JSON |
| Api.ApiErrorMessage | flood-sos/lib/api.ts:40 | the message starts with `API `, ends with the detail, and is longer than both together |
| Api.ParseApiErrorOfParts | flood-sos/lib/api.ts:40 | `API ` then a nonempty run of digits, `: ` and a detail reads back into the digits' value and the detail |
| Api.ParseApiErrorOfMessage | flood-sos/lib/api.ts:40 | every `API <status>: <detail>` message reads back into exactly that status and detail |
| Api.Settle | flood-sos/lib/api.ts:76-82 | the adapter's promise rejects with the `fetch` error when there is no response, and otherwise settles as `handleResponse` says, JSON parse failures included |
| Api.SettleExamples | flood-sos/lib/api.ts:37-44 | 201 with a body resolves to the body; 400 rejects with `API 400: bad district`; 404 with an empty body falls back to `Not Found`; 204 resolves to `null` even when its body is not JSON; 200 with an empty body rejects with the JSON parser's error |
| Text.NatToDecimal | flood-sos/lib/api.ts:40 | the decimal rendering of a status is a digit string without leading zeros |
| Text.DecimalOfRendering | flood-sos/lib/api.ts:40 | parsing the rendering of `n` gives `n` |
| Text.RenderingOfDecimal | flood-sos/lib/api.ts:64 | rendering the value of a canonical digit string gives the string back |
| Text.Lower | flood-sos/app/help/page.tsx:54 | keeps the length, lowers each ASCII upper-case letter in place and keeps every other character, so no ASCII upper-case letter is left |
| Text.LowerIdempotent | flood-sos/app/help/page.tsx:54 | lower-casing twice is lower-casing once |
| Text.StrLeTotal | flood-sos-backend/flood_sos/sos/views.py:26 | any two districts are comparable in `order_by` order |
| Text.StrLeTransitive | flood-sos-backend/flood_sos/sos/views.py:26 | the district order is transitive |
| Text.StrLeAntisymmetric | flood-sos-backend/flood_sos/sos/views.py:26 | two districts each ordered before the other are equal |
| Text.Trim | flood-sos-backend/flood_sos/sos/serializers.py:5-8 | the stripped text is no longer than the input and starts and ends with a non-whitespace character; it is empty iff the input is all whitespace |
| Text.TrimOfPadded | flood-sos-backend/flood_sos/sos/serializers.py:5-8 | stripping whitespace added on either side of unpadded text gives that text back |
| Text.TrimIdempotent | flood-sos-backend/flood_sos/sos/serializers.py:5-8 | stripping unpadded text changes nothing, so stripping twice is stripping once |
| Seqs.Filter | flood-sos/app/map/page.tsx:86-88 | `Array.prototype.filter` never lengthens its input |
| Seqs.FilterMembers | flood-sos/app/map/page.tsx:86-88 | an element is kept iff it is in the input and the callback accepts it; no element is kept more often than it occurs |
| Seqs.FilterIsSubsequence | flood-sos/app/map/page.tsx:86-88 | the result is an order-preserving subsequence of the input |
| Seqs.FilterPartition | flood-sos/app/map/page.tsx:74-88 | filtering by a predicate and by its negation splits the input: the multisets and the lengths add up |
| Seqs.FilterKeepsAll | flood-sos/app/map/page.tsx:75 | a callback that accepts every element gives back the input |
| Seqs.FilterCompose | flood-sos-backend/flood_sos/sos/views.py:42-45 | two filters in a row are one filter by the conjunction |
| Seqs.FilterCount | flood-sos-backend/flood_sos/sos/views.py:42-45 | a filter keeps every occurrence of an accepted value and no occurrence of the others |
| Seqs.FilterCongruent | flood-sos-backend/flood_sos/sos/views.py:43 | callbacks that agree on every element filter identically |
| Seqs.FilterKeepsSorted | flood-sos-backend/flood_sos/sos/views.py:42-45 | filtering a sorted list leaves it sorted |
| Seqs.InsertBy | flood-sos-backend/flood_sos/sos/views.py:39 | insertion adds exactly the one element |
| Seqs.InsertBySorted | flood-sos-backend/flood_sos/sos/views.py:39 | inserting into a sorted list keeps it sorted under a total preorder |
| Seqs.SortBy | flood-sos-backend/flood_sos/sos/views.py:39 | `order_by` returns a permutation of its input, sorted by the key order |
| SosPage.Get | flood-sos/app/page.tsx:46-51 | every field's value has that field's type |
| SosPage.Set | flood-sos/app/page.tsx:46-51 | `update(key, value)` gives `key` the value `value` |
| SosPage.SetKeepsOtherFields | flood-sos/app/page.tsx:46-51 | `update(key, value)` leaves every other field unchanged |
| SosPage.FormsEqualByFields | flood-sos/app/page.tsx:46-51 | forms with equal fields are equal, so the two lemmas above determine the updated form |
| SosPage.EmptyFormFields | flood-sos/app/page.tsx:16-38 | the initial form has people "1", no location, every flag false and every other text empty |
| SosPage.HasRequiredFields | flood-sos/app/page.tsx:58 | the page's own check: name and phone are both non-empty |
| SosPage.BrowserAllowsSubmit | flood-sos/app/page.tsx:369-372 | the browser lets the form submit only when the people count is empty or a whole number of at least 1 |
| SosPage.AfterStart | flood-sos/app/page.tsx:53-64 | a press while loading changes nothing and sends nothing (the control is disabled, line 418), and so does a press with a people count the browser rejects (lines 369-372); otherwise both messages are cleared; a missing name or phone sets the missing-fields error and sends nothing; a complete form sets `loading` and sends `EncodeSos(form)` |
| SosPage.AfterFinish | flood-sos/app/page.tsx:63-79 | success resets the form and sets the success message; failure keeps the form and sets `Failed to send request: <message>`; `loading` ends false either way |
| SosPage.AfterSubmit | flood-sos/app/page.tsx:53-80 | a whole press sends something iff the page is idle, the browser accepts the people count and name and phone are filled in; what it sends is `EncodeSos(form)`, and then `loading` ends false |
| SosPage.SubmitWhileLoadingIgnored | flood-sos/app/page.tsx:418 | with a request in flight, a press leaves the page unchanged and sends nothing |
| SosPage.SubmitBlockedByBrowser | flood-sos/app/page.tsx:369-372 | a people count the browser rejects leaves the page unchanged and sends nothing |
| SosPage.SubmitRejectsMissingFields | flood-sos/app/page.tsx:55-61 | with a people count the browser accepts, an empty name or phone ends with the form kept, not loading, no success message, the missing-fields error, and no send |
| SosPage.SubmitSucceeds | flood-sos/app/page.tsx:63-79 | a complete form with a people count the browser accepts, whose send succeeds, ends with the empty form, only the success message, and the encoded form sent |
| SosPage.SubmitFails | flood-sos/app/page.tsx:70-79 | a complete form with a people count the browser accepts, whose send fails, ends with the form kept and only the failure message |
| SosPage.SubmitEndsSettled | flood-sos/app/page.tsx:53-80 | after every press from an idle page `loading` is false; a press the browser lets through leaves at most one message, and a blocked press keeps the page as it was |
| SosPage.ReactionsKeepConsistent | flood-sos/app/page.tsx:41-80 | the initial state, `update`, the start of a submit and its completion all keep the invariant: no message while loading, never both messages |
| SosPage.HomePage.constructor | flood-sos/app/page.tsx:41-44 | the page starts with the empty form, not loading, and no messages |
| SosPage.HomePage.Update | flood-sos/app/page.tsx:46-51 | replaces one field of `form` and nothing else |
| SosPage.HomePage.StartSubmit | flood-sos/app/page.tsx:53-65 | changes the fields as `AfterStart` says, the browser's people-count check included, and returns the payload sent |
| SosPage.HomePage.FinishSubmit | flood-sos/app/page.tsx:65-79 | changes the fields as `AfterFinish` says |
| SosPage.HomePage.HandleSubmit | flood-sos/app/page.tsx:53-80 | one whole press changes the fields as `AfterSubmit` says and keeps the page invariant |
| HazardMap.HazardFilterMatch | flood-sos/app/map/page.tsx:74-81 | "all" matches every kind; "flood" matches exactly the three flood kinds; "landslide" matches exactly the two landslide kinds |
| HazardMap.MatchIsCodePrefix | flood-sos/app/map/page.tsx:7-14 | a category chip matches exactly the kinds whose literal starts with the chip's literal and an underscore |
| HazardMap.CategoriesExclusive | flood-sos/app/map/page.tsx:76-80 | every kind is matched by exactly one of "flood" and "landslide" |
| HazardMap.FilteredStatuses | flood-sos/app/map/page.tsx:86-88 | an alert is listed iff it is in the data and its hazard matches the chip; "all" lists the data unchanged |
| HazardMap.FilteredStatusesIsSubsequence | flood-sos/app/map/page.tsx:86-88 | the listed alerts keep their order in the data |
| HazardMap.FloodLandslidePartition | flood-sos/app/map/page.tsx:74-88 | the flood list and the landslide list together are the full list, counted with multiplicity |
| HazardMap.MockFloodResults | flood-sos/app/map/page.tsx:26-72 | on the mock data, "flood" lists the Colombo, Gampaha and Ratnapura alerts, and the header shows 3 |
| HazardMap.MockLandslideResults | flood-sos/app/map/page.tsx:26-72 | on the mock data, "landslide" lists the Kegalle and Nuwara Eliya alerts, and the header shows 2 |
| HazardMap.MockAllResults | flood-sos/app/map/page.tsx:206 | with "all" the header shows 5 |
| HazardMap.AlertCount | flood-sos/app/map/page.tsx:206 | the header count never exceeds the number of mock alerts and equals it for "all" |
| HelpPage.FilteredCamps | flood-sos/app/help/page.tsx:52-56 | an empty selection lists the camps unchanged; otherwise a camp is listed iff its lower-cased district equals the selection |
| HelpPage.FilteredCampsCount | flood-sos/app/help/page.tsx:52-56 | with a district selected, each camp of that district is listed as often as it occurs in the list, and every other camp not at all |
| HelpPage.FilteredCampsIsSubsequence | flood-sos/app/help/page.tsx:52-56 | the listed camps keep their original order |
| HelpPage.UpperCaseSelectionMatchesNothing | flood-sos/app/help/page.tsx:54 | only the camp side is lower-cased, so a selection containing an upper-case letter lists nothing |
| HelpPage.MockCampOptions | flood-sos/app/help/page.tsx:120-123 | each of the options colombo, gampaha and kegalle lists exactly one mock camp |
| HelpPage.MockCampsWithinCapacity | flood-sos/app/help/page.tsx:19-47 | no mock camp shelters more people than its capacity |
| HelpPage.AfterOfferStart | flood-sos/app/help/page.tsx:61-64 | a press while submitting changes nothing (the control is disabled, line 224); otherwise `submitting` is set and the message cleared |
| HelpPage.AfterOfferFinishAsWritten | flood-sos/app/help/page.tsx:72-75 | the thank-you message is set; only with the form element still attached are the inputs reset and `submitting` cleared |
| HelpPage.DetachedTargetLeavesOfferStuck | flood-sos/app/help/page.tsx:61-75 | as written, a completed offer leaves `submitting` set, so every later press is ignored |
| HelpPage.AfterOfferFinish | flood-sos/app/help/page.tsx:72-75 | corrected: the message is set, the inputs are cleared and `submitting` is false |
| HelpPage.OfferCompletes | flood-sos/app/help/page.tsx:61-75 | corrected: an offer from an idle form ends idle with the thank-you message and empty inputs, and the next press is accepted |
| HelpPage.HelpPage.constructor | flood-sos/app/help/page.tsx:50-59 | no district is selected, every camp is listed, and the offer form is idle and empty |
| HelpPage.HelpPage.SelectDistrict | flood-sos/app/help/page.tsx:116-117 | sets the selection and leaves the offer state unchanged |
| HelpPage.HelpPage.EnterOffer | flood-sos/app/help/page.tsx:178-209 | replaces the typed offer and nothing else |
| HelpPage.HelpPage.StartOfferHelp | flood-sos/app/help/page.tsx:61-64 | changes the offer state as `AfterOfferStart` says |
| HelpPage.HelpPage.FinishOfferHelp | flood-sos/app/help/page.tsx:72-75 | changes the offer state as the corrected `AfterOfferFinish` says |
| HelpPage.HelpPage.HandleOfferHelp | flood-sos/app/help/page.tsx:61-76 | corrected: one press from idle ends idle, thanked and with empty inputs, with the selection unchanged |
| Records.ChoicesMatchEnumerations | flood-sos-backend/flood_sos/sos/models.py:17-68 | the water-level, emergency-type and status choice lists hold exactly one code per value, and each value has a distinct code; the first two agree with flood-sos/types/sos.ts |
| Records.ChoicesHaveNoDash | flood-sos-backend/flood_sos/sos/models.py:38-46 | no emergency-type choice contains an en dash |
| Records.ValidSosRequest | flood-sos-backend/flood_sos/sos/models.py:6-70 | name and phone are required within 200 and 15 characters; the other text columns are within their lengths; water level and emergency type are blank or a choice; battery and people are not negative; status is a choice |
| Records.ValidHelpOffer | flood-sos-backend/flood_sos/sos/models.py:76-80 | name, phone and district are required within 200, 32 and 100 characters, details are required, preferred areas are free |
| Records.ValidReliefCamp | flood-sos-backend/flood_sos/sos/models.py:88-92 | name, district and location are required within 255, 100 and 255 characters; capacity and occupancy are not negative |
| Records.NewSosRequest | flood-sos-backend/flood_sos/sos/models.py:6-68 | a request created with only name and phone has status "new", one person, every flag false, no alternate phone or battery, and creation time now; it is valid iff name and phone are non-empty and within 200 and 15 characters |
| Records.NewReliefCamp | flood-sos-backend/flood_sos/sos/models.py:87-102 | a new camp is active; it is valid iff name, district and location are filled in within their lengths and both counts are non-negative |
| Records.LabelledRoundTrip | flood-sos-backend/flood_sos/sos/models.py:104-105 | `"<name> (<district>)"` splits back into name and district when the district holds no opening parenthesis |
| Records.SosRequestStr | flood-sos-backend/flood_sos/sos/models.py:72-73 | the display string is the three parts plus six separator characters |
| Records.HelpOfferStr | flood-sos-backend/flood_sos/sos/models.py:84-85 | the display string starts with `Help from `, ends with `)`, and adds 13 characters to name and district |
| Records.ReliefCampStr | flood-sos-backend/flood_sos/sos/models.py:104-105 | the display string starts with the name, ends with `)`, and adds 3 characters to name and district |
| Records.SosRequestStrRoundTrip | flood-sos-backend/flood_sos/sos/models.py:72-73 | `"<full_name> (<district>) – <emergency_type>"` reads back into its three parts |
| Records.HelpOfferStrRoundTrip | flood-sos-backend/flood_sos/sos/models.py:84-85 | `"Help from <helper_name> (<helper_district>)"` starts with "Help from " and reads back into name and district |
| ListViews.NewestFirstIsPreorder | flood-sos-backend/flood_sos/sos/views.py:39 | the `-created_at` order is a total preorder |
| ListViews.ByDistrictIsPreorder | flood-sos-backend/flood_sos/sos/views.py:26 | the `district` order is a total preorder |
| ListViews.ListSosRequests | flood-sos-backend/flood_sos/sos/views.py:38-46 | the listing is no longer than the stored requests, and every listed request is stored and matches both given filters |
| ListViews.ListSosRequestsSpec | flood-sos-backend/flood_sos/sos/views.py:38-46 | the list is newest first; it holds each stored request matching both given filters (district ignoring case, exact status) as often as it is stored, and nothing else; with neither parameter it is a reordering of all requests |
| ListViews.DistrictQueryIgnoresCase | flood-sos-backend/flood_sos/sos/views.py:42-43 | district parameters equal up to case give the same list |
| ListViews.ActiveCamps | flood-sos-backend/flood_sos/sos/views.py:26 | the camp list is no longer than the stored camps, and every listed camp is stored and active |
| ListViews.ActiveCampsSpec | flood-sos-backend/flood_sos/sos/views.py:26 | the camp list is in ascending district order and holds every active camp as often as it is stored, and no inactive one |
| WireContract.SosKeysAreModelFields | flood-sos/lib/api.ts:47-74 | every key of the SOS body is a `SosRequest` column the client may send |
| WireContract.HelpOfferKeysAreModelFields | flood-sos/lib/api.ts:86-92 | every key of the help-offer body is a `HelpOffer` column |
| WireContract.SosBodyCoversModel | flood-sos-backend/flood_sos/sos/models.py:4-70 | every `SosRequest` column is either sent by the client or server-only (id, timestamps, status, internal notes) |
| WireContract.ReceiveSos | flood-sos-backend/flood_sos/sos/serializers.py:5-8 | a body is read iff its numbers are integers; then each of its ten text columns is stored stripped of surrounding whitespace (a null alternate phone stays null), the two choice columns are kept as sent, the eight flags are copied, the battery is null exactly when sent as null and otherwise its integer, and the people count is its integer; the unsent columns take their defaults: status "new", empty notes, both timestamps now |
| WireContract.TrimNullable | flood-sos-backend/flood_sos/sos/models.py:8 | a null alternate phone stays null, and a sent one is stored stripped and no longer than sent |
| WireContract.ReceivedForm | flood-sos-backend/flood_sos/sos/serializers.py:5-8 | a form whose selects hold their options and whose typed text fits is read; name and phone are stored stripped, the district, water level, emergency type and people count as chosen, and every other column fits its length |
| WireContract.ServerAcceptsFilledForms | flood-sos/app/page.tsx:58-61 | for forms whose selects hold their options and whose typed text fits the model's lengths, the backend accepts the encoded body iff name and phone hold something besides whitespace; everything it accepts passes the page's own check |
| WireContract.BlankNamePassesPageOnly | flood-sos/app/page.tsx:58-61 | a name of one space passes the page's check and the browser's, and the backend rejects it |
| WireContract.EmptyFormIsDefaultRecord | flood-sos/app/page.tsx:16-38 | the initial form with a name and phone typed in arrives as exactly the model's default record for the stripped name and phone |
| WireContract.ReceiveHelpOffer | flood-sos-backend/flood_sos/sos/serializers.py:11-14 | an offer is stamped with the time it arrives, and each of its five text columns is stored stripped: the sent text with its surrounding whitespace removed |
| WireContract.HelpOfferAcceptance | flood-sos-backend/flood_sos/sos/models.py:75-80 | an encoded offer is valid iff name, phone, district and details hold something besides whitespace and, stripped, fit their lengths, whatever the preferred areas; the preferred areas are stored stripped |

## Left out

- Network and I/O: `fetch`, `JSON.stringify`, `res.json()`, the base URL and the POST paths. A send is an `Exchange` value. The JSON body of an ok response is kept as text. Whether `res.json()` accepts it is an input of the model: the parser's error message, or none.
- Api.ToNumber: `Number` is modelled only on digit strings of at most 15 digits. Longer digit strings stay unevaluated: the double rounds them above 2^53, and from 10^21 up `JSON.stringify` writes them in exponent form, which the backend's integer field rejects. Decimals, signs, exponents, whitespace and `NaN` stay unevaluated too. So WireContract.ReceiveSos reads no body whose numbers are not such digit strings, although the real serializer would store `NaN` (sent as JSON null) as a missing battery level and reject negative or fractional counts.
- Api.SosJson: battery text that `Number` turns into `NaN` (such as `50%`) is serialised by `JSON.stringify` as null, the same body as an empty battery. The model keeps such text as an unevaluated number, so it does not show that conflation; the round trip is claimed only for plain digits.
- The `console.error` call in the SOS page's failure path (flood-sos/app/page.tsx:71) is not modelled; it only writes a diagnostic.
- `handleSubmit`'s fallback message for a thrown non-`Error` is not modelled. The adapter only ever rejects with an `Error`.
- Floating-point display code is not modelled: the geolocation capture and its rounding, camp occupancy percentages, and number formatting. A captured location is an opaque optional string.
- React rendering, the layout and the input components are not modelled.
- Asynchronous interleaving is modelled only as a start transition and a finish transition. `loading`/`submitting` gate both, as the disabled submit controls do.
- The help-offer handler's timer, `FormData` and console logging are not modelled. It never calls `submitHelpOffer`. The help form has no required-field check in code, because the `required` attribute is not passed through to the input elements, so no validator is modelled.
- Text.Lower: ASCII only. JavaScript's `toLowerCase` also lowers non-ASCII letters (`É` to `é`) and can change the length (`İ` becomes two code units), so camps whose district holds such letters are filtered as if those letters were already lower case.
- SosPage.BrowserAllowsSubmit: a people count is judged by its value only when it is a digit string. Other text the number input can hold (`2.0`, `1e1`, a sign) is taken as blocked, although the browser accepts some of it. The state keeps only the input's value, so unparsable text (value `""`, which the browser flags as bad input and blocks) is modelled as an empty count and let through.
- WireContract.ServerAcceptsFilledForms: stated only for forms whose battery and people texts are digit strings of at most 15 digits. The battery input is a plain text input (flood-sos/app/page.tsx:336-342) that takes any text, and the model reads only digit strings as numbers.
- `__iexact` is modelled as ASCII lower-casing. Database collation is not modelled, and `order_by` compares code points. Ties in `order_by` may come out in any order, so only sortedness and permutation are stated.
- Timestamps are integer instants. `auto_now` is modelled only as "set to now on creation".
- `PositiveIntegerField` is modelled by its lower bound 0. Its database-dependent upper bound is not modelled.
- The DRF serializers are modelled only through the fields they read, the whitespace stripping of their `CharField`s, and the model validation they apply. Coercion of other JSON types to text and booleans is not modelled. URL routing and `api_health` are not modelled.
- `buildingType` of flood-sos/types/sos.ts is not part of this model. It is absent from the form type the pages use.

## Findings

| source | as written | input that shows it | evidently intended | confidence | as-written member | corrected member |
|---|---|---|---|---|---|---|
| flood-sos/app/help/page.tsx:74-75 | `e.currentTarget.reset()` runs after the `await`. By then React has cleared the event's `currentTarget`, so the call throws and `setSubmitting(false)` never runs. | any offer submitted from the idle form | take the form element before the `await`, reset it, then clear `submitting` | high, not executed | HelpPage.DetachedTargetLeavesOfferStuck | HelpPage.OfferCompletes |
