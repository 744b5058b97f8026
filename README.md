# Boats, slips and loads: a verified model of the request handlers

This project models the marina REST service's boat, slip and load handlers in Dafny:
`boats.py`, `slips.py` and `loads.py`. Every handler is a short chain of checks followed by at
most one or two writes. The checks cover content type, Accept header, existence, required keys,
character class, and a uniqueness or occupancy scan.

The Cloud Datastore client becomes the class `Datastore.Client`. It holds three maps from entity
id to record (boats, slips, loads) and an id allocator. Each handler that writes the store is
modelled twice:

- a pure decision function `XxxSpec(store, inputs)`, which gives the status code, the echoed
  entity and the store afterwards;
- an imperative method `Xxx(db, inputs)`. It runs the checks in the source's order, scans with
  loops, updates the fetched record and then writes it. Its postcondition ties the new state
  and the answer to the decision function applied to the old state.

The properties the code promises are proved about the decision functions: which check decides
which status, that every failure leaves the store unchanged, and what exactly each success
writes. Lemmas relate several handlers: invariants such as "boat names are distinct",
assign-then-release, and pagination completeness. The three GETs of one entity and the slip
listing are single methods whose postconditions state their answer. The load listing is a method
whose postcondition equals a specification function, `Loads.ListSpec`, so that the pagination
lemmas can reason about it.

Files:

- `json_values.dfy`: `Wrappers.Option`, and the JSON value type with the Python semantics the
  handlers rely on (truthiness, `in`, `isinstance(v, int)`).
- `datastore.dfy`: the records, the store snapshot, the `Client` class and the `Http` vocabulary
  (status codes, request inputs, links, outcomes).
- `boats.dfy`, `slips.dfy`, `loads.dfy`: the three resource modules.

Request inputs are abstract:

- `isJson` and `acceptsJson` stand for `request.is_json` and the Accept test.
- The parsed body is a JSON value. For boats it is `None` when `get_json()` raised.
- Path ids are integers. Where the raw path string matters, a path id is a `PathId(raw, key)`.
- The order in which a kind query returns entities is an input `order` holding every id once.
- The datastore's "more results" signal for paging is a boolean input.

Where the source would raise (`set()` on an integer name, `content["name"]` on a body without
it, `del` at index `None`), that input is excluded by `requires`. A few preconditions are
narrower than that: names and types are strings and path ids are numeric (see "## Left out").

## Model

| member | source | states |
|---|---|---|
| JsonValues.ContainsInString | boats.py:46 | On a string, `key in content` holds whenever `key` occurs in it, after any prefix and before any suffix |
| JsonValues.StringContainsSplits | boats.py:46 | Conversely, a string passes `key in content` only if it is some prefix, then `key`, then some suffix; a string body without the key is missing it |
| Boats.CompleteBodyIsDict | boats.py:46-56 | A body that passes the missing-key test is a dict holding name, type and length, so the reads that follow are defined |
| Datastore.Client.AllocateId | boats.py:77-81 | The key `put` gives a new entity is positive and is used by no boat, slip or load |
| Boats.ValidTextCharByChar | boats.py:54-55 | The set-difference test accepts a name or type exactly when every character is an ASCII letter or whitespace |
| Boats.DigitsRejected | boats.py:54-55 | A name containing a digit is rejected; the empty string is accepted |
| Boats.NameInUse | boats.py:63-74 | The scan over every stored boat reports true exactly when some boat already has the candidate name |
| Boats.NegotiationFailure | boats.py:15-42 | Not JSON gives 415, then not accepting JSON gives 406, then a body that fails to parse gives 415; no failure iff all three pass |
| Boats.PostSpec | boats.py:13-87 | Fixed check order: 415, 406, 415, missing key 400, invalid value 400, duplicate name 403 (iff the name is taken), and 201 whenever all of them pass. Every failure leaves the store unchanged. A 201 adds exactly one boat under the new id, holding the body's name, type and length, with `self` = base URL + id |
| Boats.Post | boats.py:13-87 | The handler's checks, scan and single write yield exactly PostSpec's status, echoed boat and new store; the store stays valid |
| Boats.PutSpec | boats.py:105-187 | 404 comes after negotiation and before body validation. Body checks are as in POST; the uniqueness scan includes the target. A valid body with a free name on an existing boat always gets 303. A 303 replaces only that boat's name, type and length, keeps its loads and id, and returns Location = the request URL. Failures change nothing |
| Boats.Put | boats.py:105-187 | The imperative handler yields exactly PutSpec's outcome |
| Boats.PatchSpec | boats.py:189-283 | Each of name, type and length is validated and applied only when present and truthy, in that order; the name is checked for character class and then uniqueness. For an existing boat: 403 iff the active name is valid and taken; 400 iff the first failing step is the name's class, the type or the length; 200 iff every step passes. Any 400/403/404 leaves the store unchanged. A 200 writes only that boat: each field is the body's value if active, else the old value |
| Boats.Patch | boats.py:189-283 | The step-by-step update of the fetched boat, with a single write at the end, yields exactly PatchSpec's outcome |
| Boats.DeleteSpec | boats.py:285-301 | 404 iff the boat is absent, with nothing changed; otherwise only that boat is removed and slips and loads are untouched (no cascade) |
| Boats.Delete | boats.py:285-301 | The handler yields exactly DeleteSpec's outcome |
| Boats.Get | boats.py:313-325 | 404 iff absent; otherwise the stored boat with its id and `self` = the request URL |
| Boats.PostKeepsBoatsWellFormed | boats.py:46-79 | Create preserves the invariant: every stored boat has a valid name, type and length, and no two boats share a name |
| Boats.PutKeepsBoatsWellFormed | boats.py:148-180 | Replace preserves the same invariant |
| Boats.PatchKeepsBoatsWellFormed | boats.py:232-279 | Partial update preserves the same invariant |
| Boats.DeleteKeepsBoatsWellFormed | boats.py:285-301 | Delete preserves the same invariant |
| Boats.PutOwnNameRefused | boats.py:166-176 | PUT with a well-formed body that repeats the boat's own current name answers 403 and changes nothing |
| Boats.PatchOwnNameRefused | boats.py:241-252 | PATCH that re-sends the boat's own non-empty name answers 403 and changes nothing |
| Boats.PatchSkipsFalsyFields | boats.py:232-283 | A dict body whose values are all falsy ("" , 0, false, null) is defined, answers 200 and leaves the store exactly as it was |
| Slips.NumberBodyIsDict | slips.py:17-22 | A body that passes the missing-`number` test of POST is a dict holding `number` |
| Slips.PostSpec | slips.py:13-26 | 400 iff the body is falsy or lacks `number`, with nothing changed; otherwise a 201 adds exactly one slip under the new id, holding the given number and an empty `current_boat` |
| Slips.Post | slips.py:13-26 | The handler yields exactly PostSpec's outcome |
| Slips.List | slips.py:28-36 | 200, with one entry per scanned slip in scan order, each the stored slip tagged with its id; every stored slip appears |
| Slips.PatchSpec | slips.py:44-62 | The missing-`number` 400 comes before the 404, so a string or list body holding "number" gets 404 for an absent slip. A 200 sets the number, clears `current_boat` and changes nothing else |
| Slips.Patch | slips.py:44-62 | The handler yields exactly PatchSpec's outcome |
| Slips.DeleteSpec | slips.py:64-74 | 404 iff the slip is absent, with nothing changed; otherwise only that slip is removed |
| Slips.Delete | slips.py:64-74 | The handler yields exactly DeleteSpec's outcome |
| Slips.Get | slips.py:76-85 | 404 iff absent; otherwise the stored slip with its id |
| Slips.ParkedScan | slips.py:112-119 | The loop over all slips reports true exactly when some slip's `current_boat` equals the raw path string |
| Slips.AssignSpec | slips.py:95-123 | 404 iff the slip or the boat is absent (checked first). A 403 means the slip is occupied or the scan matched. A 204 sets only the target slip's `current_boat`, to the boat's integer id. Failures change nothing |
| Slips.Assign | slips.py:95-123 | The handler yields exactly AssignSpec's outcome |
| Slips.ReleaseSpec | slips.py:125-142 | 204 iff the slip and the boat exist and the slip holds exactly that boat; then only that slip is emptied. Otherwise 404 and nothing changes |
| Slips.Release | slips.py:125-142 | The handler yields exactly ReleaseSpec's outcome |
| Slips.AssignThenReleaseRestores | slips.py:121-142 | A successful assign followed by the release of the same pair answers 204 and restores the original store |
| Slips.ScanNeverMatches | slips.py:117-121 | As written, the occupancy scan compares null or int values with a string, so it never matches |
| Slips.BoatParkedTwice | slips.py:106-123 | Concrete input: boat 7 in slip 1, slip 2 empty. PUT /slips/2/7 answers 204 and boat 7 then occupies two slips |
| Slips.AssignIntendedSpec | slips.py:104-123 | With the scan comparing against the integer id: 404 iff the slip or the boat is absent; 403 iff both exist and the slip is occupied or some slip already holds the boat; 204 iff both exist, the slip is empty and no slip holds the boat, and then only that slip gains the boat. Nothing is echoed and failures change nothing |
| Slips.AssignIntendedKeepsOneSlipPerBoat | slips.py:113-123 | The corrected assign preserves "a boat sits in at most one slip" |
| Slips.OtherSlipHandlersKeepOneSlipPerBoat | slips.py:13-142 | Create, renumber, delete and release also preserve that invariant |
| Loads.LoadBodyIsDict | loads.py:18-23 | A body that passes the missing-key test is a dict holding volume, item and creation_date |
| Loads.PostSpec | loads.py:14-29 | 400 iff the body is falsy or lacks volume, item or creation_date, with nothing changed. A 201 adds exactly one load under the new id, holding those three values unchecked, with no carrier, and `self` = base URL + id |
| Loads.Post | loads.py:14-29 | The handler yields exactly PostSpec's outcome |
| Loads.Window | loads.py:38-40 | The ids fetched for an offset and limit: min(limit, remaining) of them, none past the end, entry i being the id at scan position offset + i |
| Loads.Tagged | loads.py:50-52 | Each fetched load is tagged with its own id, in order |
| Loads.NextLink | loads.py:43-47 | `next` is present iff the store signals more results; it then carries the same limit and offset + limit |
| Loads.ListSpec | loads.py:31-57 | With defaults limit 3 and offset 0, the page holds min(limit, remaining) loads: entry i is the load at scan position offset + i, tagged with its id. `next` follows NextLink |
| Loads.List | loads.py:31-57 | The handler answers 200 with exactly ListSpec's page and `next` |
| Loads.AllPagesStep | loads.py:43-47 | Following `next` once: this offset's page, then the pages from offset + limit exactly when ids remain beyond this page |
| Loads.AllPagesFrom | loads.py:43-55 | Following `next` from any offset, with an exact "more results" signal, lists exactly the loads from that offset on, in order |
| Loads.AllPagesComplete | loads.py:31-57 | Starting at offset 0 with any positive limit, the pages reached by following `next` list every stored load exactly once, in scan order |
| Loads.PutSpec | loads.py:65-71 | 200, and only the load's `name` changes, to the body's value |
| Loads.Put | loads.py:65-71 | The handler yields exactly PutSpec's outcome |
| Loads.FirstMatch | loads.py:88-89 | The index found is the first entry whose `id` equals the raw path string; None means no entry matches |
| Loads.FindEntry | loads.py:88-89 | The search loop returns exactly FirstMatch |
| Loads.RemoveAt | loads.py:92 | Deleting index i drops that entry and shifts the later ones down by one |
| Loads.DeleteSpec | loads.py:73-95 | 404 iff the load is absent. The load record and all slips are never changed. With no carrier the store is unchanged and the answer is 204. With a carrier, only that boat changes: its loads list is the old one with the first entry whose `id` equals the raw path string removed |
| Loads.Delete | loads.py:73-95 | The handler yields exactly DeleteSpec's outcome |
| Loads.RemovalKeepsOthers | loads.py:88-92 | Removing the first match drops exactly one entry naming the load and keeps every other entry, in order |
| Loads.DeleteUnlistsOnce | loads.py:81-93 | A delete of a carried load removes exactly one matching entry from the carrier's list and keeps all others in order |
| Loads.Get | loads.py:97-108 | 404 iff absent; otherwise the stored load with its id and `self` = the request URL |
| Loads.DeletedLoadSurvives | loads.py:73-95 | Concrete input: load 9 carried by boat 5. DELETE answers 204, load 9 is still stored, and a second DELETE of it raises |
| Loads.DeleteIntendedSpec | loads.py:73-95 | The corrected delete answers 404 iff the load is absent, changing nothing; a 204 unlists the load like DeleteSpec, removes exactly that load record, leaves every slip as it was and echoes nothing |
| Loads.DeleteIntendedIsFinal | loads.py:73-95 | With the corrected delete, a second DELETE of the same load is defined, answers 404 and changes nothing |

## Left out

- Flask routing, `make_response`, headers and error-message bodies. Only the status codes, the
  echoed entities, `self`/Location links and the store are modelled.
- The 405 branch of `/boats/<bid>` (boats.py:342-348) and the "Method not recognized" answers
  (slips.py:38-39, 87-88; loads.py:59-60, 110-111). They are reached only by HEAD requests,
  which Flask sends to the view of any GET route; HEAD is not modelled. The 405 branch of the
  POST-only `/boats` route (boats.py:94-100) and the "Method not recognized" answer of
  `/slips/<slip_id>/<boat_id>` (slips.py:144-145), a route without GET, cannot be reached.
- The Accept test of boat GET (boats.py:305 and boats.py:327) and the `json2html` rendering.
  Both depend on werkzeug's MIME matching, which is not part of this model. Boats.Get models the
  existence check and the JSON answer.
- `get_json()` for slips and loads. The framework's own 400/415 answers on malformed bodies are
  not part of this model; the body is taken as already parsed.
- The datastore client: network calls and real key allocation. Keys come from a counter above
  every stored id; `next_page_token` is a boolean input.
- Uncaught exceptions are preconditions, not behaviour. These are:
  - `set()` on a number, boolean or null name or type;
  - `key in content` on a number, boolean or null body (boats.py:46, 148, 232; slips.py:17, 48;
    loads.py:18), excluded by the body-definedness predicates such as Slips.NumberDefined and
    Boats.PatchBodyDefined;
  - indexing a string or list body that passed the membership test (boats.py:54, 232;
    slips.py:22, 58; loads.py:22);
  - PUT on a missing load or a body without `name`;
  - a load DELETE whose carrier boat is gone or lists no matching entry.
- Boats.FullBodyDefined and Boats.PatchBodyDefined require names and types to be strings. The
  source also accepts a list or dict there (`set()` of one does not raise), stores it, and
  answers 201, 303 or 200; boat names in this model are strings only.
- Path ids are taken as numbers. `int()` on a non-numeric id raises, but in the source an
  earlier 415, 406 or 400 (boats.py:107-133, slips.py:48-49) answers first; the model does not
  cover those answers for a non-numeric id.
- Boats.PostSpec: a new boat is stored with an empty `loads` list, whereas the source stores no
  `loads` key at all. No handler of this core reads that key from a new boat.
- Datastore.Load: `carrier` is kept as the carrier boat's id. Only its truthiness and its `id`
  are read (loads.py:81-84).
- Loads.ListSpec: negative `limit` and `offset` are excluded by precondition. Their
  behaviour depends on the datastore client.
- Loads.AllPagesComplete: assumes the "more results" signal is exactly "ids remain beyond this
  page", and that the collection does not change between pages.
- Concurrency: the scan-then-write races in the uniqueness and occupancy checks. Each handler is
  an atomic step.
- Empty entities: the source treats an entity with no properties as absent (`not boat`). Stored
  records always have properties, so that case is not modelled.
- oauth.py, login.py, owners.py, state_generator.py and main.py are not part of this model.

## Findings

| source | as written | input that shows it | evidently intended | confidence | as-written member | corrected member |
|---|---|---|---|---|---|---|
| slips.py:117-121 | The "already parked elsewhere" scan compares each stored `current_boat` (null or the int written at line 121) with the raw string `boat_id`, so it never matches | Boat 7 in slip 1, slip 2 empty: PUT /slips/2/7 answers 204 and boat 7 occupies two slips | Compare with `int(boat_id)` so that a boat sits in at most one slip | high, not executed | Slips.BoatParkedTwice | Slips.AssignIntendedKeepsOneSlipPerBoat |
| loads.py:73-95 | DELETE unlists the load from its carrier and answers 204, but never deletes the load record | Load 9 carried by boat 5: after DELETE /loads/9 the load is still stored, and a second DELETE raises (`del` at index None) | Delete the load record as well, so that a repeat DELETE answers 404 | high, not executed | Loads.DeletedLoadSurvives | Loads.DeleteIntendedIsFinal |
