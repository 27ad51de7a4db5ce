# Guest-book front end: list, search and form logic

This project models the non-rendering logic of a guest-management web front
end (Buku Tamu) that keeps three collections through a REST API: rooms
(`ruangan`), employees (`daftarPegawai`) and visitors (`daftarTamu`). Each
collection has a List screen, a Create screen and an Edit screen.

What is modelled:

- **The list mirror** (module `Mirror`, instantiated by `RuanganScreens`,
  `PegawaiScreens`, `TamuScreens`). A list screen fetches the collection once
  on mount. A successful fetch replaces the mirror and clears the error. A
  failed one stores `err.message`. The rooms list first refuses to fetch
  without a truthy token. The search box filters the mirror at render time.
  A delete is issued only after the prompt is confirmed. After the server
  accepts it, the mirror becomes `mirror.filter(r => r._id !== id)`.
- **The search filters.** Text fields are lower-cased and matched against the
  lower-cased keyword. Phone numbers and the room's floor (`lantai.toString()`)
  are matched against the raw keyword. An absent field counts as `""`, and so
  does an absent embedded reference or one given only as an id string.
- **The forms** (module `Forms`). `handleChange` writes one field. Submit is
  blocked, with the message "Semua field harus diisi!" and no request, when a
  required field is falsy. A successful create clears every field. A
  successful update navigates back to the list. A failure shows
  `err.response?.data?.message || err.message || <default>`. The cancel
  button resets the form. An Edit screen's load truncates dates with
  `substring(0, 10)` or `substring(0, 16)` and replaces an embedded reference
  by its `_id`.

The remote calls are oracle inputs (`Http.Reply`). Every handler returns the
requests it issued, so "no network call" is stated as `requests == []`. The
confirmation prompt is a boolean input. JavaScript values are modelled only as
far as the screens use them (`Js`): `null` and `undefined` are one `Missing`
value, a form is a `map<string, Value>` as in `{...prev, [name]: value}`,
lower-casing covers ASCII letters, and numbers are integers.

Behaviour of the code worth stating on its own:

- A delete removes every record carrying the id, because the code filters;
  with unique ids this is a single removal.
- There is no generation counter or last-request-wins rule in the code, so a
  late fetch response is not discarded. The model has one fetch per mount.
- A failed list fetch stores `err.message` as it is. When that message is
  empty or absent, the error is falsy and the screen shows the old mirror
  instead of an error (`Mirror.FetchThenRows`).
- An Edit screen reads the reference id with `?._id`. A reference sent as a
  bare id string therefore loads as `undefined`, and the form cannot be saved
  until a value is chosen again (`PegawaiScreens.UnembeddedRoomBlocksUpdate`).

## Model

| member | source | states |
|---|---|---|
| Js.Lower | src/components/DaftarPegawai/List.jsx:57 | lower-casing keeps the length, leaves no upper-case ASCII letter and changes nothing else |
| Js.LowerIdempotent | src/components/DaftarPegawai/List.jsx:57 | lower-casing an already lower-cased keyword changes nothing |
| Js.LowerAppend | src/components/DaftarTamu/List.jsx:49 | lower-casing distributes over concatenation, so typing a character lower-cases just that character |
| Js.Includes | src/components/DaftarPegawai/List.jsx:60 | `s.includes(k)` holds exactly when `k` occurs in `s` at some index |
| Js.IncludesEmpty | src/components/DaftarTamu/List.jsx:52 | every string includes the empty keyword |
| Js.IncludesShorterKeyword | src/components/Ruangan/List.jsx:65 | a string that includes `k + e` includes `k` |
| Js.IncludesInEmpty | src/components/DaftarPegawai/List.jsx:64 | the `""` that replaces a missing field includes only the empty keyword |
| Js.IncludesNeedsFirstChar | src/components/DaftarPegawai/List.jsx:63 | a keyword whose first character is absent from `s` is not found in `s` |
| Js.Substring0 | src/components/DaftarPegawai/Edit.jsx:49 | `substring(0, n)` is the prefix of length `min(n, length)` |
| Js.Substring0Idempotent | src/components/DaftarTamu/Edit.jsx:45 | a truncated date truncated again is unchanged |
| Js.NatToString | src/components/Ruangan/List.jsx:66 | a natural number prints as non-empty decimal digits with no leading zero; zero prints as "0" |
| Js.NatToStringRoundTrip | src/components/Ruangan/List.jsx:66 | the printed digits read back as the number |
| Js.IntToString | src/components/Ruangan/List.jsx:66 | an integer prints with a leading `-` exactly when negative, then digits |
| Js.IntToStringRoundTrip | src/components/Ruangan/List.jsx:66 | the printed integer reads back as the integer |
| Js.IntToStringInjective | src/components/Ruangan/List.jsx:66 | two different floor numbers never print the same |
| Http.ErrorMessage | src/components/DaftarPegawai/Create.jsx:81-85 | the shown error is the server message if truthy, else `err.message` if truthy, else the default; never empty when the default is not |
| Http.ErrorMessageIsFirstFilled | src/components/DaftarPegawai/Edit.jsx:59-63 | the error is the first truthy link of the chain `server || message || default` |
| Records.RefId | src/components/DaftarPegawai/Edit.jsx:52 | `ref?._id` is defined exactly for an embedded record and then is its id |
| Records.OrNull | src/components/DaftarTamu/Create.jsx:43 | `ref \|\| null` keeps a truthy reference and turns a falsy one into `null` |
| Records.OrNullIdempotent | src/components/DaftarTamu/Create.jsx:43 | applying `\|\| null` a second time changes nothing |
| Mirror.Filter | src/components/DaftarPegawai/List.jsx:56-66 | the filtered list is an order-preserving subsequence holding every passing record as often as the mirror does, and no failing one |
| Mirror.FilterKeepsAll | src/components/DaftarTamu/List.jsx:48-58 | when every record passes, the filtered list is the mirror itself |
| Mirror.FilterMonotone | src/components/Ruangan/List.jsx:61-69 | a weaker test keeps a superset, in the same order |
| Mirror.RemoveId | src/components/DaftarPegawai/List.jsx:84 | after removal no record has the id, every other record keeps its multiplicity and order, and an absent id changes nothing |
| Mirror.RemoveIdIdempotent | src/components/DaftarTamu/List.jsx:76 | removing the same id twice equals removing it once |
| Mirror.RemoveIdCommutes | src/components/Ruangan/List.jsx:90 | two deletes of different ids give the same mirror in either order |
| Mirror.FindIndex | src/components/DaftarTamu/Create.jsx:42 | the index found is the first whose id matches; none is found only when no id matches |
| Mirror.Find | src/components/DaftarTamu/Create.jsx:42 | `find` returns the first record with the id, or nothing when none has it |
| Mirror.Fetch | src/components/DaftarPegawai/List.jsx:23-44 | one GET; success replaces the mirror and clears the error, failure keeps the mirror and stores `err.message`; loading ends false |
| Mirror.Rows | src/components/DaftarPegawai/List.jsx:51-66 | rows are shown only when not loading and the error is falsy, and then they are the mirror's passing records, in order and each as often as in the mirror |
| Mirror.FetchThenRows | src/components/DaftarTamu/List.jsx:30-45 | after a fetch the table shows the filtered new data, or only the error when `err.message` is truthy |
| Mirror.Delete | src/components/DaftarPegawai/List.jsx:69-98 | a declined prompt issues nothing and changes nothing; a confirmed one issues one DELETE; success removes every record with the id and keeps the rest in order; failure keeps the mirror and shows "Gagal menghapus data" |
| Mirror.DeleteAbsentIsNoOp | src/components/DaftarPegawai/List.jsx:84 | deleting an id absent from the mirror leaves it unchanged, whatever the prompt and reply |
| Mirror.DeleteTwice | src/components/DaftarTamu/List.jsx:71-76 | a second successful delete of the same id leaves the mirror as the first left it |
| Forms.Change | src/components/DaftarPegawai/Create.jsx:35-41 | the named field holds the typed text and every other field reads as before |
| Forms.Blank | src/components/DaftarPegawai/Create.jsx:8-15 | the initial form has exactly the required fields, each `""` |
| Forms.Validate | src/components/DaftarPegawai/Create.jsx:48-55 | the form passes exactly when every required field is truthy |
| Forms.BlankFailsValidation | src/components/Ruangan/Create.jsx:8-12 | a blank form never passes the required-field check |
| Forms.ChangeAndValidate | src/components/DaftarPegawai/Edit.jsx:73-79 | filling one required field with text makes the form pass exactly when the other required fields are truthy |
| Forms.SubmitCreate | src/components/DaftarPegawai/Create.jsx:44-89 | a falsy field blocks with the fixed message and no request; otherwise one POST of the form, success clears every field, failure keeps the form and shows the error chain; loading ends false |
| Forms.BlockedCreateIgnoresReply | src/components/DaftarPegawai/Create.jsx:48-58 | a blocked create gives the same outcome whatever the server would answer |
| Forms.CreatePostsIffFilled | src/components/DaftarPegawai/Create.jsx:48-65 | a POST is issued exactly when all required fields are truthy |
| Forms.CreateThenResubmitIsBlocked | src/components/DaftarPegawai/Create.jsx:71-78 | after a successful create, submitting again is blocked |
| Forms.Body | src/components/Ruangan/Edit.jsx:85-89 | the PUT body is the whole form, or exactly the required fields with the form's values |
| Forms.SubmitEdit | src/components/DaftarPegawai/Edit.jsx:82-121 | a falsy field blocks with no request; otherwise one PUT to the record's path, success navigates to the list, failure shows the error chain with the update default and stays |
| Forms.BlockedEditIgnoresReply | src/components/DaftarPegawai/Edit.jsx:86-96 | a blocked update gives the same outcome whatever the server would answer |
| Forms.Reset | src/components/DaftarPegawai/Create.jsx:92-102 | cancel sets every required field to `""` and clears the error |
| Forms.ResetMatchesCreated | src/components/Ruangan/Create.jsx:50-75 | cancel and a successful create leave the same form and error |
| Forms.LoadWithOptions | src/components/DaftarPegawai/Edit.jsx:37-67 | the record GET, then the dropdown GET only if the first succeeded; the form is replaced only when both succeed; either failure shows the error chain with the load default |
| RuanganScreens.Search | src/components/Ruangan/List.jsx:61-69 | the room list keeps, in order, exactly the rooms whose name or description matches case-insensitively or whose floor text contains the raw keyword |
| RuanganScreens.SearchEmptyKeepsAll | src/components/Ruangan/List.jsx:62-68 | the empty keyword keeps every room |
| RuanganScreens.BareRecordMatchesOnlyEmpty | src/components/Ruangan/List.jsx:65-67 | a room with no fields matches only the empty keyword and never faults |
| RuanganScreens.SearchNarrows | src/components/Ruangan/List.jsx:61-69 | extending the keyword yields a subsequence of the previous result |
| RuanganScreens.FloorNumberFound | src/components/Ruangan/List.jsx:66 | a numeric floor is found by its decimal string |
| RuanganScreens.Fetch | src/components/Ruangan/List.jsx:25-50 | without a truthy token, no request and the login message; otherwise one GET with `Bearer <token>` and the shared fetch outcome |
| RuanganScreens.NoTokenShowsOnlyError | src/components/Ruangan/List.jsx:27-29 | on mount without a token the mirror stays empty and no rows are shown |
| RuanganScreens.Delete | src/components/Ruangan/List.jsx:72-104 | the room delete carries the bearer header; success removes every room with the id and keeps the rest in order; decline or failure keeps the mirror |
| RuanganScreens.LoadForm | src/components/Ruangan/Edit.jsx:39-43 | the loaded form holds exactly the server's name, floor and description |
| RuanganScreens.LoadEdit | src/components/Ruangan/Edit.jsx:32-56 | one GET; success loads the form and clears the error, failure shows the error chain with the load default |
| RuanganScreens.SubmitNeedsThreeFields | src/components/Ruangan/Create.jsx:34-37 | a create or update is sent exactly when name, floor and description are truthy |
| RuanganScreens.CompleteRecordCanBeSaved | src/components/Ruangan/Edit.jsx:75-89 | a room with three truthy fields, loaded and saved unchanged, is sent back as one PUT of exactly those values |
| RuanganScreens.LoadedZeroFloorBlocksUpdate | src/components/Ruangan/Edit.jsx:75-78 | a room loaded with floor number 0 cannot be saved unchanged |
| RuanganScreens.PutBodyHasThreeFields | src/components/Ruangan/Edit.jsx:85-89 | the PUT body has exactly the three fields with the form's values |
| PegawaiScreens.Search | src/components/DaftarPegawai/List.jsx:56-66 | the employee list keeps, in order, exactly the employees matching on staff number, name, position, room name or raw phone |
| PegawaiScreens.SearchEmptyKeepsAll | src/components/DaftarPegawai/List.jsx:57-65 | the empty keyword keeps every employee |
| PegawaiScreens.BareRecordMatchesOnlyEmpty | src/components/DaftarPegawai/List.jsx:60-64 | an employee with no fields and no embedded room matches only the empty keyword and never faults |
| PegawaiScreens.SearchNarrows | src/components/DaftarPegawai/List.jsx:56-66 | extending the keyword yields a subsequence of the previous result |
| PegawaiScreens.SearchExample | src/components/DaftarPegawai/List.jsx:61-63 | of Budi (Staff) and Sari (Manager), "man" keeps only Sari |
| PegawaiScreens.Fetch | src/components/DaftarPegawai/List.jsx:23-44 | one GET of the employee list; success replaces the mirror, failure stores `err.message` |
| PegawaiScreens.Delete | src/components/DaftarPegawai/List.jsx:69-98 | a confirmed, successful delete removes every employee with the id and keeps the rest; decline or failure keeps the mirror |
| PegawaiScreens.LoadForm | src/components/DaftarPegawai/Edit.jsx:46-53 | the loaded form has the six fields, the birth date cut to at most 10 characters, the room replaced by its id |
| PegawaiScreens.LoadEdit | src/components/DaftarPegawai/Edit.jsx:38-67 | the employee GET then the room GET; both must succeed to fill the form; a failure shows the "mengambil" default chain |
| PegawaiScreens.BirthDateStable | src/components/DaftarPegawai/Edit.jsx:49 | loading an already truncated birth date gives it back unchanged |
| PegawaiScreens.CompleteRecordCanBeSaved | src/components/DaftarPegawai/Edit.jsx:86-102 | a complete employee with an embedded room, loaded and saved unchanged, is sent back as one PUT of the loaded form |
| PegawaiScreens.UnembeddedRoomBlocksUpdate | src/components/DaftarPegawai/Edit.jsx:52 | an employee loaded without an embedded room cannot be saved unchanged |
| PegawaiScreens.SubmitNeedsSixFields | src/components/DaftarPegawai/Create.jsx:48-58 | a create or update is sent exactly when all six fields are truthy |
| TamuScreens.Search | src/components/DaftarTamu/List.jsx:48-58 | the visitor list keeps, in order, exactly the visitors matching on name, purpose, host name, host's room name or raw phone |
| TamuScreens.SearchEmptyKeepsAll | src/components/DaftarTamu/List.jsx:49-57 | the empty keyword keeps every visitor |
| TamuScreens.MissingHostContributesNothing | src/components/DaftarTamu/List.jsx:55-56 | a missing or id-only host, or a nameless host without an embedded room, adds nothing to the match and never faults |
| TamuScreens.HostWithoutRoomContributesNothing | src/components/DaftarTamu/List.jsx:55-56 | a host without an embedded room is matched by its own name only; the missing room adds `""` and never faults |
| TamuScreens.SearchNarrows | src/components/DaftarTamu/List.jsx:48-58 | extending the keyword yields a subsequence of the previous result |
| TamuScreens.Fetch | src/components/DaftarTamu/List.jsx:23-38 | one GET of the visitor list; success replaces the mirror, failure stores `err.message` |
| TamuScreens.Delete | src/components/DaftarTamu/List.jsx:61-90 | a confirmed, successful delete removes every visitor with the id and keeps the rest; decline or failure keeps the mirror |
| TamuScreens.Change | src/components/DaftarTamu/Create.jsx:37-50 | the named field changes; choosing a host shows the first matching staff member's room or `null`; other fields leave the shown room alone |
| TamuScreens.ShownRoomBelongsToHost | src/components/DaftarTamu/Create.jsx:41-44 | a shown room is the room of a staff member with the chosen id |
| TamuScreens.Submit | src/components/DaftarTamu/Create.jsx:53-97 | the shared create submit; a successful POST also clears the shown room, otherwise it stays |
| TamuScreens.Reset | src/components/DaftarTamu/Create.jsx:100-110 | cancel clears the fields, the shown room and the error |
| TamuScreens.ResetIsMounted | src/components/DaftarTamu/Create.jsx:8-26 | cancel returns the Create screen to its state on mount |
| TamuScreens.LoadForm | src/components/DaftarTamu/Edit.jsx:41-47 | the loaded form has the five fields, the visit time cut to at most 16 characters, the host replaced by its id |
| TamuScreens.LoadEdit | src/components/DaftarTamu/Edit.jsx:31-59 | the visitor GET then the staff GET; both must succeed to fill the form; a failure shows the chain ending in "Gagal mengambil data" |
| TamuScreens.CompleteRecordCanBeSaved | src/components/DaftarTamu/Edit.jsx:77-92 | a complete visitor with an embedded host, loaded and saved unchanged, is sent back as one PUT of the loaded form |
| TamuScreens.UpdateFailureDefault | src/components/DaftarTamu/Edit.jsx:100-104 | a rejected update with no message shows "Gagal mengupdate data" and does not navigate |
| TamuScreens.SubmitNeedsFiveFields | src/components/DaftarTamu/Create.jsx:57-66 | a create or update is sent exactly when all five fields are truthy |

## Left out

- The HTTP transport (axios). Each call is an oracle reply.
- `Http.Request`: its `authorization` field is only the header passed at the call site (the room list and its delete). The global default `axios.defaults.headers.common["Authorization"]` that App.jsx:43-47 sets whenever a token exists is left out, so the other requests are recorded with `None` although the browser would attach the header.
- `Js.Substring0`: counts characters, while JavaScript's `substring` and `length` count UTF-16 code units; the two differ only for characters outside the Basic Multilingual Plane.
- `Js.IntToString`: prints every digit of an unbounded integer, while a JavaScript number is a double and prints in exponent form from 1e21 on (`"1e+21"`); floors that large are not modelled.
- SweetAlert and `alert` dialogs. The confirmation is a boolean input. The delete notices are kept as data; the other success alerts are dropped.
- React rendering, hooks, the `isLoadingData` spinner and stale-closure behaviour of `setX(x.filter(...))`. A delete is a pure function of the mirror at handler time.
- `console.log` and `console.error`: no observable state.
- Full Unicode `toLowerCase`. Only the ASCII letters A–Z are lower-cased.
- Non-integer numbers and `NaN` in a room's floor. `toString` is modelled for integers only.
- Field values of unexpected type, such as a number where the search calls `toLowerCase`; these would throw in the source.
- The locale-dependent date display `toLocaleString("id-ID")` in the visitor table.
- The dropdown fetches on mount of the Create screens (DaftarPegawai/Create.jsx:27-32, DaftarTamu/Create.jsx:29-34). They only copy the list into the dropdown or log; the loaded staff list enters `TamuScreens.Change` as a parameter.
- The re-run of the room list fetch when the stored token changes. Each run is `RuanganScreens.Fetch`; what triggers it is React's effect scheduling.
- Fetch race ordering, cancellation and generation counters. The code does not implement them.
- Routing, login, registration, logout and the home page (App.jsx, Login.jsx, Register.jsx, Logout.jsx, Home.jsx).
