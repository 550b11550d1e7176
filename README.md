# Live timing and league server, modelled in Dafny

The repository runs a racing league web site. Its core has three parts:

- **The telemetry service** (`src/services/assettoCorsaUdpService.js`):
  - listens for UDP datagrams from an Assetto Corsa dedicated server;
  - turns each accepted datagram into a session and a driver table, keyed by position in a JavaScript `Map`;
  - pushes a `LIVE_UPDATE` snapshot to every open push-channel client;
  - serves the same snapshot on request;
  - can be reconfigured from a race record (server address, port, UDP send address).
- **The league server** (`server.js`):
  - reads the administrator list from the `ADMIN_USERS` setting;
  - guards routes with `requireAuth` and `requireAdmin`;
  - registers and unregisters users for races, and adds a registered user to the race's championship standing;
  - gives new news items, races and achievements the next free id;
  - recomputes each race's pilot count;
  - restarts the telemetry listener through the two configure routes.
- **The browser reader** (`src/hooks/useLiveData.ts`):
  - prefers the push channel and falls back to polling `/live-timing`;
  - retries the push channel up to five times, 3000 ms apart;
  - can be disconnected.

The Dafny modules follow these parts:

- `js_text.dfy` (module `JsText`): the JavaScript built-ins the core relies on. These are `toString`, `padStart`, `split` and `join` on one character, `trim`, radix-less `parseInt`, `Number` on route parameters, and truthiness.
- `udp_service.dfy` (module `UdpService`):
  - the snapshot datatypes and the pure pieces: port extraction, `formatSessionTime`, the wind compass, the snapshot;
  - a class `AssettoCorsaUdpService` whose methods update its fields. The session, the driver map, the connection flag, the configuration, the client list and the socket state are fields. A ghost history records stop, configure and start.
- `server_routes.dfy` (module `ServerRoutes`):
  - the administrator map as a left fold over the setting's tokens, and the two gates;
  - the participant, standings, id and merge operations as functions with their lemmas;
  - a class `LeagueServer` whose fields are the JSON files as sequences, and whose methods are the routes.
- `live_data.dfy` (module `LiveData`): a class `LiveDataReader`.
  - The hook's six state values form one record, because React applies a handler's setter calls together.
  - The three references and the attempt counter are fields.
  - The browser's live sockets, pending timers, active intervals and requests in flight are fields too, so that "at most one timer" can be stated.
  - Every handler is a method proved equal to a function on the whole state.
  - The invariant and the connection properties are lemmas about those functions.

## Model

| member | source | states |
|---|---|---|
| JsText.NatToString | src/services/assettoCorsaUdpService.js:232 | `n.toString()` is a non-empty digit string, starts with '0' exactly when `n` is 0, and has one character exactly when `n < 10` |
| JsText.DigitsValueOfNatToString | src/services/assettoCorsaUdpService.js:321 | reading the digits of `n.toString()` gives back `n` |
| JsText.PadStart | src/services/assettoCorsaUdpService.js:232 | `padStart` has length the larger of the string's and the width, ends with the string, and is fill characters before it |
| JsText.DigitsValueZeroPrefix | src/services/assettoCorsaUdpService.js:321 | leading zeros added by `padStart` do not change the value of a digit string |
| JsText.ZerosValue | src/services/assettoCorsaUdpService.js:232 | a run of zeros is worth 0 |
| JsText.PaddedDigits | src/services/assettoCorsaUdpService.js:321 | a number whose digits fit the width, padded with zeros, is exactly that wide, all digits, and reads back as itself |
| JsText.NatToStringLength | src/services/assettoCorsaUdpService.js:232 | numbers below 10, 100 and 1000 have at most one, two and three digits |
| JsText.Count | server.js:243 | the count of a character is its multiplicity in the string, at most the length, and 0 exactly when the character is absent |
| JsText.Split | src/services/assettoCorsaUdpService.js:153 | `split` on one character never returns an empty list |
| JsText.SplitCount | src/services/assettoCorsaUdpService.js:154 | the piece count of `split` is the separator count plus one |
| JsText.SplitPiecesHaveNoSeparator | server.js:245 | no piece produced by `split` contains the separator |
| JsText.JoinSplit | server.js:243 | joining the pieces of `split` with the separator gives back the original string |
| JsText.SplitNoSeparator | server.js:243 | a string without the separator splits into itself alone |
| JsText.SplitAt | server.js:245 | splitting `a + sep + b` with `a` separator-free gives `a` followed by the pieces of `b` |
| JsText.SplitJoin | server.js:243 | `split` undoes `join` when no piece contains the separator |
| JsText.SplitPiecesComeFromInput | server.js:245 | every character of every piece occurs in the split string |
| JsText.Trim | server.js:244 | `String.prototype.trim`; its contract is stated by TrimShape, TrimOfTrimmed and TrimPadded |
| JsText.SkipSpaces | server.js:244 | the index returned is the first non-white-space index at or after the start |
| JsText.BackSpaces | server.js:244 | the index returned starts the maximal white-space run that ends the range |
| JsText.TrimShape | server.js:244 | `trim` keeps one slice of the string: everything cut is white space, and the kept text neither starts nor ends with white space |
| JsText.TrimOfTrimmed | server.js:245 | a string with no white space at either end is its own trim |
| JsText.TrimPadded | server.js:244 | `trim` removes exactly the white-space padding around a text whose ends are not white space |
| JsText.HexValue | src/services/assettoCorsaUdpService.js:155 | a hexadecimal digit is worth less than 16 |
| JsText.DigitsEnd | src/services/assettoCorsaUdpService.js:155 | the digit run found by `parseInt` is maximal: every character in it is a digit of the radix, and the next one is not |
| JsText.ParseInt | src/services/assettoCorsaUdpService.js:155 | radix-less `parseInt`: sign, optional `0x`, then the maximal digit run, NaN without digits; its contract is stated by DigitsEnd, ParseIntOfNatToString and ParseIntNoDigits |
| JsText.DigitsRun | src/services/assettoCorsaUdpService.js:155 | every character of the run `parseInt` reads is a digit of the radix |
| JsText.DecimalValueAgrees | src/services/assettoCorsaUdpService.js:155 | on decimal digits the radix-10 value is the plain decimal value |
| JsText.ParseIntOfNatToString | src/services/assettoCorsaUdpService.js:155 | `parseInt` reads back any number written by `toString` |
| JsText.DigitsOfAllDigits | src/services/assettoCorsaUdpService.js:155 | in a string of decimal digits the digit run covers the whole string |
| JsText.ParseIntNoDigits | src/services/assettoCorsaUdpService.js:155 | a string with no decimal digit at all is NaN to `parseInt` |
| JsText.NumberValue | server.js:273 | `Number` of a route parameter: a number is itself; on strings it is stated by NumberOfNatToString |
| JsText.NumberOfNatToString | server.js:663 | an id written with `toString` reads back through `Number` |
| UdpService.PortFromSendAddress | src/services/assettoCorsaUdpService.js:152-157 | the UDP port taken from the send address; stated by PortFromSendAddressShape, PortOfHostAndPort and the fallback lemmas |
| UdpService.ConfigFor | src/services/assettoCorsaUdpService.js:142-183 | the configuration `configureServer` stores; stated by ConfigForWithoutRecord and, for race records, PortFromSendAddressShape |
| UdpService.ConfigForWithoutRecord | src/services/assettoCorsaUdpService.js:150-166 | a falsy argument, or a string or number (which has no race properties), leaves every configuration field at its default |
| UdpService.PortFromSendAddressShape | src/services/assettoCorsaUdpService.js:152-157 | the UDP port differs from 9600 only when the send address has exactly one ':' and the piece after it parses to that non-zero port |
| UdpService.PortFallsBackUnlessOneColon | src/services/assettoCorsaUdpService.js:154 | an address that does not contain exactly one ':' gives port 9600 |
| UdpService.PortOfHostAndPort | src/services/assettoCorsaUdpService.js:153-155 | `"host:port"` with a colon-free host and a positive decimal port gives that port |
| UdpService.PortFallbackNoColon | src/services/assettoCorsaUdpService.js:154 | an address without a colon gives 9600 |
| UdpService.PortFallbackTwoColons | src/services/assettoCorsaUdpService.js:154 | an address with two colons gives 9600 |
| UdpService.PortFallbackEmpty | src/services/assettoCorsaUdpService.js:155 | an empty port piece (NaN) gives 9600 |
| UdpService.PortFallbackZero | src/services/assettoCorsaUdpService.js:155 | a zero port (falsy) gives 9600 |
| UdpService.DriverCount | src/services/assettoCorsaUdpService.js:227 | a datagram writes between 1 and 10 drivers |
| UdpService.GeneratedDriver | src/services/assettoCorsaUdpService.js:229-245 | the driver pushed at index `i`; stated by GeneratedDriverFacts |
| UdpService.GeneratedDriverFacts | src/services/assettoCorsaUdpService.js:229-245 | a generated driver sits at position `i + 1`, its car number is that position in three digits, the leader has no gap and the fixed race time, and the random fields stay in their ranges |
| UdpService.GeneratedDrivers | src/services/assettoCorsaUdpService.js:223-246 | the loop builds exactly `n` drivers |
| UdpService.GeneratedDriversAt | src/services/assettoCorsaUdpService.js:229-246 | the driver at index `j` is the one built for `j` |
| UdpService.GeneratedDriversFacts | src/services/assettoCorsaUdpService.js:229-246 | every generated driver sits at its own position and satisfies the driver facts there |
| UdpService.BuildDrivers | src/services/assettoCorsaUdpService.js:223-246 | the loop returns the generated list: `count` drivers, driver `i` at position `i + 1` |
| UdpService.MapSet | src/services/assettoCorsaUdpService.js:266 | `Map.set`: an existing key keeps its place, a new one goes last; stated by MapSetConsecutive |
| UdpService.Overlay | src/services/assettoCorsaUdpService.js:264-267 | the driver list after the writes; stated by OverlayMeaning and OverlayFits |
| UdpService.MapSetConsecutive | src/services/assettoCorsaUdpService.js:265-267 | setting key `base + j` in a map keyed `base, base + 1, ...` overwrites entry `j` in place or appends it, and keeps the keys consecutive |
| UdpService.MapSetConsecutiveValues | src/services/assettoCorsaUdpService.js:266 | the same step stated on the value list |
| UdpService.OverlayMeaning | src/services/assettoCorsaUdpService.js:264-267 | writing a list over the previous drivers replaces exactly positions `1..n`, keeps the rest, and never shrinks the table |
| UdpService.OverlayStep | src/services/assettoCorsaUdpService.js:265-267 | one more written driver replaces one overlay entry or appends one |
| UdpService.WriteDriverStep | src/services/assettoCorsaUdpService.js:265-267 | one `drivers.set(position, driver)` step keeps the keys `1..m` and extends the overlay by one driver |
| UdpService.OverlayFits | src/services/assettoCorsaUdpService.js:264-267 | writing drivers that fit their positions over drivers that fit theirs leaves every stored driver fitting its position |
| UdpService.FormatSessionTime | src/services/assettoCorsaUdpService.js:318-322 | `M:SS`; stated by FormatSessionTimeRoundTrip and FormatSessionTimeInjective |
| UdpService.FormatSessionTimeRoundTrip | src/services/assettoCorsaUdpService.js:318-322 | the formatted time is `M:SS` with `M = s / 60` and `SS` the zero-padded `s % 60`, and reading it back gives those minutes and seconds |
| UdpService.FormatSessionTimeInjective | src/services/assettoCorsaUdpService.js:318-322 | different durations never format to the same text |
| UdpService.FormatSessionTimeSplit | src/services/assettoCorsaUdpService.js:321 | the formatted time splits at its one ':' into the minutes and the padded seconds |
| UdpService.JsRem | src/services/assettoCorsaUdpService.js:332 | JavaScript `%` by a positive divisor lies strictly between minus and plus the divisor, and for a non-negative dividend is the ordinary remainder |
| UdpService.WindDirection | src/services/assettoCorsaUdpService.js:330-334 | the compass point of a bearing; stated by WindDirectionSector, WindDirectionPeriodic and WindDirectionNegative |
| UdpService.WindDirectionSector | src/services/assettoCorsaUdpService.js:330-334 | a non-negative bearing always names one of the eight points, the one whose 45-degree sector holds it |
| UdpService.WindDirectionPeriodic | src/services/assettoCorsaUdpService.js:330-334 | bearings a full turn apart name the same point; 0 and 360 are both north |
| UdpService.WindDirectionNegative | src/services/assettoCorsaUdpService.js:332-333 | bearings from -337 to -23 give a negative index, which reads `undefined` |
| UdpService.DisconnectedBaseline | src/services/assettoCorsaUdpService.js:351-371 | the fixed object served without a session; stated by SnapshotCases |
| UdpService.Snapshot | src/services/assettoCorsaUdpService.js:350-392 | the snapshot object; stated by SnapshotCases and DemoSessionSnapshot |
| UdpService.SnapshotCases | src/services/assettoCorsaUdpService.js:350-392 | with no session the snapshot is the disconnected baseline, whatever drivers are stored; with a session it lists the stored drivers in insertion order |
| UdpService.DemoSessionTimes | src/services/assettoCorsaUdpService.js:253-254 | the installed session reads "10:00" elapsed and "20:00" remaining |
| UdpService.DemoSessionSnapshot | src/services/assettoCorsaUdpService.js:248-262 | the installed session's snapshot is a race with 10:00 elapsed, 20:00 left and wind from the north-east |
| UdpService.DemoSessionWind | src/services/assettoCorsaUdpService.js:261 | a 45-degree wind reads as north-east |
| UdpService.Deliveries | src/services/assettoCorsaUdpService.js:305-309 | the sends of one fan-out; stated by DeliveriesMeaning |
| UdpService.DeliveriesMeaning | src/services/assettoCorsaUdpService.js:305-309 | every send carries the same message, and the clients reached are exactly the OPEN ones |
| UdpService.AssettoCorsaUdpService.constructor | src/services/assettoCorsaUdpService.js:19-36 | no session, no drivers, not connected, default configuration, no clients, and a created socket that is not bound |
| UdpService.AssettoCorsaUdpService.GetCurrentRaceState | src/services/assettoCorsaUdpService.js:350-392 | the snapshot of the store; stated by SnapshotCases, and by ClearData and OnDatagram for the states they leave |
| UdpService.AssettoCorsaUdpService.OnDatagram | src/services/assettoCorsaUdpService.js:45-58 | any datagram sets the connected flag, so `getConnectionStatus` reads "connected"; a datagram under four bytes changes nothing else and sends nothing; a longer one updates the store, sends nothing without clients, and otherwise sends the new snapshot to the open clients |
| UdpService.AssettoCorsaUdpService.ParseUdpPacket | src/services/assettoCorsaUdpService.js:191-212 | datagrams under four bytes are dropped; others install the session, write the drivers and broadcast the snapshot, which sends nothing without clients |
| UdpService.AssettoCorsaUdpService.UpdateRaceStateWithRealData | src/services/assettoCorsaUdpService.js:219-268 | the session becomes the fixed race session and the driver table becomes the generated list written over the previous drivers, keeping the store invariant |
| UdpService.AssettoCorsaUdpService.WriteDrivers | src/services/assettoCorsaUdpService.js:264-267 | the `forEach` of `drivers.set` keeps the keys `1..m` and leaves the list written over the previous drivers |
| UdpService.AssettoCorsaUdpService.BroadcastUpdate | src/services/assettoCorsaUdpService.js:273-310 | nothing is sent without clients or without a session; otherwise one `LIVE_UPDATE` message holding the current snapshot goes to each open client |
| UdpService.AssettoCorsaUdpService.ConfigureServer | src/services/assettoCorsaUdpService.js:142-183 | the stored and returned configuration is the one the race argument determines, and the history records the configure step |
| UdpService.AssettoCorsaUdpService.StopUdpListener | src/services/assettoCorsaUdpService.js:113-118 | the socket is closed (the constructor always created one), and the history records the stop |
| UdpService.AssettoCorsaUdpService.StartUdpListener | src/services/assettoCorsaUdpService.js:88-108 | a fresh socket listens on the given port, and the history records the start |
| UdpService.AssettoCorsaUdpService.ClearData | src/services/assettoCorsaUdpService.js:397-401 | no session, no drivers, not connected so `getConnectionStatus` reads "disconnected", and the snapshot is the disconnected baseline |
| UdpService.AssettoCorsaUdpService.OnSocketError | src/services/assettoCorsaUdpService.js:39-43 | a socket error leaves the service not connected, so `getConnectionStatus` reads "disconnected", and keeps the store |
| UdpService.AssettoCorsaUdpService.OnClientConnected | src/services/assettoCorsaUdpService.js:69-71 | a client joins the set once: an id already present leaves the set unchanged |
| UdpService.AssettoCorsaUdpService.OnClientReadyState | src/services/assettoCorsaUdpService.js:305-306 | only the ready state of that client changes |
| UdpService.AssettoCorsaUdpService.OnClientGone | src/services/assettoCorsaUdpService.js:73-81 | the client leaves the set and no entry with its id remains |
| ServerRoutes.AddAdminToken | server.js:244-247 | one step of the reduce; stated by PasswordToken, DigitsToken, SteamToken, NameToken and BlankTokenSkipped |
| ServerRoutes.GetAdmins | server.js:241-248 | the administrator map; stated by GetAdminsOfJoin, SingleToken and BlankSettingAdmitsNobody |
| ServerRoutes.GetAdminsOfJoin | server.js:243-248 | the administrators of a comma-joined setting are those read from its tokens, left to right |
| ServerRoutes.BlankTokenSkipped | server.js:244 | a token of white space only adds nothing |
| ServerRoutes.BlankTokensAdmitNobody | server.js:243-248 | a list of blank tokens yields no administrator |
| ServerRoutes.BlankSettingAdmitsNobody | server.js:241-248 | a setting made of white space and commas names no administrator |
| ServerRoutes.PlainHasNoSpaceAtEnds | server.js:244 | a plain token part is its own trim |
| ServerRoutes.PlainFacts | server.js:244-245 | a plain token part is its own trim and contains no ':' |
| ServerRoutes.PlainEndsKeepToken | server.js:244 | a token with plain first and last characters is read untrimmed |
| ServerRoutes.PasswordToken | server.js:245 | `u:p` stores password `p` for `u`, and `u` is an administrator exactly when `p` is not empty |
| ServerRoutes.PasswordPieces | server.js:245 | `u:p` splits into `u` and `p`, and the entry for `u` becomes `p` |
| ServerRoutes.PasswordTokenExtraPieces | server.js:245 | only the first two ':' pieces of a token are used |
| ServerRoutes.DigitsToken | server.js:246 | an all-digit token D sets exactly the entries D and `steam_D` to true, so both are administrators |
| ServerRoutes.SteamToken | server.js:247 | a `steam_D` token admits exactly what the bare D token admits |
| ServerRoutes.NameToken | server.js:247 | any other plain token admits itself and changes no other entry |
| ServerRoutes.PaddedToken | server.js:244 | a token padded with spaces is read as the token itself |
| ServerRoutes.RequireAuth | server.js:250 | the request proceeds exactly when a session user exists, else 401 |
| ServerRoutes.RequireAdmin | server.js:251 | 401 without a session user, 403 when the user's administrator entry is missing or falsy, and proceed exactly otherwise |
| ServerRoutes.EmptyPasswordIsRefused | server.js:245 | with the setting `u:` the user `u` has an empty password and is refused with 403 |
| ServerRoutes.SingleToken | server.js:243 | a setting without commas is read as one token |
| ServerRoutes.SteamIdIsAdmitted | server.js:246 | with a Steam id D listed, the session user `steam_D` passes `requireAdmin` |
| ServerRoutes.FirstIndex | server.js:318 | `findIndex` returns -1 exactly when no element matches, and otherwise the first matching index |
| ServerRoutes.FirstIndexFrom | server.js:318 | the scan from index `i` finds the first match at or after `i`, or -1 |
| ServerRoutes.RaceIndex | server.js:276 | `find(x => x.id === id)` selects the first race with that id, and a NaN id matches no race |
| ServerRoutes.UserIndex | server.js:318 | the index is non-negative exactly when the user is listed, and then it is the first entry with that name |
| ServerRoutes.RegisterAddsOnce | server.js:279-280 | a new registration appends the user exactly once at the end, so a list without duplicates keeps none |
| ServerRoutes.UsernamesWithout | server.js:320 | the names after the splice are the old names with index `k` removed |
| ServerRoutes.RemoveAtMultiset | server.js:320 | `splice(k, 1)` removes one copy of the element at `k` |
| ServerRoutes.DistinctRemoveAt | server.js:320 | in a list without duplicates, the splice removes that element entirely and keeps the rest distinct |
| ServerRoutes.UnregisterRemovesFirst | server.js:318-320 | unregistering removes exactly one entry of the user, the first; a user listed once is then gone |
| ServerRoutes.RemoveAtKeepsOrder | server.js:320 | `splice(k, 1)` keeps every other element, in order |
| ServerRoutes.RegisterThenUnregister | server.js:280 | unregistering right after a fresh registration restores the participant list |
| ServerRoutes.StandingIndex | server.js:286 | the index selects the first standing of that category, or -1 when there is none |
| ServerRoutes.JoinChampionship | server.js:284-305 | the championship side effect of a registration; stated by JoinChampionshipEffect and JoinChampionshipIdempotent |
| ServerRoutes.JoinChampionshipEffect | server.js:284-305 | only the selected standing changes; there the user is afterwards a registered pilot and a driver, listed once if the lists had no duplicates, and every earlier pilot and driver row is kept |
| ServerRoutes.DistinctAppend | server.js:291 | appending a name that is not listed keeps a list distinct |
| ServerRoutes.JoinChampionshipIdempotent | server.js:290-295 | registering the same user again for the championship changes nothing |
| ServerRoutes.MaxId | server.js:338 | the reduce of `Math.max(m, it.id \|\| 0)` from 0 is NaN exactly when some id does not convert to a number; otherwise it is non-negative and at least every id |
| ServerRoutes.MaxIdAttained | server.js:338 | a numeric maximum is 0 or the number of some item's id |
| ServerRoutes.NextId | server.js:338 | the new id is positive; while every id is a number it differs from every existing id and is 1 or one more than an existing id; once some id is not a number, `NaN \|\| 0` restarts it at 1 |
| ServerRoutes.NextIdIsFresh | server.js:338 | while every stored id is a number, the id given to a new news item, race or achievement differs from the id of every stored one |
| ServerRoutes.NonNumericIdRestartsNumbering | server.js:385-397 | after a PUT stores the id "x" on a race, the next POST /api/races gives the new race id 1, whatever the other races' ids |
| ServerRoutes.AuthorName | server.js:340-343 | the author is the user name or the display name of an account with that user name, and the user name when no account has it |
| ServerRoutes.WithPilots | server.js:377-379 | the pilots count equals the length of the participant list, 0 without one, and nothing else changes |
| ServerRoutes.Merge | server.js:397-398 | `Object.assign({}, race, body)`; stated by MergeIdempotent and PutRace |
| ServerRoutes.MergeIdempotent | server.js:397-398 | applying the same update twice has the effect of applying it once |
| ServerRoutes.ConfigureRouteStoresDefaults | server.js:623 | whatever string or number the request gives as `serverIp`, the configure route stores the default configuration |
| ServerRoutes.ConfigureRouteIgnoresAddress | server.js:623 | asking for server 10.0.0.5 leaves the stored address elsewhere |
| ServerRoutes.IntendedConfigureKeepsRequest | server.js:623 | the intended argument stores the requested address and, when given, the requested port |
| ServerRoutes.LeagueServer.Register | server.js:272-309 | 401 without a user; 404 for an unknown race; an already registered user changes nothing; otherwise the user is appended once and joins the race's championship standing, and races without duplicates keep none |
| ServerRoutes.LeagueServer.Unregister | server.js:311-323 | 401 without a user; 404 for an unknown race; 400 when the user is not registered; otherwise one entry of the user leaves the participant list, and nothing else changes |
| ServerRoutes.LeagueServer.PostNews | server.js:335-347 | the admin gate's refusal, or the item with the next id (fresh while every stored id is a number, else 1) and the admin's display name as author stored at the front of the list, answered with success |
| ServerRoutes.LeagueServer.PostRace | server.js:382-391 | the admin gate's refusal, or the race with the next id (fresh while every stored id is a number, else 1), a participant list and the matching pilots count at the front of the list |
| ServerRoutes.LeagueServer.PostAchievement | server.js:421 | the admin gate's refusal, or the achievement with the next id (fresh while every stored id is a number, else 1) at the front of the list |
| ServerRoutes.LeagueServer.GetRaces | server.js:374-381 | each race with its pilots count recomputed from its participants, and the stored list unchanged |
| ServerRoutes.LeagueServer.PutRace | server.js:392-402 | the admin gate's refusal, 404 for an unknown race, or the body merged over the stored race with the pilots count recomputed, and no other race changes |
| ServerRoutes.LeagueServer.ConfigureRoute | server.js:611-633 | the admin gate's refusal; 400 unless all three values are truthy; otherwise the service history gains stop, configure with the defaults, and start on `udpPort`, in that order |
| ServerRoutes.LeagueServer.ConfigureRouteIntended | server.js:611-633 | as the configure route, but the stored configuration holds the requested server address and port |
| ServerRoutes.RoutePort | server.js:674-681 | the port the configure-for-race route extracts for itself equals the port the service stores from the same address, and differs from 9600 only for an address with exactly one ':' |
| ServerRoutes.LeagueServer.ConfigureForRace | server.js:653-696 | the admin gate's refusal; 400 without a race id; 404 for an unknown race; otherwise stop, configure from the race, and start on the port extracted from the send address, which equals the stored configuration's UDP port |
| LiveData.Poll | src/hooks/useLiveData.ts:141-190 | `connectPolling` on the whole state; stated by PollKeepsOneInterval |
| LiveData.Connect | src/hooks/useLiveData.ts:72-138 | `connectWebSocket`; stated by ConnectEffect |
| LiveData.Opened | src/hooks/useLiveData.ts:81-93 | `onopen`; stated by OpenedEffect |
| LiveData.Received | src/hooks/useLiveData.ts:95-107 | `onmessage`; stated by ReceivedEffect |
| LiveData.SocketFailed | src/hooks/useLiveData.ts:109-113 | `onerror`; stated by LiveDataReader.OnError and StepKeepsInv |
| LiveData.Reconnect | src/hooks/useLiveData.ts:193-212 | `attemptReconnect`; stated by ReconnectBounded |
| LiveData.Closed | src/hooks/useLiveData.ts:115-128 | `onclose`; stated by ClosedEffect |
| LiveData.TimerFired | src/hooks/useLiveData.ts:209-211 | the reconnect timer; stated by TimerFiredKeepsInv |
| LiveData.Ticked | src/hooks/useLiveData.ts:189 | the polling interval firing; stated by LiveDataReader.OnInterval and StepKeepsInv |
| LiveData.Answered | src/hooks/useLiveData.ts:151-183 | a polling answer; stated by AnsweredEffect |
| LiveData.Refreshed | src/hooks/useLiveData.ts:243-265 | `refresh`; stated by RefreshLeavesConnection |
| LiveData.Disconnection | src/hooks/useLiveData.ts:215-240 | `disconnect`; stated by DisconnectSettles |
| LiveData.Mounted | src/hooks/useLiveData.ts:268-281 | the mount effect; stated by LiveDataReader.Mount and StepKeepsInv |
| LiveData.InitialInv | src/hooks/useLiveData.ts:50-60 | the freshly mounted state satisfies the reader invariant |
| LiveData.PollKeepsOneInterval | src/hooks/useLiveData.ts:141-190 | with polling enabled exactly one interval, the new one, is active afterwards; with polling disabled nothing changes |
| LiveData.ReconnectBounded | src/hooks/useLiveData.ts:193-212 | at the maximum of 5 attempts nothing is scheduled; below it the counter grows by one and exactly one timer, the new one, is pending |
| LiveData.ConnectEffect | src/hooks/useLiveData.ts:72-138 | no effect with the push channel off or a socket held; otherwise status 'connecting' with a new live socket, or, when the constructor throws, status 'error' with the failure message and polling started |
| LiveData.OpenedEffect | src/hooks/useLiveData.ts:81-93 | after `onopen` the reader is connected with no error and its attempt counter reset |
| LiveData.ReceivedEffect | src/hooks/useLiveData.ts:95-107 | only a `LIVE_UPDATE` message carrying data changes the state, and then the data is that message's and loading is off |
| LiveData.ClosedEffect | src/hooks/useLiveData.ts:115-128 | after `onclose` the reader is disconnected with no socket held; one reconnect is pending while attempts remain, otherwise the timers are untouched; an interval is active exactly when polling is enabled |
| LiveData.TimerFiredKeepsInv | src/hooks/useLiveData.ts:209-211 | the reconnect timer firing keeps the invariant |
| LiveData.AnsweredEffect | src/hooks/useLiveData.ts:151-183 | a successful poll shows its data, clears the error and reports a connection; a failed poll reports 'error' and not connected, keeping the data |
| LiveData.RefreshLeavesConnection | src/hooks/useLiveData.ts:243-265 | a manual refresh changes only the data, the time, the error and loading: never the status, the references or the browser's timers |
| LiveData.DisconnectSettles | src/hooks/useLiveData.ts:215-240 | from any state, disconnect leaves no reference, no pending timer, no active interval, no data, status 'disconnected' and a zero counter, and a second disconnect changes nothing |
| LiveData.StepKeepsInv | src/hooks/useLiveData.ts:72-240 | every enabled event keeps the invariant: at most 5 attempts, at most one pending timer and one active interval (the referenced ones), the referenced socket live, and nothing for a disabled channel |
| LiveData.RunKeepsInv | src/hooks/useLiveData.ts:72-240 | any run of enabled events from a state satisfying the invariant keeps it |
| LiveData.CloseAfterDisconnectRestarts | src/hooks/useLiveData.ts:215-240 | after a disconnect the closed socket's `onclose` still runs, schedules a reconnect with the counter at 1, and restarts polling when enabled |
| LiveData.DetachedStepKeepsInv | src/hooks/useLiveData.ts:215-240 | with a disconnect that detaches the socket first, every event keeps the stronger invariant that the only live socket is the referenced one |
| LiveData.DetachedDisconnectIsQuiet | src/hooks/useLiveData.ts:215-240 | after the detaching disconnect no socket is live, no timer is pending and no interval is active, so no close or timer event can occur |
| LiveData.EffectRerunOrphansNewSocket | src/hooks/useLiveData.ts:190 | after the effect re-runs on a status change, the old socket's close event clears the reference to the new socket, which stays live |
| LiveData.BroadcastReachesReader | src/services/assettoCorsaUdpService.js:300-303 | glue between the two modules, with the JSON text between them not modelled: a broadcast `LIVE_UPDATE` message's snapshot becomes the reader's data |
| LiveData.LiveDataReader.constructor | src/hooks/useLiveData.ts:50-60 | the initial state, which satisfies the invariant |
| LiveData.LiveDataReader.ConnectPolling | src/hooks/useLiveData.ts:141-190 | the new state is the polling step's, and the invariant is kept |
| LiveData.LiveDataReader.ConnectWebSocket | src/hooks/useLiveData.ts:72-138 | the new state is the connect step's, and the invariant is kept |
| LiveData.LiveDataReader.OnOpen | src/hooks/useLiveData.ts:81-93 | the new state is the open step's, and the invariant is kept |
| LiveData.LiveDataReader.OnMessage | src/hooks/useLiveData.ts:95-107 | the new state is the message step's, and the invariant is kept |
| LiveData.LiveDataReader.OnError | src/hooks/useLiveData.ts:109-113 | status 'error' with the push-channel error message, and the invariant is kept |
| LiveData.LiveDataReader.AttemptReconnect | src/hooks/useLiveData.ts:193-212 | the new state is the reconnect step's, and the invariant is kept |
| LiveData.LiveDataReader.OnClose | src/hooks/useLiveData.ts:115-128 | the new state is the close step's, and the invariant is kept |
| LiveData.LiveDataReader.OnTimer | src/hooks/useLiveData.ts:209-211 | the timer is spent and the push channel is connected again, and the invariant is kept |
| LiveData.LiveDataReader.OnInterval | src/hooks/useLiveData.ts:189 | one more fetch is in flight and loading is on, and the invariant is kept |
| LiveData.LiveDataReader.OnPollAnswer | src/hooks/useLiveData.ts:151-183 | the new state is the poll answer's, and the invariant is kept |
| LiveData.LiveDataReader.Refresh | src/hooks/useLiveData.ts:243-265 | the new state is the refresh step's, and the invariant is kept |
| LiveData.LiveDataReader.Disconnect | src/hooks/useLiveData.ts:215-240 | the new state is the disconnect step's, which is settled, and the invariant is kept |
| LiveData.LiveDataReader.DisconnectAndDetach | src/hooks/useLiveData.ts:215-240 | the detaching disconnect: settled, and no socket is live |
| LiveData.LiveDataReader.Mount | src/hooks/useLiveData.ts:268-281 | without auto start nothing happens; otherwise the push channel is preferred and polling is the fallback |

## Left out

- Files, sessions and HTTP: the JSON files are sequences held by the server object. The session user is a parameter (`Visitor`), and each response is reduced to its status code and the value it reports.
- The `ws` and `dgram` libraries: sockets are state values (created, listening on a port, closed). Bind failures, the retry inside `startUdpListener`, and closing an already closed socket are not modelled.
- `Math.random`: the random driver fields come from a `draw` parameter, reduced into the source's ranges.
- `new Date().toISOString()`: the time is a parameter.
- `toFixed(1)` on the session's temperatures and wind speed (src/services/assettoCorsaUdpService.js:285-288) and the `'0.0'` strings of the baseline (:357-360): these fields hold the number `toFixed(1)` would render; the JSON string type and the rounding are not modelled.
- `getConfig` overrides of the reconnect limit, the delays and the endpoints: the defaults (5 attempts, 3000 ms, 5000 ms) are constants. The delays are not modelled, because timers are events that may fire at any point.
- JSON parsing on the reader: a message arrives already parsed, or as a parse failure.
- Stale React closures: the polling fetch reads the connection status of the render it was created in. The model reads the current status.
- ServerRoutes.RequireAdmin: lookups of `Object.prototype` keys are not modelled. The session user name is an account's `username` from accounts.json (server.js:545), and the admin-only `PUT /api/accounts/:username` (server.js:501) can set it to any value. `getAdmins` builds a plain `{}` (server.js:242, 248), so a user named `constructor`, `toString` or `__proto__` reads a truthy inherited value and passes `requireAdmin` (server.js:251) in the source, even with an empty `ADMIN_USERS`. The model refuses that user with 403.
- Request-body and record values: the route arguments of `POST /api/assetto-corsa/configure` (`serverIp`, `serverPort`, `udpPort`) and of `configure-for-race` (`raceId`), a race record's `serverPort`, and the `id` of races, news items and achievements are strings, integers or absent (`JsScalar`; `null` counts as absent). A race record's `serverIp`, `udpListenAddress`, `udpSendAddress` and `championship`, and the same fields of a PUT body, are a string or absent only (`Option<string>`), although `POST /api/races` and `PUT /api/races/:id` (server.js:384, 397) store whatever the body carries. Objects, arrays and booleans are not modelled anywhere. In particular, an object given as `serverIp` to `POST /api/assetto-corsa/configure` would be read by `configureServer` as a race record (src/services/assettoCorsaUdpService.js:150-166).
- ServerRoutes.LeagueServer.ConfigureForRace: answers 200 for every race it finds, because a record's `udpSendAddress` is a string or absent here. In the source a truthy non-string `udpSendAddress` (such as the number 12095) makes `configureServer` throw at `race.udpSendAddress.split(':')` (src/services/assettoCorsaUdpService.js:153) after `stopUdpListener()` has run (server.js:670); the route answers 500 (server.js:692-694) and the UDP listener stays stopped.
- JsText.NumberValue: limited to optionally signed decimal integers. `Number` also reads forms such as `"1.0"`, `"1e0"` and `"0x1"`, all of which are 1 and would match race 1 under `===` (server.js:276, 663); here they are NaN, so those requests get 404 in the model.
- ServerRoutes.NextId: stored ids are absent, strings or integers; a fractional or boolean id is not modelled. Freshness is promised only while every stored id converts to a number: a non-numeric id (which `PUT /api/races/:id` can store) makes the source's next id 1, a possible duplicate, and the model gives 1 too.
- JsText.ParseInt: returns integers only; a value beyond 2^53 is not rounded to a double.
- Route-level wrappers with no logic of their own are not modelled: `GET /live-timing` and `POST /api/assetto-corsa/clear` call `getCurrentRaceState` and `clearData`, and the model has those.
- The news, race, achievement and standings PUT/DELETE routes other than `PUT /api/races/:id` are outside this model. So are the accounts, settings, upload and login routes.
- `setupWithHttpServer` and `close` of the telemetry service are not modelled. They only wire up and shut down the libraries.
- LiveData.LiveDataReader.Refresh: the refresh request and its answer are one step here. A refresh interleaved with other events is not modelled.
- LiveData.LiveDataReader.OnPollAnswer: the answers of polling fetches are not matched to the request that produced them. Any request in flight may answer next.
- UdpService.AssettoCorsaUdpService.BroadcastUpdate: assumes a global `WebSocket`. The service imports only `WebSocketServer` (src/services/assettoCorsaUdpService.js:15) and reads `WebSocket.OPEN` (:306); on a runtime without that global the first client reached throws a ReferenceError, the datagram handler swallows it (:53-57), and nothing is sent.
- LiveData.LiveDataReader.Mount: the forced re-run of the mount effect is not modelled as one step. `connectPolling` depends on `connectionStatus` (src/hooks/useLiveData.ts:190) and the effect depends on `connectPolling` (:281), so every status change runs `disconnect()` and then the effect again. The model covers these runs only as free `DisconnectCall` and `MountCall` events, for which StepKeepsInv holds; EffectRerunOrphansNewSocket shows the stale close that follows.

## Findings

| source | as written | input that shows it | evidently intended | confidence | as-written member | corrected member |
|---|---|---|---|---|---|---|
| server.js:623 | `configureServer(serverIp, serverPort, udpPort)` passes the address string as the single race argument, so every field stays at its default | an admin posts `serverIp: "10.0.0.5"`, `serverPort: "9000"`, `udpPort: 9100`; the stored server address stays 127.0.0.1 | the requested server address and port are stored | high; not executed | ServerRoutes.ConfigureRouteIgnoresAddress | ServerRoutes.IntendedConfigureKeepsRequest |
| src/hooks/useLiveData.ts:215-240 | `disconnect` closes the socket but leaves its `onclose` handler attached; the later close event resets nothing and schedules a reconnect and a new polling interval | a connected reader with polling enabled: `disconnect()`, then the socket's close event | after `disconnect` nothing runs: no live handler, no pending timer, no active interval | medium; not executed | LiveData.CloseAfterDisconnectRestarts | LiveData.DetachedDisconnectIsQuiet |
