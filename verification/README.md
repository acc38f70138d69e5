# Poker score rooms, modelled in Dafny

This project models the core of a poker score keeper. Players open a room under a six-digit
code and join it. In the room they stake chips onto the table ("the pot"), take chips back,
place niuniu bets on other players, or hand the whole table to one player by force transfer.
At the end they settle up: the server proposes who pays whom and then writes one settlement
row per non-zero balance. A room with no activity for twelve hours is dissolved, and the pot
is awarded to the leading player. Around this ledger the model covers these parts:

- the WebSocket hub that fans room events out to the room's clients;
- tonight's records: a 07:00-to-07:00 window, a breadth-first search for everyone the user
  played with, and per-friend totals;
- the admin service's user edits and id collection;
- configuration loading from the environment;
- the session cookie and the auth, admin and CORS middlewares;
- the web client's room store and its HTTP layer.

Database tables are sequences and maps of rows. A transaction is one method, and its error
returns leave every field as it was. The clock, random draws, UUIDs, password hashing and
JSON parsing are parameters. Money, which the source keeps as float64, is a `real`.

Files:

- `common.dfy`: Option and Result, and the string helpers of Go's `strings` package used here.
- `models.dfy`: the rows of the persistent tables; balance updates as functions.
- `rates.dfy`: chip-to-money conversion.
- `plan.dfy`: the settlement proposal.
- `ledger.dfy`: the pot and the `Room` class with every operation that changes one room.
- `rooms.dfy`: room creation, the last room of a user, and the inactivity sweep.
- `roomcode.dfy`: room codes.
- `controllers.dfy`: the request checks in front of the services.
- `hub.dfy`: the WebSocket hub.
- `records.dfy`: tonight's records.
- `admin.dfy`: the admin service.
- `config.dfy`: configuration.
- `cookies.dfy`: the session cookie.
- `middleware.dfy`: the middlewares.
- `frontstore.dfy`: the client's room store.
- `apirequest.dfy`: the client's HTTP layer.

## Model

| member | source | states |
|---|---|---|
| Models.Credit | backend/services/room_service.go:439-458 | the balance update keeps the number of rows |
| Models.CreditRows | backend/services/room_service.go:439-458 | the balance update keeps every row's user |
| Models.CreditSum | backend/services/room_service.go:439-458 | under the unique index, crediting a present user moves the table total by exactly delta |
| Models.CreditBalanceOf | backend/services/room_service.go:439-458 | crediting u changes u's balance by delta and nobody else's |
| Models.CreditAbsent | backend/services/room_service.go:439-458 | crediting a user without a row touches no row |
| Models.SumZeroed | backend/services/settlement_service.go:127-133 | zeroing the room's balances leaves a total of 0 |
| Models.ZeroedKeepsUsers | backend/services/settlement_service.go:127-133 | zeroing keeps the set of users and the unique index |
| Models.BalanceOfFound | backend/services/room_service.go:420-432 | the balance lookup fails exactly for users without a row |
| Rates.ParseRate | backend/services/settlement_utils.go:10-20 | a rate with a value has two parts and a non-zero chip part |
| Rates.MalformedRateIsZero | backend/services/settlement_utils.go:10-13 | a rate without exactly one colon converts every amount to 0 |
| Rates.RmbLinear | backend/services/settlement_utils.go:9-23 | conversion is linear in the chips: sums map to sums and negation to negation, for well-formed and malformed rates alike |
| Rates.SplitRate | backend/services/settlement_utils.go:10 | "chips:money" with colon-free sides splits into exactly those two sides |
| Rates.Rate20To1 | backend/services/settlement_service_test.go:42-96 | the rate "20:1" parses to 20 chips per 1 unit of money |
| Rates.Rate30To2 | backend/services/settlement_service_test.go:42-96 | the rate "30:2" parses to 30 chips per 2 units of money |
| Rates.BadRateExamples | backend/services/settlement_service_test.go:42-96 | "0:1", "a:b" and "201" have no rate: a zero chip part, unparsable sides, no colon |
| Rates.RmbExamples | backend/services/settlement_service_test.go:42-96 | 200 chips at 20:1 and 150 at 30:2 are 10; -200 at 20:1 is -10; malformed and zero-chip rates give 0 |
| SettlementPlan.Positives | backend/services/settlement_service.go:230-251 | the winners side holds only positive balances |
| SettlementPlan.Negatives | backend/services/settlement_service.go:230-251 | the losers side holds only negative balances |
| SettlementPlan.Sort | backend/services/settlement_service.go:253-259 | sorting is a permutation of its input |
| SettlementPlan.SortOrdered | backend/services/settlement_service.go:253-259 | winners come out by decreasing balance and losers by increasing balance |
| SettlementPlan.GenerateSettlementPlan | backend/services/settlement_service.go:221-303 | the method's loops produce exactly the plan Plan defines |
| SettlementPlan.EmitPayments | backend/services/settlement_service.go:270-302 | each loser pays the bank, then the bank pays every other winner, in order |
| SettlementPlan.PlanSize | backend/services/settlement_service.go:263-265 | the plan is empty iff one side is empty; otherwise it has one payment per loser and one per winner except the bank |
| SettlementPlan.PlanAmountsPositive | backend/services/settlement_service.go:270-302 | every payment moves a positive number of chips |
| SettlementPlan.PlanThroughBank | backend/services/settlement_service.go:267-302 | every payment has the bank on one side, and the bank holds the largest balance of the room |
| SettlementPlan.PlanSettlesEveryone | backend/services/settlement_service.go:221-303 | when balances sum to 0, each user's balance plus what they pay minus what they receive is 0; users without a row take no part |
| SettlementPlan.PlanUserTotals | backend/services/settlement_service.go:221-303 | what a user pays minus what they receive cancels their balance |
| SettlementPlan.PlanTwoAndTwo | backend/services/settlement_service_test.go:98-133 | two winners and two losers: both losers pay the larger winner, the larger loss first, and that winner pays the other |
| SettlementPlan.PlanFourPlayers | backend/services/settlement_service_test.go:98-133 | the four-player table of the settlement test gets exactly its three expected payments |
| SettlementPlan.FourPlayerRmb | backend/services/settlement_service_test.go:98-133 | the money amounts of that table at 20:1 |
| SettlementPlan.PlanOneSided | backend/services/settlement_service_test.go:135-152 | a table where only one side is non-zero gets no plan |
| Ledger.PotAsWritten | backend/services/room_service.go:465-492 | the pot query as written: stakes minus withdrawals, floored at 0 |
| Ledger.Pot | backend/services/room_service.go:465-492 | the pot the model uses: stakes minus withdrawals and force transfers, floored at 0 |
| Ledger.RawPotAppend | backend/services/room_service.go:465-492 | appending an operation moves the pot by exactly that operation's effect |
| Ledger.PotsAppend | backend/services/room_service.go:465-492 | as written, a force transfer does not move the pot; every other operation moves both formulas alike |
| Ledger.NeutralOpKeepsPot | backend/services/room_service.go:465-492 | joins, leaves, kicks, returns and settlement operations leave both pots unchanged |
| Ledger.PotsAgreeWithoutForceTransfer | backend/services/room_service.go:465-492 | without force transfers in the log the two formulas agree |
| Ledger.ForceTransferLeavesPhantomPot | backend/controllers/integration_test.go:335-359 | after the scenario's force transfer the pot as written is 600, where the corrected pot and the test's expectation are 0 |
| Ledger.StakeRecords | backend/services/operation_service.go:235-253 | one bet record per niuniu item, with its target and amount |
| Ledger.SumStakesPositive | backend/services/operation_service.go:235-240 | with every stake positive, a non-empty bet totals at least its item count |
| Ledger.CollectStakes | backend/services/operation_service.go:235-268 | the stake loop succeeds iff every stake is positive, and then yields the total and the bet rows |
| Ledger.OpenMembership | backend/services/room_service.go:117-166 | the found open membership belongs to u, and there is none iff u has no row with an unset left_at |
| Ledger.LatestAt | backend/services/room_service.go:507-540 | there is no latest operation iff no operation has a matching kind; otherwise it is the time of one |
| Ledger.ActiveAfterAppend | backend/services/room_service.go:507-520 | an operation stamped at t puts the room's last activity at t or later |
| Ledger.AutoSettleTime | backend/services/room_service.go:521-546 | the settlement time is never after now, is 0 only when now is, and is now or the last activity |
| Ledger.BestUnique | backend/services/room_service.go:604-611 | under the unique index at most one row is the best one |
| Ledger.BestRow | backend/services/room_service.go:604-611 | the chosen row holds the highest balance, ties going to the lowest user id |
| Ledger.FindBest | backend/services/room_service.go:604-611 | the scan finds exactly that row |
| Ledger.Award | backend/services/room_service.go:613-615 | awarding the pot keeps every row's user |
| Ledger.AutoSettleRowsTotals | backend/services/room_service.go:602-616 | the pot lands in the best row and nowhere else; the table total grows by exactly the pot |
| Ledger.BuildBatch | backend/services/room_service.go:619-638 | the loop writes exactly one settlement row per non-zero balance, in table order |
| Ledger.BatchRowsShape | backend/services/room_service.go:619-638 | every row of a batch has a non-zero amount, the batch id, the settlement time, and a user of the table |
| Ledger.BatchRowsTotals | backend/services/room_service.go:619-638 | a batch carries each user's whole balance, and its chips total the room's balances |
| Ledger.BatchRmbTotal | backend/services/room_service.go:619-638 | the money of a batch is the money value of the room's total balance |
| Ledger.UpdateUserBalance | backend/services/room_service.go:439-458 | a row is found iff the user has one; the update credits it and keeps the users and the unique index |
| Ledger.AutoSettleBatch | backend/services/room_service.go:593-649 | the settlement rows are the batch of the balances after the pot is awarded |
| Ledger.PrepareNiuniu | backend/services/operation_service.go:233-295 | a niuniu transaction succeeds iff every stake is positive and the bettor has a balance row; its writes are the bet rows, the debited balances and one operation |
| Ledger.Room.constructor | backend/services/room_service.go:62-113 | a new active room holds only the creation operation and no chips |
| Ledger.Room.Bet | backend/services/operation_service.go:39-87 | the bet succeeds iff amount > 0 and u has a balance row; chips move from u to the table and the room's chips are conserved |
| Ledger.Room.Withdraw | backend/services/operation_service.go:90-150 | refused on an empty table or above the pot; amount <= 0 takes the whole pot; chips move from the table to u |
| Ledger.Room.ForceTransfer | backend/services/operation_service.go:153-223 | both users need a membership and the table must hold chips; the whole pot goes to the target and the table ends empty |
| Ledger.Room.NiuniuBet | backend/services/operation_service.go:226-309 | the ok/error cases of the stake loop; the total moves from u to the table; one bet row per stake |
| Ledger.Room.InitUserBalance | backend/services/room_service.go:388-413 | a zero row is added only when the user has none; a returning user keeps their balance |
| Ledger.Room.Join | backend/services/room_service.go:117-166 | a dissolved room refuses; an open membership is returned as is; otherwise a new online membership, a zero balance row only for a user without one, and a join operation; the pot is unchanged |
| Ledger.Room.Leave | backend/services/room_service.go:186-212 | without an open membership it is refused; otherwise that membership goes offline and a leave operation is logged |
| Ledger.Room.Kick | backend/services/room_service.go:214-246 | without an open membership of the target it is refused; otherwise that membership goes offline and a kick operation by the actor naming the target is logged |
| Ledger.Room.MarkReturned | backend/services/room_service.go:358-386 | the chosen membership goes online and a return operation is logged |
| Ledger.Room.CheckAndDissolve | backend/services/room_service.go:495-591 | a room that is not inactive is untouched; an inactive one is dissolved, the pot is awarded to the best row, every non-zero balance is settled at the auto-settle time, and balances are zeroed |
| Ledger.Room.ManualDissolve | backend/controllers/room.go:254-259 | an active room is dissolved at now; any other room is refused |
| Ledger.Room.InitiateSettlement | backend/services/settlement_service.go:40-73 | refused iff the pot is non-zero; otherwise returns the plan of the balances and logs one operation |
| Ledger.Room.ConfirmSettlement | backend/services/settlement_service.go:76-218 | refused iff the pot is non-zero; otherwise writes the batch of the balances, zeroes them and logs one operation |
| Rooms.PickRoomCode | backend/services/room_service.go:64-82 | the first drawn code that no active room uses, or the last one drawn when all ten are taken |
| Rooms.CreateRoom | backend/services/room_service.go:62-113 | a new active room under the picked code, holding the creation operation, with the creator joined |
| Rooms.LatestOpenIn | backend/services/room_service.go:322-356 | the found membership in one room is open and belongs to u, with no later open one there |
| Rooms.LatestOpen | backend/services/room_service.go:322-356 | the found membership is an open membership of u with the latest join time of all rooms; there is none iff u has no open membership |
| Rooms.GetLastRoom | backend/services/room_service.go:322-356 | the room of u's latest open membership; refused when there is none or that room is dissolved |
| Rooms.CleanupInactiveRooms | backend/services/room_service.go:47-58 | every inactive room is dissolved now and auto-settled under its own batch id, with its dissolution event, zeroed balances, and members, operations and bet records kept; every other room is entirely unchanged |
| RoomCode.DigitChar | backend/utils/room_code.go:16-21 | a digit 0-9 becomes the character '0'-'9' |
| RoomCode.RoomCodeShape | backend/utils/room_code.go:13-21 | a code is six decimal digits and never starts with '0' |
| RoomCode.RoomCodeRoundTrip | backend/utils/room_code.go:13-21 | reading the code back in base 10 gives draw + 100000 |
| RoomCode.RoomCodeInjective | backend/utils/room_code.go:13-21 | distinct draws never share a code |
| Controllers.FirstBadEntryNone | backend/controllers/operation.go:159-179 | no bad entry is reported iff every entry has a target and a positive amount |
| Controllers.FirstBadEntryIsFirst | backend/controllers/operation.go:159-179 | the reported entry is the first bad one |
| Controllers.NiuniuRequestAccepted | backend/controllers/operation.go:159-179 | a request passes the controller iff it is non-empty and every entry is valid |
| Controllers.NiuniuBetRequest | backend/controllers/operation.go:144-190 | an empty or bad request is refused before the service runs and writes nothing; otherwise the bet succeeds iff u has a row, debits the positive total and adds one bet row per stake |
| Controllers.BetRequest | backend/controllers/operation.go:29-69 | a non-positive amount is refused before the service runs; otherwise the bet succeeds iff u has a balance row, debits u and grows the pot by the amount |
| Controllers.WithdrawRequest | backend/controllers/operation.go:71-102 | the withdrawal succeeds iff the table holds chips, the amount does not exceed them and u has a row; amount <= 0 takes the whole pot and empties the table |
| Controllers.DissolveRoom | backend/controllers/room.go:222-264 | the membership check, then the table check, then settlement and dissolution; each refusal writes nothing |
| Controllers.SettleAndDissolve | backend/controllers/room.go:248-259 | once both checks pass, the balances are settled and zeroed and the room is dissolved at now |
| RoomHub.Client.constructor | backend/websocket/client.go:151 | a new client has an empty, open send channel |
| RoomHub.Client.Close | backend/websocket/hub.go:55-69 | closing marks the channel closed |
| RoomHub.Hub.constructor | backend/websocket/hub.go:33-41 | a new hub has no rooms |
| RoomHub.Hub.Register | backend/websocket/hub.go:46-52 | the client is added under exactly its own room |
| RoomHub.Hub.Unregister | backend/websocket/hub.go:55-69 | a registered client is removed and its channel closed; a room left empty loses its entry; an unknown client changes nothing |
| RoomHub.Hub.Broadcast | backend/websocket/hub.go:72-84 | every client of the room whose channel has space takes the message; a full one is closed and dropped |
| RoomHub.Hub.ClientCount | backend/websocket/hub.go:99-107 | the count is 0 iff the room has no entry or an empty set |
| RoomHub.ClientCountIsRegistered | backend/websocket/hub.go:99-107 | the count is the number of registered clients in that room |
| Records.DefaultTimeRange | backend/services/record_service.go:249-265 | the window is one day long, holds now, and starts or ends at today's 07:00 |
| Records.NightSpansMidnight | backend/services/record_service.go:249-265 | an evening and the following early morning share a window |
| Records.SevenAmSplitsTheDay | backend/services/record_service.go:249-265 | two instants of one day fall in different windows iff 07:00 lies between them |
| Records.TimeRange | backend/services/record_service.go:45-50 | given bounds are used when both are present; otherwise the default window |
| Records.RoomMembers | backend/services/record_service.go:282-284 | exactly the users with an in-window row in the room |
| Records.UserRooms | backend/services/record_service.go:291-295 | the distinct rooms the user joined inside the window |
| Records.JoinedRoomIsNamed | backend/services/record_service.go:291-295 | a room joined in the window is a room of the table |
| Records.EnqueueRooms | backend/services/record_service.go:297-302 | each room not yet visited is marked and queued once |
| Records.VisitMembers | backend/services/record_service.go:286-304 | each new in-window member of the room is visited and their rooms are queued |
| Records.FindFriendsWithBfs | backend/services/record_service.go:268-314 | the result is the least user set closed under "shares an in-window room", starting from the initial rooms |
| Records.SettledSplit | backend/services/record_service.go:80-99 | automatic and manual settlements add up to all of the user's settlements in the window |
| Records.CollectSettlements | backend/services/record_service.go:80-99 | each queried user's summary holds its in-window settlements, split by the "auto-" prefix |
| Records.ActiveFoldSums | backend/services/record_service.go:101-164 | skipping zero balances loses nothing: each queried user gets their active chips and money |
| Records.ActiveFoldOthers | backend/services/record_service.go:101-164 | users outside the query are left as they were |
| Records.CollectActive | backend/services/record_service.go:101-164 | the active-balance loop computes the fold |
| Records.EnsureSummaries | backend/services/record_service.go:166-168 | every queried user gets a summary; existing ones are kept |
| Records.SetNicknames | backend/services/record_service.go:170-190 | each summarised user found in the users table takes its nickname, and the caller is marked |
| Records.BuildSummaries | backend/services/record_service.go:80-190 | every queried user's summary is the expected one |
| Records.GetTonightRecords | backend/services/record_service.go:42-246 | the window, the friends the search finds, their finished summaries, and a total check equal to the sum over the user and the friends of their in-window settled money plus the money still at active tables |
| Records.TotalsAreMoney | backend/services/record_service.go:193-219 | the total money of each finished report line is that user's in-window settlements plus active money |
| Records.SumPick | backend/services/record_service.go:194-219 | the sum of the line totals does not depend on the order the map's keys are visited in |
| Records.TotalCheck | backend/services/record_service.go:193-219 | the loop's total_check is the sum of the total money of every report line |
| Records.ReportTotals | backend/services/record_service.go:195-219 | a report line settles exactly the user's in-window settlements, and its total adds the active part |
| Admin.ByteLenBounds | backend/services/admin_service.go:75-113 | the UTF-8 length is at least the character count, and equal to it iff every character is ASCII |
| Admin.IsAllDigits | backend/services/admin_service.go:485-492 | the loop answers true iff every character is a decimal digit |
| Admin.UpdateUser | backend/services/admin_service.go:62-125 | not-found first; on success only that user changes, to the trimmed phone, nickname and role and the hash of the trimmed password when one is given (its old hash otherwise); the stored fields are valid and the phone conflicts with no other user |
| Admin.PhoneOkIsElevenDigits | backend/services/admin_service.go:75-77 | the phone rule in characters: exactly 11 decimal digits |
| Admin.UpdateKeepsPhonesUnique | backend/services/admin_service.go:85-95 | an edit never lets two users share a phone |
| Admin.UpdateUserErrors | backend/services/admin_service.go:62-113 | the checks run in order and the first that fails names the error; the edit succeeds iff none fails |
| Admin.ClampOperationPage | backend/services/admin_service.go:182-189 | a page below 1 becomes 1, a page size below 1 becomes 20 and one above 200 becomes 200; values in range are kept |
| Admin.ClampIdempotent | backend/services/admin_service.go:182-189 | clamping twice is clamping once |
| Admin.CollectOperationIds | backend/services/admin_service.go:389-399 | the sets of rooms, actors and targets of the page |
| Admin.DistinctUserIds | backend/services/admin_service.go:401-409 | a list without duplicates holding exactly the actors and targets |
| Admin.UniqueUserIds | backend/services/admin_service.go:389-409 | the rooms of the page, and each named user exactly once |
| Config.GetEnv | backend/config/config.go:84-89 | the trimmed value, or the default when the value is blank |
| Config.GetEnvFixesItsResult | backend/config/config.go:84-89 | a trimmed value is its own getEnv |
| Config.ParseBool | backend/config/config.go:91-99 | a parsed value is true iff the spelling starts with '1', 't' or 'T'; anything other than Go's accepted spellings has no value |
| Config.GetEnvAsBool | backend/config/config.go:91-99 | the parsed value; the default when the value is blank or unparsable |
| Config.CleanedLength | backend/config/config.go:121-135 | cleaning keeps at most every part |
| Config.CleanedEntries | backend/config/config.go:121-135 | every cleaned entry is a non-empty, trimmed input part |
| Config.CleanParts | backend/config/config.go:126-133 | the loop yields exactly the cleaned parts |
| Config.GetEnvAsList | backend/config/config.go:121-135 | the cleaned comma-separated entries, or the defaults when the value is blank |
| Config.EnvListEntries | backend/config/config.go:121-135 | with non-empty defaults the list holds no empty entry |
| Config.NormalizePort | backend/config/config.go:137-146 | the result is trimmed and starts with ':'; a blank value gives ":8080" |
| Config.NormalizePortIdempotent | backend/config/config.go:137-146 | normalising twice is normalising once |
| Config.NormalizeSameSite | backend/config/config.go:148-159 | "strict" and "none" in any case become "Strict" and "None"; anything else is "Lax" |
| Config.NormalizeSameSiteIdempotent | backend/config/config.go:148-159 | normalising twice is normalising once |
| Config.AllowedOriginsNonEmpty | backend/config/config.go:46-49 | every allowed origin is non-empty |
| Config.GetConfigProduction | backend/config/config.go:43-82 | in production the cookie domain is never empty, is the default domain when unset, and cookies are secure by default |
| AuthCookies.ParseSameSite | backend/controllers/auth.go:282-293 | Strict iff the trimmed lower-cased value is "strict", None iff it is "none", Lax otherwise |
| AuthCookies.ParseNormalizedSameSite | backend/controllers/auth.go:282-293 | parsing the configuration's normalised value gives the mode of the raw value |
| AuthCookies.WebViewNeedsMarker | backend/controllers/auth.go:271-279 | only a user agent holding a marker is a webview; the empty one never is |
| AuthCookies.CookieSecure | backend/controllers/auth.go:237-252 | Secure iff the configuration, TLS, or either forwarding header says https in any case |
| Common.SimpleFold | backend/controllers/auth.go:243 | case folding maps ASCII capitals to small letters and leaves the dotted capital I alone |
| Common.EqualFoldExamples | backend/controllers/auth.go:243-310 | strings.EqualFold matches the long s with 's', Latin-1 capitals with their small letters and the Kelvin sign with 'K', but not the dotted capital I with 'i' |
| AuthCookies.CookieSameSite | backend/controllers/auth.go:254-265 | the configured mode, except that a webview gets Lax instead of None |
| AuthCookies.StripPort | backend/controllers/auth.go:295-322 | the host without its port is a colon-free prefix of it |
| AuthCookies.ResolveCookieDomain | backend/controllers/auth.go:295-322 | the domain is "" or the trimmed configured domain |
| AuthCookies.CookieDomainCases | backend/controllers/auth.go:295-322 | the domain is used iff it is set and the host is missing, equal to it in any case, or a subdomain of it |
| AuthCookies.SuffixSplit | backend/controllers/auth.go:313-318 | ending in the domain with a '.' before it is ending in "." plus the domain |
| AuthCookies.SessionCookie | backend/controllers/auth.go:208-234 | an HttpOnly cookie on "/" with the configured age; Secure iff CookieSecure; a webview gets no domain and never SameSite=None |
| Middlewares.FromAuthorization | backend/middlewares/auth.go:21-25 | "Bearer " is dropped only when something follows it; the id is empty iff the header is |
| Middlewares.SessionIdPrecedence | backend/middlewares/auth.go:17-41 | header over query over cookie; there is no id iff all three are missing or empty |
| Middlewares.SessionTable.constructor | backend/middlewares/auth.go:43-50 | the table holds the given sessions |
| Middlewares.SessionTable.Authenticate | backend/middlewares/auth.go:17-68 | the failure for each missing piece; an expired session is deleted; otherwise the session's user |
| Middlewares.AdminAllows | backend/middlewares/auth.go:79-105 | passes iff the context holds a user record whose role is "admin" |
| Middlewares.Cors | backend/middlewares/cors.go:12-44 | the loops write exactly the allowed-origin headers; a preflight ends with 204 whether or not the origin is allowed |
| Middlewares.CorsEchoesOrigin | backend/middlewares/cors.go:20-39 | the Allow-Origin header echoes a non-empty request origin; headers are written iff the origin is allowed |
| FrontRoomStore.FindMember | poker_score_frontend/src/stores/room.ts:83-114 | the found index is the first entry with the id; there is none iff no entry has it |
| FrontRoomStore.UpsertExisting | poker_score_frontend/src/stores/room.ts:83-114 | an update for a listed id rewrites only the first entry with that id |
| FrontRoomStore.UpsertNew | poker_score_frontend/src/stores/room.ts:83-114 | an update for a new id appends one entry with the defaults for the fields it leaves unset |
| FrontRoomStore.Without | poker_score_frontend/src/stores/room.ts:117-120 | removal never lengthens the list |
| FrontRoomStore.WithoutKeepsOthers | poker_score_frontend/src/stores/room.ts:117-120 | removal keeps exactly the entries with other ids |
| FrontRoomStore.WithoutConcat | poker_score_frontend/src/stores/room.ts:117-120 | removal keeps the relative order |
| FrontRoomStore.ZeroBalances | poker_score_frontend/src/stores/room.ts:533-566 | every balance becomes 0 and nothing else about the members changes |
| FrontRoomStore.Normalize | poker_score_frontend/src/stores/room.ts:162-180 | a niuniu operation without bets gets the bets parsed from its description; other operations are kept |
| FrontRoomStore.NormalizeFixes | poker_score_frontend/src/stores/room.ts:162-180 | normalising a normalised operation changes nothing |
| FrontRoomStore.NormalizeAll | poker_score_frontend/src/stores/room.ts:187-189 | each operation normalised, in order |
| FrontRoomStore.RoomStore.constructor | poker_score_frontend/src/stores/room.ts:78-80 | no room, no feed, no settlement context |
| FrontRoomStore.RoomStore.SetRoomInfo | poker_score_frontend/src/stores/room.ts:78-80 | the room is replaced |
| FrontRoomStore.RoomStore.UpdateMember | poker_score_frontend/src/stores/room.ts:83-114 | nothing happens without a room; otherwise the member list is upserted |
| FrontRoomStore.RoomStore.RemoveMember | poker_score_frontend/src/stores/room.ts:117-120 | nothing happens without a room; otherwise the id's entries are removed |
| FrontRoomStore.RoomStore.AddOperation | poker_score_frontend/src/stores/room.ts:182-184 | the normalised operation goes to the front of the feed |
| FrontRoomStore.RoomStore.SetOperations | poker_score_frontend/src/stores/room.ts:187-189 | the feed is replaced by the normalised list |
| FrontRoomStore.RoomStore.UpdateMyBalance | poker_score_frontend/src/stores/room.ts:192-196 | the own balance is set when a room is shown |
| FrontRoomStore.RoomStore.UpdateTableBalance | poker_score_frontend/src/stores/room.ts:199-203 | the table balance is set when a room is shown |
| FrontRoomStore.RoomStore.ClearRoomInfo | poker_score_frontend/src/stores/room.ts:582-587 | no room, no feed, no settlement context |
| FrontRoomStore.RoomStore.OnSettlementConfirmed | poker_score_frontend/src/stores/room.ts:533-566 | the context is marked confirmed; a missing one is built from the message, initiated by the confirmer under their nickname (or ""), at the settlement time, with no plan and the room's table balance (or 0); one confirmation joins the feed, and the own, table and member balances become 0 |
| FrontRoomStore.RoomStore.OnUserKicked | poker_score_frontend/src/stores/room.ts:365-387 | the kicked member takes the message's status (or 'offline') and a kick entry joins the feed; when the kicked user is the viewer, the room, feed and context are cleared |
| FrontRoomStore.KickOperation | poker_score_frontend/src/stores/room.ts:365-387 | the feed entry of a kick is a kick operation by the kicker naming the kicked user, without amount or bets |
| FrontRoomStore.ZeroBalancesSettles | poker_score_frontend/src/stores/room.ts:533-566 | after a confirmation the members are the same, in the same order, with balance 0 |
| ApiRequest.JsTrimStart | poker_score_frontend/src/api/request.ts:7-8 | the result starts with no JavaScript whitespace |
| ApiRequest.JsTrimEnd | poker_score_frontend/src/api/request.ts:7-8 | the result ends with no JavaScript whitespace |
| ApiRequest.BuildVariable | poker_score_frontend/src/api/request.ts:7-8 | a build variable is trimmed at both ends, and "" when unset |
| ApiRequest.ResolveApiBaseUrl | poker_score_frontend/src/api/request.ts:20-42 | the URL is never empty and is the native URL, the web URL or "/api" |
| ApiRequest.ResolveApiBaseUrlOrder | poker_score_frontend/src/api/request.ts:20-42 | the order in which the sources win |
| ApiRequest.NormalizeBaseUrl | poker_score_frontend/src/api/request.ts:50-56 | an absolute URL is kept; anything else starts with '/' |
| ApiRequest.NormalizeBaseUrlIdempotent | poker_score_frontend/src/api/request.ts:50-56 | normalising twice is normalising once |
| ApiRequest.ApiBaseUrl | poker_score_frontend/src/api/request.ts:20-56 | the client's base URL is absolute or rooted at '/' |
| ApiRequest.AuthorizationRoundTrip | poker_score_frontend/src/api/request.ts:66-75 | the server's middleware reads back exactly the session id the client sent |
| ApiRequest.ClientSession.constructor | poker_score_frontend/src/api/request.ts:66-75 | the stored session id is the given one |
| ApiRequest.ClientSession.OnResponse | poker_score_frontend/src/api/request.ts:83-101 | Ok iff code 0; errors carry the server's message or a stock one; 401 clears the stored session |
| ApiRequest.ClientSession.OnHttpError | poker_score_frontend/src/api/request.ts:103-127 | an HTTP 401 clears the stored session; any other status keeps it |

## Left out

- Database failures, transaction rollback after a failed write, and lookups of rooms that do not exist are not modelled. Each room is one `Room` object, and the service methods act on it directly.
- Request binding and JSON encoding are left out. The controllers are modelled only through the checks they make before calling a service.
- Broadcast payloads are reduced to the events the model records. The goroutines, channels and read/write pumps of the WebSocket layer are left out. The hub's `Run` loop is one method per case.
- Money is float64 in the source and `real` in the model, so rounding is not modelled.
- strconv.ParseFloat is modelled only for plain decimal notation with an optional sign. Exponents, "inf", "nan" and hexadecimal floats read as unparsable.
- The random draw of a room code, UUID batch ids, the clock, password hashing (bcrypt) and JSON.parse are parameters. Each is a value or a function the caller supplies.
- `getEnvAsInt` and `getEnvAsDuration` of the configuration loader are left out. They feed only settings that no modelled operation reads.
- `EnsureActiveMember` and `ManualDissolveRoom` are called by the room controller, but their source is not part of this model. They get the minimal behaviour their callers need: an open membership in an active room, and dissolving an active room.
- `ReturnToRoom` and `broadcastForceTransfer` are likewise not part of this model.
- Controllers.SettleAndDissolve: the second status check inside the dissolve transaction is not modelled. Once the controller's checks have passed it cannot fail in a sequential model, so the method states only the success case.
- Rooms.GetLastRoom: ties between equal join times are broken by the model's table order, which the database query does not promise. The error when the room row is missing is not modelled.
- Records.FindFriendsWithBfs: returns a set. The order of Go's map iteration is not modelled.
- Records.GetTonightRecords: the `current_rooms` list of the response is left out. The start of the day is a parameter `midnight`, so daylight saving changes are not modelled.
- RoomHub.Hub.Broadcast: a client's send buffer only fills. Draining by the write pump is not modelled.
- AuthCookies.IsMobileWebView: the regular expression is reduced to case-insensitive containment of its markers.
- AuthCookies.ResolveCookieDomain: strings.EqualFold is modelled by `Common.SimpleFold`, which folds ASCII and Latin-1 letters, Y with diaeresis, the Kelvin sign, the Angstrom sign and the long s. Case pairs of other scripts (Greek, Cyrillic, most of Latin Extended) compare unequal in the model, where Go matches them. AuthCookies.CookieSecure and AuthCookies.IsMobileWebView compare only against ASCII words, so for them the folding is complete.
- Records.GetTonightRecords: total_check is a sum of reals, so it does not depend on the order Go visits the summaries in. With float64 the order can change the last bits.
- Middlewares.FromAuthorization compares characters where Go compares bytes. The two agree because the "Bearer " prefix is ASCII.
- Other WebSocket handlers of the client store are left out: `user_joined`, `user_returned`, `user_left`, `bet`, `niuniu_bet`, `withdraw`, `settlement_initiated` and `room_dissolved`. So are `connectWebSocket`, `resolveBackendOrigin`, router navigation and toast messages.
- Whether the client runs natively (`isNativeRuntime`) is a parameter.

## Findings

| source | as written | input that shows it | evidently intended | confidence | as-written member | corrected member |
|---|---|---|---|---|---|---|
| backend/services/room_service.go:465-492 | the pot counts stakes minus withdrawals and ignores force transfers, so the chips a force transfer hands out stay on the table | owner bets 500, member bets 300, owner stakes 50 on a niuniu bet, withdraws 250, then force-transfers the 600 left: the pot still reads 600, where the integration test (backend/controllers/integration_test.go:354) expects 0 | a force transfer takes its amount off the table, like a withdrawal | not executed | Ledger.PotAsWritten, Ledger.ForceTransferLeavesPhantomPot | Ledger.Pot, Ledger.Room.ForceTransfer, Ledger.Room.Withdraw, Ledger.Room.CheckAndDissolve, Ledger.Room.InitiateSettlement, Ledger.Room.ConfirmSettlement, Controllers.WithdrawRequest, Controllers.DissolveRoom |

Every member that reads the table balance uses the corrected `Ledger.Pot`: the withdrawal limit, the automatic settlement of an inactive room, the table balance of a settlement plan and its confirmation, and the controllers' withdrawal and dissolution checks. Where a force transfer has happened, their results differ from the source's, which would still count the transferred chips as on the table.
