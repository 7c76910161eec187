# CrossDesk signalling server: verified model

CrossDesk's signalling server keeps the same facts in several places: routing and session maps in memory
(`TransmissionManager`), presence sets in memory (`PresenceManager`), and SQLite tables with the open sessions, the
online flags and the accumulated seconds (`DeviceDBManager`). This project models those three, the handlers that tie
them together, and four satellites: the GeoIP lookup scheduler, the password-change replay cache, the ICE configuration
and the geographic reports. It proves that the copies stay in agreement through logins, duplicate sockets, leaves,
closes, timeouts, admin disconnects, pruning, crashes and restarts, and it states exactly when they do not.

## How it is built

Each component has a value-level model (datatypes, functions, step relations) about which the theorems are proved, and
classes whose methods update fields in place, as the program does, and are proved to carry out exactly one step of that
model. Where the program walks a map, the model lets the walk take any order, so the results hold for every order.

What the functions of the model compute is stated a second time without them, with limits as numbers: read off the
actions of a run (`ServerEffects`), off the operations and the columns (`RowEffects`), off the steps of the lookup worker
(`GeoIpSchedule`), off the requests (`PasswordChange.RepliesAre`), off a regular expression and the places in a
configuration (`IceGrammar`, `IceMeaning`), and off the clients' places (`GeoMeaning`).

| part | modules |
|---|---|
| tables, accounting, conservation | `Ledger`, `RowEffects`, `Accounting`, `Conservation`, `FilteredStatistics`, `DeviceDB` |
| routing and session maps | `Transmission`, `TransmissionFacts`, `Transmissions` |
| callbacks, restore, the server as a state machine | `Delivery`, `Restore`, `ServerModel`, `ServerSteps`, `ServerSafety`, `ServerRuns`, `ServerEffects`, `SignalServers`, `Witnesses` |
| GeoIP scheduler | `GeoIpModel`, `GeoIpSafety`, `GeoIpSchedule`, `GeoIpService`, `Backoff` |
| password changes | `PasswordChange` |
| ICE configuration | `IceEndpoint`, `IceGrammar`, `IceServers`, `IceFacts`, `IceMeaning` |
| LIKE patterns and id lists | `TextSearch` |
| geographic reports | `GeoDistribution`, `GeoReport`, `GeoMeaning` |
| shared | `Identity`, `Options`, `Orders`, `Sums` |

`dafny verify dfyconfig.toml` checks everything.

## Assumptions

- SQL statements succeed, and the clock the database reads never runs backwards.
- Session callbacks do not call back into `TransmissionManager`. The manager records its callbacks in order and the
  server delivers them after the operation that made them. The callbacks write to presence and database only, and read
  the manager only to address messages, which are left out, so the records end up the same.
- What is bound to a statement ends at its first NUL character (`c_str(), -1`, for instance at
  src/device_db_manager/device_db_manager.cpp:718, 995, 1140-1146 and 1257-1259), while the objects in memory keep the
  whole text. `Identity.Stored` is that cut; the tables of the model hold cut ids, and the tests on ids are made on the
  whole ones, as in the program.
- A join whose password check passed names a device that the database knows (src/signal_negotiation.cpp:372-374,
  src/device_db_manager/device_db_manager.cpp:823-866), and the database made those ids itself
  (src/device_db_manager/device_db_manager.cpp:648-818), so something of a joined id reaches the database
  (`ServerModel.JoinStep`, and the preconditions of `OnJoin`, `Deliver` and `StartRemoteControlSession`). `OnJoin` also
  takes for granted that transmissions carry their hosts' ids, which every run keeps (`ServerRuns.RunsKeepCore`).
- `ServerRuns.RunsAreSafe` asks four things of clients (`ServerModel.Polite`): a socket logs in under one id only, its
  handle is a real connection, no id holds a NUL character, and whoever joins has a non-empty id without a comma.
  `ServerRuns.RunsKeepCore` asks nothing.
- Every handler of the server model is one step. In the program the alive checker is a thread of its own, and a handler
  takes the manager's lock several times. Some interleavings break the agreement. For instance, a repeated login finds
  the user of a silent socket (src/signal_server.cpp:852), the sweep logs that user out, and then the presence step puts
  it online. What that step does when anything came in between is stated exactly (`ServerSafety.LatePresenceStepIff`),
  that this sweep can come in between is shown by a run (`Witnesses.SweepInsideLogin`), and what its second half alone
  does, after a sweep between the two lock scopes of src/presence_manager.cpp:109-122, is
  `ServerSafety.LateFlagIff`. The GeoIP model has no such assumption.

## What turned out not to hold in general

Each of these is stated with the condition under which the code does meet the property, in both directions, and with a
run from an empty database, or an input that clients can send, in which it fails.

- Logging in under a second id on a socket that is already logged in leaves the first user routed to a socket that is
  not theirs (`TransmissionFacts.BindKeepsRoutingIff`), and online for ever if it was the user's last socket
  (`ServerSafety.LoginKeepsPresenceIff`; run: `Witnesses.SecondLoginBreaks`).
- An id with a NUL character, such as "C-1" followed by NUL and "x", can log in and join. What comes before the
  character is then online in the database with nobody bound to it (`ServerSafety.LoginKeepsPresenceIff`; run:
  `Witnesses.NulLoginBreaks`), and a session is in memory under the whole id and in the table under the cut one
  (`ServerSafety.JoinKeepsMirrorIff`; run: `Witnesses.NulJoinBreaks`). The program refuses such characters in one field
  only (src/signal_negotiation.cpp:35).
- A sweep between the two halves of a login's presence step leaves a user online without a socket
  (`ServerSafety.LatePresenceStepIff`; run: `Witnesses.SweepInsideLogin`).
- A socket that never logged in passes the sender check of a join with the empty user id; memory then holds a session
  the database refuses (`ServerSafety.JoinKeepsMirrorIff`; run: `Witnesses.EmptyIdBreaks`).
- Guest ids that hold a comma, such as "C-1,2", do not survive the comma-joined listing, so a restart does not rebuild
  them (`ServerRuns.RestartMirrorsIff`, `TextSearch.SplitOfJoin`; run: `Witnesses.CommaBreaks`). Nor does it rebuild a
  guest whose id is empty, or the host's, after the cut at a NUL character.
- A user who hosts several transmissions leaves all but one behind (`TransmissionFacts.CleanDeparture`). No run gets
  there, because a transmission carries its host's id: in every run a user whose last socket goes is host and guest
  nowhere (`ServerRuns.RunsDepartCleanly`).
- A GeoIP lookup that is given up between its "is anybody still there" test and its erase is lost for a device that logs
  in between (`GeoIpSafety.GiveUpIsHarmlessIff`; run: `GeoIpSafety.LookupCanBeLost`).
- Control and controlled seconds balance over all rows. Over a part of the rows, as the statistics page sums them, they
  balance if and only if the sessions that have their guest alone in the part lasted as long, taken together, as those
  that have their host alone (`FilteredStatistics.FilteredBalance`), for instance when no session crosses the border of
  the part (`FilteredStatistics.FilteredBalanceInside`); a browser's session does
  (`FilteredStatistics.FilteredStatisticsUnbalanced`).
- The grouped geographic query leaves out ids that begin with a lower-case "c-", such as "c-C-1", because SQLite's LIKE
  ignores case; the tally in memory counts them (`GeoReport.ReportsAgreeIff`; run: `Witnesses.LowerCaseIdBreaks`).
- Two users share a password-change key if and only if one's id is the other's followed by a line break and more and the
  request ids make up for it (`PasswordChange.KeysAgreeIff`). Ids that can log in do that: a device's request is refused
  after a controller whose id begins with the device's and a line break used the key
  (`PasswordChange.SharedKeyRefuses`).

## Model

| member | source | states |
|---|---|---|
| Identity.Stored | src/device_db_manager/device_db_manager.cpp:1140-1146 | what of a bound text reaches the database: everything before the first NUL character, so the whole text exactly when it holds none |
| Identity.StoredKind | src/device_db_manager/device_db_manager.cpp:995 | a cut id is a browser's, a controller's or a device's exactly when the whole id is |
| Identity.StoredNormalize | src/device_db_manager/device_db_manager.cpp:125-127 | taking the controller's prefix off and cutting at a NUL character commute |
| Identity.NormalizeMeans | src/device_db_manager/device_db_manager.cpp:125-127 | a controller "C-" + x is accounted to device x, any other id to the device of that id, and no id to any other |
| Ledger.WellFormedStep | src/device_db_manager/device_db_manager.cpp:955-1275 | every persistent operation, restart included, keeps the tables consistent: both parties of a session have a presence row, the transmission's and the host's id are not empty, no id holds a NUL character, and a row has a start of its online interval exactly while it is online |
| Ledger.WellFormedRun | src/device_db_manager/device_db_manager.cpp:516-598 | the same for every sequence of operations with a clock that does not run backwards |
| Ledger.ClientIsLatest | src/device_db_manager/device_db_manager.cpp:1055-1063 | the stored version and platform of a device are what its client said last, as far as it reaches the database, in every run; no other operation, restarts included, touches them |
| RowEffects.OnlineWrites | src/device_db_manager/device_db_manager.cpp:955-988 | a login leaves in every column of every row: the device online since now, or since before if it was online, with nothing banked; other rows, sessions and the heartbeat as they were |
| RowEffects.OfflineWrites | src/device_db_manager/device_db_manager.cpp:955-988 | a logout likewise: offline, with the length of the running interval added to the online total |
| RowEffects.ClientWrites | src/device_db_manager/device_db_manager.cpp:1045-1075 | client information goes, cut at a NUL character, the version into the version and the platform into the platform column of that device, and into no other column |
| RowEffects.StartWrites | src/device_db_manager/device_db_manager.cpp:1077-1162 | a start adds the session's row with its host and time unless its key exists, and blank rows for the devices its two parties are accounted to where missing; nothing else changes |
| RowEffects.EndWrites | src/device_db_manager/device_db_manager.cpp:1164-1275 | an end removes the session's row and adds its length to the control seconds of the device its guest is accounted to and to the controlled seconds of the device its host is accounted to; nothing else changes |
| RowEffects.LastSeenIs | src/device_db_manager/device_db_manager.cpp:933-953 | in every run the process was last known to run at the time of the last heartbeat or restart among the operations |
| RowEffects.RecoverWrites | src/device_db_manager/device_db_manager.cpp:516-598 | a restart keeps all sessions if the last heartbeat is at most 120 seconds ago and drops them otherwise, takes everybody offline as of the last heartbeat, and leaves the client columns alone |
| Accounting.ReportedLinear | src/device_db_manager/device_db_manager.cpp:1773-1782 | between operations the reported control and controlled totals grow by one second per second and open session |
| Accounting.FigureNeverJumps | src/device_db_manager/device_db_manager.cpp:1077-1275 | starting, ending or re-adding a session, and every login or logout, leaves each device's reported control and controlled total what it was at that moment |
| Accounting.OnlineFigureNeverJumps | src/device_db_manager/device_db_manager.cpp:955-999 | the same for the reported online total, also when a login is repeated |
| Accounting.ExactAccounting | src/device_db_manager/device_db_manager.cpp:1077-1275 | in any run without a restart the reported total is the initial one plus the integral over time of the number of the device's open sessions, an independent reference read off the operations alone |
| Accounting.ExactOnlineAccounting | src/device_db_manager/device_db_manager.cpp:963-988 | the reported online total is the initial one plus the time the device was online |
| Accounting.RecoveredFigures | src/device_db_manager/device_db_manager.cpp:516-593 | what a restart shows: online totals as of the last heartbeat; control totals as of it too when sessions are finalised, and unchanged when they are recovered |
| Accounting.RestartSandwich | src/device_db_manager/device_db_manager.cpp:516-593 | after crash and restart the online total lies between what was shown at the last heartbeat and what was shown at the crash; control totals too when the gap exceeds 120 s, and nothing at all is lost otherwise |
| Conservation.ExchangeIn | src/device_db_manager/device_db_manager.cpp:1576-1583 | summing live seconds device by device, over any devices, equals summing them over the sessions whose party is one of the devices |
| Conservation.Exchange | src/device_db_manager/device_db_manager.cpp:527-544 | so it equals the sum over all sessions, if every session's party has a row |
| Conservation.RecoverGrandTotal | src/device_db_manager/device_db_manager.cpp:525-554 | the bulk finalisation raises the control and the controlled grand total by the same amount, the live seconds up to the cut-off |
| Conservation.BalancedStep | src/device_db_manager/device_db_manager.cpp:1240-1246 | every operation keeps the sum of control seconds equal to the sum of controlled seconds |
| Conservation.BalancedRun | src/device_db_manager/device_db_manager.cpp:1105-1128 | and so does every run, restarts included |
| Conservation.SecondsAreConserved | src/device_db_manager/device_db_manager.cpp:1773-1782 | from an empty database on, banked and reported control seconds equal banked and reported controlled seconds over all rows at any moment |
| FilteredStatistics.PartFigure | src/device_db_manager/device_db_manager.cpp:1576-1583 | in any run, restarts included, what a part of the devices shows is what was banked plus the seconds of the sessions with a party in the part, an independent reference read off the operations |
| FilteredStatistics.FilteredBalance | src/device_db_manager/device_db_manager.cpp:1567-1586 | at any moment the statistics over a part of the devices show equal control and controlled seconds if and only if the sessions with their guest alone in the part lasted as long in all as those with their host alone |
| FilteredStatistics.FilteredBalanceInside | src/device_db_manager/device_db_manager.cpp:1584-1586 | they do whenever every session was started with both parties in the part or neither |
| FilteredStatistics.FilteredStatisticsUnbalanced | src/device_db_manager/device_db_manager.cpp:1584-1586 | any browser controlling any device for ten seconds: from then on the statistics show 0 and 10 |
| DeviceDB.DeviceDBManager.InitDB | src/device_db_manager/device_db_manager.cpp:516-598 | opening the file of a dead process performs exactly the recovery step on its tables |
| DeviceDB.DeviceDBManager.Restore | src/device_db_manager/device_db_manager.cpp:524-597 | the recovery statements, row by row, amount to the recovery step |
| DeviceDB.DeviceDBManager.SumLive | src/device_db_manager/device_db_manager.cpp:1774-1776 | the per-device sum is the sum over that device's sessions in the given role |
| DeviceDB.DeviceDBManager.RecordRuntimeHeartbeat | src/device_db_manager/device_db_manager.cpp:933-953 | performs the heartbeat step |
| DeviceDB.DeviceDBManager.SetDeviceOnline | src/device_db_manager/device_db_manager.cpp:955-999 | performs the online or offline step: a repeated login keeps the running interval, a logout banks it |
| DeviceDB.DeviceDBManager.UpdateDeviceClientInfo | src/device_db_manager/device_db_manager.cpp:1045-1075 | stores version and platform, creating a missing row, and changes no time; refuses the empty id |
| DeviceDB.DeviceDBManager.StartRemoteControlSession | src/device_db_manager/device_db_manager.cpp:1077-1162 | refuses empty ids and self-control, testing the whole ids; otherwise ensures both rows and inserts the session, under the cut ids, unless its key exists |
| DeviceDB.DeviceDBManager.EndRemoteControlSession | src/device_db_manager/device_db_manager.cpp:1164-1275 | banks the session's length on both sides and deletes the row of the cut ids; a missing row is not an error, an empty id is |
| DeviceDB.DeviceDBManager.EndRemoteControlTransmission | src/device_db_manager/device_db_manager.cpp:1277-1310 | asks for the end of every row of the transmission exactly once and of no other; all go but one whose guest's id is empty, which makes the result false |
| DeviceDB.DeviceDBManager.ListRemoteControlSessions | src/device_db_manager/device_db_manager.cpp:1373-1427 | exactly one entry for every (transmission, host) group of the rows the search finds, with the group's guests after the comma-join and split |
| DeviceDB.ListedIff | src/device_db_manager/device_db_manager.cpp:1373-1427 | a transmission and host are an entry of the listing if and only if the pattern that is bound matches the transmission, the host or the guest of one of their rows, and the guests concatenated for the entry are those of the rows it matches |
| DeviceDB.DeviceDBManager.CountActiveRemoteControlConnections | src/device_db_manager/device_db_manager.cpp:1312-1332 | the number of session rows |
| DeviceDB.DeviceDBManager.ReportedSeconds | src/device_db_manager/device_db_manager.cpp:1773-1782 | the dashboard's total is the banked seconds plus the live ones at the moment it asks |
| Transmission.FilterKeepsSessionMap | src/transmission_manager.cpp:268-297 | taking guests off every list keeps lists non-empty and duplicate-free and removes exactly the refused pairs |
| Transmission.EndsCount | src/transmission_manager.cpp:308-353 | there are as many end callbacks as pairs went away |
| TransmissionFacts.BindGuestKeepsSessionMap | src/transmission_manager.cpp:220-243 | a join adds exactly its pair, and only to an existing transmission the guest does not host and is not in |
| TransmissionFacts.ReleaseKeepsSessionMap | src/transmission_manager.cpp:83-101 | releasing a transmission removes exactly its pairs and keeps the session map consistent |
| TransmissionFacts.PruneLeavesConnected | src/transmission_manager.cpp:308-353 | after pruning, the transmissions left are those whose host is connected and the sessions left are those whose two parties are; nothing else went |
| TransmissionFacts.DepartureKeepsSessionMap | src/transmission_manager.cpp:355-380 | releasing a socket keeps the session map consistent |
| TransmissionFacts.CleanDeparture | src/transmission_manager.cpp:355-380 | when a user's last socket goes the user is guest nowhere, is host nowhere if and only if it hosted at most one transmission, and everybody else's sessions are untouched |
| TransmissionFacts.RoutingMeaning | src/transmission_manager.cpp:418-436 | with agreeing indexes a user has a route exactly when some socket is bound to it, and the route is a socket of that user |
| TransmissionFacts.BindKeepsRoutingIff | src/transmission_manager.cpp:245-252 | a login keeps the indexes in agreement if and only if it does not take the socket another user is routed to |
| TransmissionFacts.ReleaseKeepsRouting | src/transmission_manager.cpp:382-410 | releasing a socket, with reassignment to a duplicate, keeps the indexes in agreement |
| TransmissionFacts.DepartureKeepsRouting | src/transmission_manager.cpp:355-410 | so does releasing a whole session |
| TransmissionFacts.SweepUnbinds | src/transmission_manager.cpp:475-493 | a sweep unbinds and unwatches exactly the handles it gave up |
| TransmissionFacts.SweepCallsBack | src/transmission_manager.cpp:475-493 | one timeout callback for each handle given up; a user is named by exactly one if no handle of it is left, and by none otherwise |
| TransmissionFacts.SweepKeepsInvariants | src/transmission_manager.cpp:475-493 | a sweep keeps the session map and the routing indexes |
| TransmissionFacts.SweepWatches | src/transmission_manager.cpp:475-493 | afterwards the watched handles are exactly those alive and active within ten seconds |
| Transmissions.TransmissionManager.IsHost | src/transmission_manager.cpp:103-109 | finds a transmission the user hosts, or none if there is none |
| Transmissions.TransmissionManager.BindHostToTransmission | src/transmission_manager.cpp:208-218 | the first host of a transmission stays its host |
| Transmissions.TransmissionManager.BindGuestToTransmission | src/transmission_manager.cpp:220-243 | adds the pair and calls back its start with the stored host, or changes nothing and calls nothing |
| Transmissions.TransmissionManager.BindUserToWsHandle | src/transmission_manager.cpp:245-252 | binds both ways and starts watching the handle |
| Transmissions.TransmissionManager.UpdateWsHandleLastActiveTime | src/transmission_manager.cpp:438-448 | records the time for a logged-in handle and nothing for another, and says which it was |
| Transmissions.TransmissionManager.ReleaseTransmission | src/transmission_manager.cpp:83-101 | removes the transmission and ends, once each and with its host, exactly its pairs |
| Transmissions.TransmissionManager.ReleaseGuestFromTransmission | src/transmission_manager.cpp:268-297 | takes the guest off every list, drops lists that become empty, and ends exactly the guest's pairs |
| Transmissions.TransmissionManager.DisconnectTransmission | src/transmission_manager.cpp:299-306 | as ReleaseTransmission, and harmless when there is no such transmission |
| Transmissions.TransmissionManager.ReleaseUserFromWsHandle | src/transmission_manager.cpp:382-410 | unbinds the handle; the user's route moves to another of its handles, or goes |
| Transmissions.TransmissionManager.ReleaseUserSession | src/transmission_manager.cpp:355-380 | carries out one departure of the model and returns who logged out |
| Transmissions.TransmissionManager.PruneDisconnectedTransmissions | src/transmission_manager.cpp:308-353 | the two loops and the nested erase loop compute the pruned state; the result is the number of end callbacks, which end exactly the pruned pairs |
| Transmissions.TransmissionManager.PruneGuestsOf | src/transmission_manager.cpp:327-350 | the erase-while-iterating loop over one guest list keeps exactly the connected guests, in order |
| Transmissions.TransmissionManager.GetActiveConnectionCount | src/transmission_manager.cpp:450-460 | the number of (transmission, guest) pairs |
| Transmissions.TransmissionManager.ExpireInactiveSessions | src/transmission_manager.cpp:475-493 | terminates, gives up exactly the dead or silent handles, once each, and its callbacks are those of the departures in order |
| Delivery.RecordedFollows | src/signal_server.cpp:160-172 | the rows and the online flags after recorded operations are what the operations alone say |
| Delivery.EndsCloseLog | src/transmission_manager.cpp:83-101 | exact end callbacks close exactly the vanished pairs in the callback log |
| Delivery.EndsCloseRows | src/signal_server.cpp:160-172 | and exactly their rows in the database, a row being that of the cut ids |
| Restore.AllRebuilt | src/signal_server.cpp:114-137 | the two restore loops rebuild exactly the listed pairs, with callbacks that alternate and write no other rows |
| Restore.ListingIsFaithfulIff | src/device_db_manager/device_db_manager.cpp:1383-1427 | the listing gives back the rows if and only if every guest's id is non-empty, without a comma and not the host's |
| TextSearch.EscapeLikePattern | src/device_db_manager/device_db_manager.cpp:30-40 | the loop escapes the wildcard and escape characters |
| TextSearch.FoldMeans | src/device_db_manager/device_db_manager.cpp:1389-1391 | LIKE tells two characters apart unless they are the same or the two cases of one ASCII letter |
| TextSearch.SearchMeansSubstring | src/device_db_manager/device_db_manager.cpp:1387-1413 | a pattern made from a search string finds exactly the texts that contain the string, up to ASCII case, whatever wildcard or escape characters it holds |
| TextSearch.SearchFinds | src/device_db_manager/device_db_manager.cpp:1387-1413 | what the search finds for every search string: that, or, if the string holds a NUL character, the texts that end with what comes before it, because the pattern is cut there and loses its last wildcard |
| TextSearch.SplitCommaSeparatedIds | src/device_db_manager/device_db_manager.cpp:129-148 | the find-and-cut loop computes the non-empty fields, sorted and without repeats |
| TextSearch.SplitIsClean | src/device_db_manager/device_db_manager.cpp:129-148 | the pieces are non-empty, comma-free and strictly sorted |
| TextSearch.SplitHasNoNul | src/device_db_manager/device_db_manager.cpp:129-148 | the pieces of a join of texts without NUL characters hold none |
| TextSearch.SplitMeans | src/device_db_manager/device_db_manager.cpp:129-148 | for every text, the pieces are the non-empty stretches between commas or ends, in the order of their first differing characters |
| TextSearch.SplitOfJoin | src/device_db_manager/device_db_manager.cpp:129-148 | splitting a join gives back exactly the ids if and only if all are non-empty and comma-free |
| ServerSteps.DepartureSettles | src/signal_server.cpp:536-576 | a close takes exactly the ended pairs out of the log, their rows out of the table and exactly the logged-out user out of the online set |
| ServerSteps.SweepSettles | src/signal_server.cpp:677-689 | so does a whole timeout sweep |
| ServerSteps.SweptWereConnected | src/transmission_manager.cpp:475-493 | a sweep logs out only users who were bound to a socket, and binds nobody |
| ServerSafety.MirrorMeans | src/signal_server.cpp:160-172 | memory mirrors the rows with the same hosts exactly when the pairs in memory are the keys of the rows |
| ServerSafety.TablesHoldStoredIds | src/device_db_manager/device_db_manager.cpp:1140-1146 | whatever was recorded, no id of a session row or of an online row holds a NUL character, and no transmission id is empty |
| ServerSafety.LoginKeepsPresenceIff | src/signal_server.cpp:849-858 | a login keeps presence, database and bindings in agreement if and only if it does not take another user's last socket and the accepted id holds no NUL character |
| ServerSafety.LatePresenceStepIff | src/signal_server.cpp:851-857 | when other steps come between reading the user and putting it online, presence, database and bindings agree afterwards if and only if the user is still connected, or it is a controller and somebody is connected under its cut id |
| ServerSafety.LateFlagIff | src/presence_manager.cpp:120-122 | when other steps come just before the online flag is written, they agree afterwards if and only if somebody is connected under the cut id |
| ServerSafety.JoinKeepsMirrorIff | src/signal_negotiation.cpp:343-424 | a join keeps memory and rows in agreement if and only if it adds no session, or one whose guest's id is not empty and whose ids hold no NUL character |
| ServerSafety.AdminIsSettled | src/admin/admin_controller.cpp:723-775 | an admin disconnect finds no leftover rows when memory mirrors the database and every guest in memory is named, and ends exactly the transmission's sessions |
| ServerRuns.RestartMirrorsIff | src/signal_server.cpp:114-137 | after a restart memory mirrors the rows if and only if every surviving guest's id is non-empty, without a comma and not the host's |
| ServerRuns.RestartKeepsRows | src/device_db_manager/device_db_manager.cpp:1130-1134 | rebuilding the sessions changes no recovered row, whatever the ids: every started_at is kept |
| ServerRuns.RestartAddsNoRows | src/signal_server.cpp:114-137 | and it adds no row when every surviving guest's id is of that kind |
| ServerRuns.StepKeepsInvariant | src/signal_server.cpp:817-868 | every step, of login, join, leave, close, ping, client information, timeout sweep, pruning, admin disconnect, heartbeat and restart, keeps memory, presence, routing, callbacks and database in agreement |
| ServerRuns.RunsAreSafe | src/signal_server.cpp:141-214 | in every state of every run of polite clients, across restarts: the pairs in memory are the session rows with the same hosts; a user is in the online sets and online in the database exactly when it has a bound socket; routing agrees; start and end callbacks alternate per pair |
| ServerRuns.StepKeepsCore | src/signal_server.cpp:817-868 | session lists, self-hosting and the alternation of callbacks survive every step of any client |
| ServerRuns.RunsKeepCore | src/transmission_manager.cpp:83-101 | in every state of every run, whatever clients send: session lists in order, callbacks alternate and leave open exactly the sessions in memory, and seconds are conserved |
| ServerRuns.RunsDepartCleanly | src/transmission_manager.cpp:355-380 | in every run, whatever clients send: a user whose last socket is closed or given up by the sweep is bound to nothing, host of no transmission and guest of none afterwards |
| ServerRuns.CountsAgree | src/signal_server.cpp:597-606 | the two connection counts the statistics take the maximum of are equal |
| ServerRuns.LateCloseIsHarmless | src/signal_server.cpp:536-576 | closing a timed-out or duplicate socket logs nobody out, ends nothing and changes no online flag |
| ServerRuns.ServerConserves | src/device_db_manager/device_db_manager.cpp:1240-1246 | in every reachable state control seconds equal controlled seconds |
| ServerEffects.RunsWatch | src/transmission_manager.cpp:438-448 | in every run, whatever clients send: a socket is bound to the user of the latest accepted login on it since when it was neither closed nor given up nor the server restarted, and its recorded activity is the time of that login or of a later ping on it, read off the actions alone |
| ServerEffects.RunsSweepIff | src/transmission_manager.cpp:475-493 | in every run a sweep gives up a bound socket if and only if its connection is gone or its latest login or ping is more than 10000 ms old |
| ServerEffects.RunsPresence | src/presence_manager.cpp:109-150 | in every run of polite clients, a user is online in the database and in its set in memory if and only if one of the sockets that the actions alone leave is the user's; devices, browsers and controllers told apart by "web-" and "C-" |
| ServerEffects.StepSessions | src/signal_negotiation.cpp:247-286 | exactly which sessions and transmissions outlive each step but a restart, and which join makes one: a host that leaves takes its transmission and all its guests with it, another user that leaves takes its own sessions only, a closed or silent user both; a join needs the right password, a live socket of the host and the sender's own id |
| ServerEffects.RunsSessions | src/signal_negotiation.cpp:247-424 | the same in every run, and, as long as clients are polite, of the rows of the database |
| ServerEffects.StepRoutes | src/transmission_manager.cpp:245-410 | a login takes the user's messages to its socket; nothing else moves them while that socket is logged in |
| ServerEffects.RestartSessions | src/signal_server.cpp:114-137 | after a restart within 120 seconds of the last heartbeat the sessions are the rows there were, in memory and in the database, if their guests' ids are restorable; after a later one there are none |
| ServerEffects.StepClients | src/signal_negotiation.cpp:211-245 | the client columns of every device after every step: what its client says if version and platform are non-empty and at most 64 and 32 characters, nothing after a login of a registered device, and otherwise what they were |
| SignalServers.PresenceManager.OnLogin | src/presence_manager.cpp:109-124 | adds the id to the set of its kind and records the online flag |
| SignalServers.PresenceManager.OnLogout | src/presence_manager.cpp:126-150 | removes the id from the set of its kind, clears the online flag and forgets the network information |
| SignalServers.SignalServer.constructor | src/signal_server.cpp:141-214 | a new process on the file of a dead one takes the restart step |
| SignalServers.SignalServer.RestorePersistedSessions | src/signal_server.cpp:114-137 | rebuilds the listed sessions and records their starts |
| SignalServers.SignalServer.Deliver | src/signal_server.cpp:160-172 | presence and database take in the callbacks, in order |
| SignalServers.SignalServer.LoginUser | src/signal_negotiation.cpp:112-209 | binds the accepted id to the socket and to its transmission, and clears a registered device's client information |
| SignalServers.SignalServer.Appear | src/signal_server.cpp:853-857 | the presence step and the network information of a user: online in its set and in the database, located nowhere yet, its lookup asked for if there is a resolver |
| SignalServers.SignalServer.EnqueueClientNetworkInfo | src/signal_server.cpp:321-371 | resets the device's network information to the bare address and, if there is a resolver, enqueues its lookup; with a resolver these are the login steps of the lookup model |
| SignalServers.AskedMeans | src/signal_server.cpp:321-371 | what a login leaves in the network information is the bare address, and what it asks the lookup queue for is what the login steps of the lookup model ask for, or nothing without a resolver |
| SignalServers.SignalServer.OnLogin | src/signal_server.cpp:849-858 | login_user, the presence step and the network information take the login step |
| SignalServers.SignalServer.OnJoin | src/signal_negotiation.cpp:343-424 | takes the join step, with its three refusals |
| SignalServers.SignalServer.OnLeave | src/signal_negotiation.cpp:247-286 | takes the leave step: a host ends its transmission, anybody else leaves every transmission |
| SignalServers.SignalServer.OnClientInfo | src/signal_negotiation.cpp:211-245 | takes the version step: version and platform of a tracked, logged-in device are stored if they are of an allowed length |
| SignalServers.SignalServer.OnPing | src/signal_server.cpp:667-675 | takes the ping step |
| SignalServers.SignalServer.OnClose | src/signal_server.cpp:536-576 | takes the close step |
| SignalServers.SignalServer.OnAliveCheck | src/signal_server.cpp:677-689 | takes the timeout step |
| SignalServers.SignalServer.OnRecoveredSessionCleanup | src/signal_server.cpp:705-723 | takes the pruning step; the number it logs is the drop in the number of connections |
| SignalServers.SignalServer.OnHeartbeat | src/signal_server.cpp:691-703 | takes the heartbeat step |
| SignalServers.SignalServer.EndPersisted | src/admin/admin_controller.cpp:756-769 | finds the rows of the transmission through the search, and asks for the end of each exactly once |
| SignalServers.SignalServer.HandleDisconnect | src/admin/admin_controller.cpp:723-775 | takes the admin step; "already closed" exactly when neither memory nor database had the transmission |
| Witnesses.SecondLoginBreaks | src/transmission_manager.cpp:245-252 | a run in which a second id on a socket leaves the first user online, unbound and routed to the other user's socket |
| Witnesses.NulLoginBreaks | src/signal_negotiation.cpp:189-195 | a run in which an id with a NUL character logs in and the id before that character is online in the database, bound to nothing |
| Witnesses.EmptyIdBreaks | src/signal_negotiation.cpp:391-395 | a run in which an empty id joins and memory holds a session that the database does not |
| Witnesses.NulJoinBreaks | src/device_db_manager/device_db_manager.cpp:1140-1146 | a run in which such an id joins and the session is in memory under the whole id and in the table under the cut one |
| Witnesses.CommaBreaks | src/signal_server.cpp:114-137 | a run in which a session whose guest's id holds a comma survives a restart in the database only |
| Witnesses.SweepInsideLogin | src/signal_server.cpp:851-857 | a run in which a sweep inside a repeated login leaves a user online with no socket |
| Witnesses.SameClients | src/presence_manager.cpp:221-229 | while memory and database agree, the online clients of the two geographic reports are the same up to controllers' ids |
| Witnesses.LowerCaseIdBreaks | src/device_db_manager/device_db_manager.cpp:1612-1617 | a run after which the two geographic reports differ over the same clients and places |
| Backoff.GeoIpFailureRetryDelay | src/signal_server.cpp:71-87 | the doubling loop computes min(base * 2^(n-1), max(base, cap)), going through the delays of all smaller failure counts, none of which exceeds the cap |
| Backoff.DelayIsMonotone | src/signal_server.cpp:83-85 | more failures never shorten the delay; it is the base after the first and never below it |
| Backoff.DelayReachesCap | src/signal_server.cpp:83-85 | every failure doubles the delay, up to the cap; there is a least failure count at which it is the cap, from which on it stays there, and which is at most cap - base + 1 |
| GeoIpSafety.StepKeepsQueue | src/signal_server.cpp:344-460 | every step keeps the queue invariant: pending addresses are the queued ones plus the one in flight, each once and at its pending time, and at most 1024 jobs |
| GeoIpSafety.StaleTestNeverFires | src/signal_server.cpp:374-381 | in no run does the stale-job test fire before stop |
| GeoIpSafety.StepKeepsAttribution | src/presence_manager.cpp:205-219 | every step keeps each device's network information about the address of its latest login, bare or the cached answer for that address |
| GeoIpSafety.StepMissesNobody | src/signal_server.cpp:406-419 | every step keeps everybody seen to: a device without a location has its lookup pending, its answer about to be written, its enqueue about to happen, or its lookup was dropped |
| GeoIpSafety.StepKeepsFailures | src/signal_server.cpp:431-459 | every step keeps the failure counts right: a count outlives its lookup only when its retry found the queue full or stopped, and the back-off uses the count on record |
| GeoIpSafety.StepKeepsDropped | src/signal_server.cpp:344-460 | every step keeps dropped addresses out of the pending ones until stop |
| GeoIpSafety.RunsAreSafe | src/signal_server.cpp:321-460 | all five hold in every state of every interleaving of logins, logouts and the worker's critical sections |
| GeoIpSafety.WaitingMeans | src/signal_server.cpp:321-460 | in every run, until stop, a device that has no location waits for the address of its latest login, and that address is seen to, or its latest lookup was dropped and is not pending |
| GeoIpSafety.LoginWalks | src/signal_server.cpp:336-371 | a login is a walk of the model of exactly these steps: store the bare address and, if there is one, read the clock and enqueue |
| GeoIpSafety.GiveUpIsHarmlessIff | src/signal_server.cpp:383-403 | giving up keeps everybody seen to if and only if no waiting device has the address by then, or its login is about to enqueue it |
| GeoIpSafety.GiveUpRace | src/signal_server.cpp:383-389 | the interleaving in which a login is lost between the test and the erase |
| GeoIpSafety.LookupCanBeLost | src/signal_server.cpp:383-389 | from a fresh start that interleaving can happen, and the device that logs in is forgotten |
| GeoIpSchedule.RunsFollow | src/signal_server.cpp:344-460 | in every run the queue, the failure counts, the network information, the cache and the worker's job are what the steps alone say; a retry is planned for the time of its choice plus the delay for the failures in succession, and the queue takes at most 1024 jobs |
| GeoIpSchedule.MayTakeIff | src/signal_server.cpp:490-522 | in every run an idle worker may take a job if and only if it is the lookup planned earliest and its time has come |
| GeoIpSchedule.TurnsMean | src/signal_server.cpp:373-460 | in every run where the worker turns: a job that is not the one planned is dropped; an address is looked up, answered and tried again only if a device has it by then; cached answers are final; a wait of zero means no other try |
| GeoIpService.LookupQueue.EnqueueGeoIpLookup | src/signal_server.cpp:344-371 | the locked part adds a job exactly when not stopped, not pending and not full |
| GeoIpService.LookupQueue.TakeDueJob | src/signal_server.cpp:490-522 | takes the earliest job, never early, and finds one whenever one is due |
| GeoIpService.LookupQueue.PutBackJob | src/signal_server.cpp:441-453 | moves the pending entry to the retry time, or drops it when full or stopped; the failure count stays |
| GeoIpService.LookupQueue.StopClientNetworkInfoWorker | src/signal_server.cpp:475-488 | empties everything and refuses jobs from then on |
| GeoIpService.NetworkInfo.HasDeviceWithClientIp | src/presence_manager.cpp:191-203 | whether any device has the address |
| GeoIpService.NetworkInfo.UpdateDevicesWithClientIp | src/presence_manager.cpp:205-219 | rewrites exactly the devices with the address and counts them |
| GeoIpService.GeoLocationResolver.ResolveWithRetryInfo | src/geo_location_resolver.cpp:393-435 | cached answers are final, private addresses are not looked up, only answers with a location are cached, and only failed public lookups may be retried |
| GeoIpService.GeoIpWorker.ProcessGeoIpLookup | src/signal_server.cpp:373-460 | the worker's body is a walk of the model's steps from the popped job back to idle |
| PasswordChange.PasswordChanges.ChangePassword | src/signal_negotiation.cpp:569-640 | new cache, reply and whether the password was updated, for every request |
| PasswordChange.PasswordChanges.Evict | src/signal_negotiation.cpp:626-631 | keeps the last 4096 keys and exactly their results |
| PasswordChange.CacheIsRecent | src/signal_negotiation.cpp:622-631 | after any requests to one server process the deque is the last at most 4096 successful keys in order without repeats, and the map's keys are the same |
| PasswordChange.UpdatesIff | src/signal_negotiation.cpp:607-621 | a well-made request the database accepts updates the password if and only if its key is not among the last 4096 successes |
| PasswordChange.RepliesAre | src/signal_negotiation.cpp:569-640 | after any requests, the reply to the next and whether it updates the password are those of a reference that keeps no cache but looks for the key among the last 4096 changes made |
| PasswordChange.StatusIff | src/signal_negotiation.cpp:607-622 | the reply to a well-made request says success if and only if it updates now or a change with its key and fingerprint is among the last 4096; that the update failed if and only if there is no such key and the database refuses; and that the request id was used in the remaining case |
| PasswordChange.AnswerStays | src/signal_negotiation.cpp:607-617 | a remembered answer does not change while it is remembered |
| PasswordChange.AtMostOnce | src/signal_negotiation.cpp:603-634 | repeating a request within 4096 later successes of the same server process never updates the password again: with the same password it gets the identical answer, with a password of another fingerprint it is refused |
| PasswordChange.KeysAgreeIff | src/signal_negotiation.cpp:603 | two requests share a key if and only if user and request id are the same, or one user's id is the other's, a line break and more, and the request ids make up for the difference |
| PasswordChange.KeyIsInjective | src/signal_negotiation.cpp:603 | keys of users without line breaks are equal if and only if user and request id are |
| PasswordChange.SharedKeyIff | src/signal_negotiation.cpp:603 | for every request id, a user shares its key with a user of a shorter id if and only if its id holds a line break |
| PasswordChange.SharedKeyRefuses | src/signal_negotiation.cpp:603-611 | for every device number there is another id that can log in and a request of it after which a request the device never made before is refused as used |
| IceEndpoint.NumberOfDecimal | src/ice_server_config_issuer.cpp:50-64 | reading a printed number gives the number back |
| IceEndpoint.MatchIff | src/ice_server_config_issuer.cpp:21-22 | the URL pattern is unambiguous: the captures found are the only way the URL matches it |
| IceGrammar.MatcherIsPattern | src/ice_server_config_issuer.cpp:21-22 | the matcher accepts exactly the texts that match the program's regular expression, given as an expression with the usual meaning |
| IceGrammar.ParseMeans | src/ice_server_config_issuer.cpp:45-66 | a URL that matches is accepted if and only if it is within the limits of 512 and 255 characters and 65535, a bracketed host holds a colon and STUN names no transport; it then names an endpoint of its kind, at its port or 3478, over TCP only if it says so, whose host is the URL's with letters before a zone in lower case |
| IceGrammar.NumberIsPositional | src/ice_server_config_issuer.cpp:50-51 | a port is read as a decimal number |
| IceGrammar.NumberOfDigit | src/ice_server_config_issuer.cpp:50-51 | and each digit of it counts what it shows |
| IceGrammar.DecimalIsPlain | src/ice_server_config_issuer.cpp:63-64 | a port is printed without leading zeros |
| IceEndpoint.ParsedIsCanonical | src/ice_server_config_issuer.cpp:45-62 | an accepted URL names an endpoint with lower-case host up to the zone, a port from 1 to 65535 and an address of at most 255 characters; STUN has no transport |
| IceEndpoint.PrintParses | src/ice_server_config_issuer.cpp:63-66 | parsing a printed endpoint gives it back |
| IceGrammar.PrintIs | src/ice_server_config_issuer.cpp:63-66 | the canonical text, letter by letter |
| IceEndpoint.CanonicalFormIsFixed | src/ice_server_config_issuer.cpp:57-66 | canonicalisation is idempotent |
| IceEndpoint.SameTextIff | src/ice_server_config_issuer.cpp:63-69 | two endpoints have the same canonical text if and only if they are equal, so de-duplicating texts de-duplicates endpoints |
| IceServers.BuildServers | src/ice_server_config_issuer.cpp:12-91 | the nested loops accept exactly the acceptable configurations and issue exactly the endpoints in order of first mention, grouped by entry, with credentials |
| IceServers.BadItemsRefused | src/ice_server_config_issuer.cpp:37-78 | what is wrong with the URLs read so far makes the whole configuration unacceptable |
| IceMeaning.AcceptableIff | src/ice_server_config_issuer.cpp:12-78 | a configuration is accepted if and only if it is a list of at most 16 objects with URLs, in all at most 32, its lifetime is from 60 to 86400 seconds, every value is a URL that is accepted, every TURN endpoint has a usable secret and only one, and at most eight different endpoints of each kind are named |
| IceMeaning.AddedMeans | src/ice_server_config_issuer.cpp:67-78 | what an entry adds are the endpoints it mentions and no earlier entry does, each once, in the order of its mentions |
| IceMeaning.EntryIssues | src/ice_server_config_issuer.cpp:72-91 | an entry that adds endpoints is issued as one entry of their canonical texts, with credentials exactly if a TURN endpoint is among them, which take the entry's secret and the port and unbracketed host of the first of these; an entry that adds none is left out |
| IceFacts.IssuedUrls | src/ice_server_config_issuer.cpp:84-89 | the URLs issued, entry after entry, are the configured endpoints in the order of their first mention |
| IceFacts.IssuedAreDistinct | src/ice_server_config_issuer.cpp:69-78 | issued URLs are pairwise distinct across entries, at most 8 STUN and 8 TURN, and each is its own canonical form |
| IceFacts.EveryServerIsOk | src/ice_server_config_issuer.cpp:79-89 | an issued entry is non-empty, has credentials exactly when it lists a TURN URL, and their host and port are those of its first one |
| IceFacts.ServedWithItsSecret | src/ice_server_config_issuer.cpp:67-75 | every configured URL is issued, and a TURN URL in an entry whose credentials use the secret configured with it, wherever it was repeated |
| IceFacts.CredentialsAreUsable | src/turn_credentials.cpp:39-59 | in every accepted configuration the credentials have a secret of allowed length, a host and a port, so making them never fails |
| GeoDistribution.AddDescribes | src/device_db_manager/device_db_manager.cpp:1626-1646 | counting a group of clients of one kind at once is right, be it one client or all of one place |
| GeoDistribution.DescribesOne | src/presence_manager.cpp:242-266 | at most one tally describes the same clients |
| GeoDistribution.PartsAddUp | src/presence_manager.cpp:242-266 | total = domestic + foreign + unknown, foreign = sum of countries, domestic = sum of provinces + those of unknown province |
| GeoReport.Rank | src/presence_manager.cpp:268-287 | lists exactly the counted names, most clients first and then by name |
| GeoReport.RankingIsUnique | src/presence_manager.cpp:274-287 | the ranking does not depend on the order the hash map was walked in |
| GeoReport.InMemory | src/presence_manager.cpp:221-289 | the per-client tally reports every online client by its kind |
| GeoReport.FromTable | src/device_db_manager/device_db_manager.cpp:1604-1671 | the tally over the groups of the query reports every selected row by its kind |
| GeoMeaning.InMemorySays | src/presence_manager.cpp:221-289 | the report made in memory gives the number of online clients, of those in China (a province is known or the country is China), abroad and at no known place, and lists exactly the provinces and foreign countries that have a client, each with its number of clients, largest first and then by name |
| GeoMeaning.FromTableSays | src/device_db_manager/device_db_manager.cpp:1604-1671 | the report made from the table gives the same numbers of the rows that are online and whose id begins with neither "C-" nor "c-" |
| GeoReport.CloneLikeIsLike | src/device_db_manager/device_db_manager.cpp:1616 | the filter LIKE 'C-%' matches exactly the ids that begin with "C-" or "c-" |
| GeoReport.ReportIsUnique | src/presence_manager.cpp:221-289 | neither the order of clients nor that of the hash maps shows in the report |
| GeoReport.ReportsAgreeIff | src/device_db_manager/device_db_manager.cpp:1612-1668 | over the same data the two reports are equal if and only if no online id begins with a lower-case "c-" |
| GeoReport.PublishedPartsAddUp | src/device_db_manager/device_db_manager.cpp:1630-1654 | in the published numbers the parts make the whole, countries sum to foreign and provinces to no more than domestic |

## Left out

- WebSocket, TLS, HTTP, timers and logging: handles are opaque values, and which handles are dead is an input of the step that asks.
- SQLite's C API but for the cut of bound texts at a NUL character, schema creation, failed statements, rollbacks and the back-filling of columns of older files: tables are maps and statements succeed.
- PasswordChange.AtMostOnce: is about one server process; the cache is in memory only, so a restart forgets it.
- Passwords, salts, device credentials and the removal of web clients' credentials: whether a login or a join is accepted, and under which id, is an input of the step.
- FilteredStatistics.FilteredStatisticsUnbalanced: takes the excluded ids to be those with the prefixes as spelled; that SQLite's LIKE ignores their case is modelled in GeoReport. FilteredBalance is about any part of the devices.
- SignalServers.PresenceManager.OnLogout: does not model the associations between a user's devices, which only say whom to notify.
- ServerRuns.RunsAreSafe: takes each handler as one step, as said under Assumptions.
- The messages sent to clients (replies, offers, answers, candidates, leave and disconnect notices, association updates), except the password-change reply.
- Web-client, clone and dashboard filters other than the ones named above, sorting, paging and search by kind on the dashboard; the transmission snapshots, which are a paged copy of the session map.
- DeviceDB.DeviceDBManager.ListRemoteControlSessions: does not state the order of the entries, the earliest start time of a group or paging; restore and admin disconnect ask for all entries and use none of these.
- The update of the geographic columns of the table: no caller of it exists in the repository, so the agreement of the two reports is stated for whatever the columns hold.
- GeoIpService.GeoLocationResolver.ResolveWithRetryInfo: the network fetch, its JSON and the classification of private addresses are inputs.
- GeoIpService.GeoIpWorker.ProcessGeoIpLookup: is stated for a worker that is not interrupted; interruptions between its critical sections are what GeoIpModel's steps and GeoIpSafety.RunsAreSafe are about.
- The wake-ups of the lookup worker's condition variable: a due job may be taken at any time after it is due.
- The environment variables behind limits and delays: parameters.
- IceServers.BuildServers: does not model which of the error messages is given; every refusal is one outcome.
- Issuing ICE credentials: HMAC, random ids and expiry times.
- Province names and the test for a Chinese country name: any classifier, shared by both reports.
- The dispatch of messages by a 131-hash of their type, the dashboard's login sessions, query strings and static files.
