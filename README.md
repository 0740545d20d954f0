# Browbeat leader election, modelled in Dafny

Browbeat elects one "master" among the browser windows (peers) of an origin. Peers never
talk to each other directly. They talk only through `localStorage`: a peer writes a key, and
every other window receives a `storage` event carrying the key, the old value and the new
value. The writer itself receives no event.

Four keys carry the protocol:

- `_browbeat_election` holds the comma-joined candidate list of the current round.
- `_browbeat_election_start` holds the time the round started.
- `_browbeat_currentMaster` holds the winner.
- `_browbeat_heartbeat` holds the master's latest heartbeat time.

A master writes a heartbeat every `heartbeatTTL / 2` ms. A follower (slave) that sees no
heartbeat for `heartbeatTTL + heartbeatOffset` ms starts a round. A round starts by writing
the candidate list. Each other peer notices the new list and appends its own id. After
`electionTime` ms the starting peer writes the largest id as the master.

The project models one peer as the class `Election.Browbeat`:

- **Fields.** The class has the object's fields (`isMaster`, `heartbeatTimer`,
  `sanityTimer`, `sanity`, `listeners`) and a reference to the shared store
  (`Store.LocalStorage`, a `map<string, string>`; `null` when the browser has none).
- **Timers.** The host's timer table is a map from handle to pending callback.
  `setTimeout`/`setInterval` hand out a fresh handle, and `clearTimeout`/`clearInterval`
  remove one. Browsers keep one shared table for both kinds, so `clearTimeout` also stops an
  interval. The host runs a pending callback by calling `Fire`.
- **Storage events.** A write by another peer reaches the peer as a call to `StorageEvent`.
- **Ids.** Ids are natural numbers. Their text in the store is their decimal digits.
- **Winner choice.** Choosing the winner is a pure function: split on commas, read every
  piece as a number, take the maximum. It is proved against its meaning (the result is a
  candidate and no candidate is larger) and against the encoding of id lists (split/join and
  number/text round trips).

Each handler's contract gives the new value of every field it may change and the new store
(`Fire` leaves the field updates to the handlers it calls; see "Left out"). The lemmas
connect the handlers' effects with each other. Examples: a heartbeat written at `t` reads as
fresh exactly while `now - t < heartbeatTTL`; after a round concludes, only the winner's id
matches the leader entry.

The model keeps these behaviours of the code:

- **`castVote` never cancels a sanity timer.** It clears `this.sanityTimer`, which is never
  assigned and stays `null`. It keeps the new timer in `this.sanity`. So every vote leaves
  its sanity timer pending, and a stale one can start a new round later.
  `Election.Browbeat.Valid` records that `sanityTimer` stays `null`, and the contract of
  `CastVote` states that the earlier sanity timer is still pending.
- **The election event does not cancel the sanity timer either.** For the same reason, a
  storage event announcing a new round cancels only the heartbeat timer.
- **`resign` emits nothing and arms nothing.** It does not emit `browbeatLostElection` and
  does not arm a heartbeat timeout.
- **`becomeMaster` does not cancel an earlier heartbeat timer** before it arms its interval.
- **`endElection` does not demote a peer that is not the winner.** It leaves `isMaster` as
  it was.
- **A non-numeric candidate makes the winner `NaN`.** `endElection` then writes `"NaN"` as
  the master.
- **A missing heartbeat entry counts as time 0** in `init`. So at a clock reading below
  `heartbeatTTL`, a peer facing an empty store takes the follower branch.

## Model

| member | source | states |
|---|---|---|
| Text.Split | browbeat.js:159 | `split(',')` yields at least one piece and no piece holds a comma |
| Text.JoinSplit | browbeat.js:159-161 | joining the pieces of a split gives back the split string |
| Text.SplitJoin | browbeat.js:159-161 | splitting the join of a non-empty list of comma-free pieces gives back the list |
| Text.ToNumber | browbeat.js:191 | `Number(s)` is defined exactly on digit strings; `""` reads as 0 |
| Text.Show | browbeat.js:93 | `toString()` of an id (and the numbers written at lines 127, 160 and 187): non-empty, all decimal digits, so never holding a comma |
| Text.Join | browbeat.js:161 | `String(votes)`: a list of two or more pieces joins to a string with a comma, and the first piece is a prefix of the join; `JoinSplit` and `SplitJoin` make it the inverse of `Split` |
| Text.ToNumberShow | browbeat.js:191 | the id text written into the candidate list at line 160 reads back, when `Math.max` converts it, as the id |
| Candidates.CandidateList | browbeat.js:158-159 | a missing or empty entry reads as no candidates; otherwise the candidates join back to the stored value and none holds a comma |
| Candidates.AppendVote | browbeat.js:158-161 | the written value is non-empty and reads as the earlier candidates, in order, followed by the voter's id |
| Candidates.AppendVoteIds | browbeat.js:158-161 | when the earlier candidates read as the ids `ids`, the new list reads as `ids` followed by the voter's id |
| Candidates.ParseAll | browbeat.js:190-191 | the pieces read as numbers exactly when every piece does, with one number per piece and in order |
| Candidates.DecodeEncodeIds | browbeat.js:189-190 | a list of ids written as comma-joined decimal text reads back as the same ids in the same order |
| Candidates.MaxOf | browbeat.js:191 | `Math.max` of a non-empty list is one of its members and no member exceeds it |
| Candidates.Winner | browbeat.js:189-191 | no candidates: the concluding peer wins; otherwise the winner is a candidate that no candidate exceeds, or `NaN` exactly when some candidate is not a number |
| Candidates.WinnerOfEncoded | browbeat.js:188-191 | a round whose stored candidates are the ids `ids` is won by their maximum, or by the concluding peer when `ids` is empty |
| Candidates.WinnerOfThreeSevenTwoNine | browbeat.js:189-191 | candidates 3, 7, 2, 9 elect 9 whoever concludes the round |
| Events.Payload | browbeat.js:223-224 | the payload carries `eventName = e` and keeps every other field of `data` |
| Events.Notifications | browbeat.js:221-227 | no call when `e` has no handler list; otherwise one call per handler of `e`, in registration order, each with the payload naming `e` |
| Events.Deliver | browbeat.js:225-227 | the delivery loop calls every handler once, in order, with the payload |
| Events.EmitAsWritten | browbeat.js:221-226 | `emit` as written throws `ReferenceError` exactly when `e` has a handler list; when it returns, the intended delivery makes no call either, and when it throws, every handler of `e` misses the call the intended delivery makes |
| Events.EmitAsWrittenLosesDelivery | browbeat.js:221-226 | with one handler registered for `browbeatWonElection`, `emit` as written throws while the intended delivery makes one call |
| Election.Cancel | browbeat.js:86-87 | `clearTimeout`/`clearInterval` (also at lines 104, 133, 144 and 156): `null` cancels nothing; otherwise exactly that handle leaves the table and every other pending timer stays as it was |
| Election.AsNumber | browbeat.js:52-55 | a stored value in `now - value` is a number exactly when it is missing or all decimal digits; a missing entry (the `\|\| 0` of line 52, and `null` coerced at line 55) and the empty string both count as 0 |
| Election.AsNumberShow | browbeat.js:52-55 | a time or id written as its decimal text (lines 127, 187) reads back in `now - value` as that number |
| Election.ElectionOngoing | browbeat.js:53-55 | an open round needs a non-empty candidate entry; with no start entry the start counts as 0, so the round is open exactly while the clock is below `electionTime` |
| Election.HeartbeatFresh | browbeat.js:52-60 | with no heartbeat entry the last heartbeat counts as 0, so it is fresh exactly while the clock is below `heartbeatTTL`; a non-numeric heartbeat (`NaN`) is never fresh |
| Election.AfterCallback | browbeat.js:105-198 | the store effect of each timer callback (lines 105-107, 127, 166-170, 188-194): the heartbeat write sets only the heartbeat; the heartbeat timeout, and a sanity check that finds no leader, leave an open round with no leader and no heartbeat; a sanity check that finds a leader changes nothing; a conclusion writes the winner and removes the round |
| Election.Voted | browbeat.js:158-161 | after a vote the candidate list is the earlier list followed by this id; every other key is unchanged |
| Election.ElectionStarted | browbeat.js:184-187 | after starting a round there is no leader and no heartbeat entry, the list ends with this id, the start time is `now`, and every other key is unchanged |
| Election.ShowWinner | browbeat.js:192 | the written leader text reads back as the winner, or as `NaN` |
| Election.Concluded | browbeat.js:189-194 | after the conclusion the leader entry holds the winner, both round keys are gone, and every other key is unchanged |
| Election.HeartbeatWriteIsFresh | browbeat.js:52-60 | a heartbeat written at `t` reads as fresh at startup exactly when `now - t < heartbeatTTL` |
| Election.StartedRoundIsOngoing | browbeat.js:53-55 | a round started at `t` is joined at startup exactly when `now - t < electionTime` |
| Election.ShowInjective | browbeat.js:93 | two ids have equal texts exactly when they are equal |
| Election.LeaderEntryNamesWinner | browbeat.js:92-98 | after a conclusion, the leader entry equals a peer's id text exactly when that peer is the winner |
| Election.LonePeerBecomesMaster | browbeat.js:180-198 | a peer alone with an empty store (clock past `heartbeatTTL`) starts a round, and its conclusion makes it master |
| Election.Browbeat.constructor | browbeat.js:12-25 | fields initialised (no listeners, `sanityTimer` null, no handler calls), then the four outcomes of `init` from the empty timer table, each saying which of `heartbeatTimer` and `sanity` stays null |
| Election.Browbeat.Init | browbeat.js:33-68 | no store: master; open round: vote; fresh heartbeat: slave; else: start a round, the conditions checked in that order; each outcome also keeps the timer field and the handler calls it does not touch |
| Election.Browbeat.StorageEvent | browbeat.js:76-112 | a null key (the event of `clear()`) or a key without the prefix changes nothing. New round (null old value): heartbeat timer cancelled, exactly one vote. Other election writes: nothing. Leader key: master if the new value is this id, else slave. Heartbeat while not master: the timeout replaced. Heartbeat while master, or another prefixed key: nothing |
| Election.Browbeat.BecomeMaster | browbeat.js:121-129 | master, `browbeatWonElection` emitted, a new heartbeat interval added and earlier timers kept |
| Election.Browbeat.Resign | browbeat.js:131-134 | not master, heartbeat timer cancelled, store and every other timer unchanged |
| Election.Browbeat.BecomeSlave | browbeat.js:139-148 | not master, `browbeatLostElection` emitted, the heartbeat timer replaced by a timeout of `heartbeatTTL + heartbeatOffset` |
| Election.Browbeat.CastVote | browbeat.js:155-171 | the candidate list gains this id at its end, a sanity timer of `electionTime + heartbeatOffset` is armed in `sanity`, and the earlier sanity timer stays pending |
| Election.Browbeat.StartElection | browbeat.js:180-199 | the store as `ElectionStarted` gives; a sanity timer and a conclusion timer of `electionTime` added |
| Election.Browbeat.EndElection | browbeat.js:188-198 | the store as `Concluded` gives; master (with `browbeatWonElection` and a heartbeat interval) if and only if this id is the winner, otherwise the peer is unchanged |
| Election.Browbeat.CheckSanity | browbeat.js:166-170 | a round is started exactly when no truthy leader entry is stored; otherwise nothing changes |
| Election.Browbeat.Fire | browbeat.js:105-198 | the timer callbacks at browbeat.js:105-107 (heartbeat timeout), 126-128 (heartbeat interval), 166-170 (sanity check) and 188-198 (conclusion): a one-shot timer leaves the table for good and an interval stays; with a store, the store changes as its callback (heartbeat write, round start, sanity check, conclusion) does; without one, only the table changes and every field, the event log and the handler calls stay as they were |
| Election.Browbeat.On | browbeat.js:208-214 | the handler is appended to the handlers of `e`, which start out empty; every other event's handlers are unchanged |
| Election.Browbeat.Emit | browbeat.js:221-228 | the event is logged; handler calls as `Notifications` gives, none when `e` has no handler list |

## Findings

| source | as written | input that shows it | evidently intended | confidence | as-written member | corrected member |
|---|---|---|---|---|---|---|
| browbeat.js:225-226 | the delivery loop of `emit` reads `listeners[e]`, an identifier declared nowhere, instead of `this.listeners[e]`; once a handler is registered for `e`, `emit` throws `ReferenceError` before calling any handler, so `becomeMaster` stops before it arms the heartbeat interval | `on('browbeatWonElection', h)` followed by any `becomeMaster` | every registered handler of `e` is called in order with the payload | not executed; high, unless the page defines a global named `listeners` | Events.EmitAsWritten, Events.EmitAsWrittenLosesDelivery | Events.Deliver, Election.Browbeat.Emit |

The class follows the intended delivery throughout: its `Emit` (`Election.Browbeat.Emit`) is the corrected one. So in the model `BecomeMaster` and `BecomeSlave` always go on to arm their heartbeat timer. In the code as written, neither does once a handler is registered for the event it emits.

## Left out

- Browser wiring is not modelled. This covers the `storage` listener installation (browbeat.js:40-48) and `window.browbeat = new Browbeat()` (browbeat.js:233). A storage event is a direct call to `StorageEvent`. Writes by other peers are calls on the shared `LocalStorage`.
- Logging (`log`, browbeat.js:27-31) is output only and is not modelled.
- The random id and `heartbeatOffset` (browbeat.js:13, 19) are natural-number parameters. Real ids are fractions such as `532.17`, so their text holds a decimal point.
- Text.ToNumber reads only decimal digit strings, and `""` as 0. JavaScript's `Number` also accepts whitespace, signs, fractions, exponents, hexadecimal and `Infinity`, and returns floats.
- The clock (`new Date().getTime()`) is a `now` parameter.
- Timers have no clock: a delay is recorded but not enforced. The host may fire any pending timer at any time.
- `heartbeatTTL` and `electionTime` are constants (2000). In the source they are instance fields that application code could reassign.
- Concurrency between peers is not modelled: delivery order and the lost-vote race of the non-atomic read-append-write of the candidate list. The model is one peer.
- Handlers are application code and are never run. The ghost logs record which events were emitted and which calls would be made. What a handler does (re-entrant calls, exceptions) is not modelled.
- Event names that collide with `Object.prototype` properties (such as `"toString"`) are treated as absent until registered. In JavaScript they are present and `on` fails on them.
- Election.Browbeat.Fire: its own contract gives only the timer lifecycle and the store. The field updates of each callback are stated by the methods it calls (`StartElection`, `CheckSanity`, `EndElection`); for the heartbeat interval there are none.
- Election.Browbeat.StorageEvent: for the event of `localStorage.clear()`, whose key is `null`, the `TypeError` that `key.indexOf` raises (browbeat.js:78) is modelled as the handler doing nothing. The exception itself is not represented.
- Election.Browbeat.Fire: without a store, a callback's `TypeError` is modelled as the callback doing nothing. The exception itself is not represented.
