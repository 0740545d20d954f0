/** One Browbeat peer: a leader-election state machine that talks to the other peers of the
    same origin only through `localStorage` and its `storage` events (browbeat.js).

    The peer is a class whose fields are the JavaScript object's fields. The host's timer
    table is part of the model: `timers` maps every pending handle to what it will run,
    `SetTimer` stands for `setTimeout`/`setInterval` and `ClearTimer` for
    `clearTimeout`/`clearInterval` (one shared table of handles, as in browsers). The host
    runs a pending timer by calling `Fire`, and delivers another peer's write by calling
    `StorageEvent`. Handlers registered with `On` are never run; the ghost fields `emitted`
    and `delivered` record the events emitted and the handler calls they make. */
module Election {
  import opened Wrappers
  import opened Text
  import opened Candidates
  import opened Events
  import opened Store

  const HeartbeatKey: string := "_browbeat_heartbeat"
  const ElectionKey: string := "_browbeat_election"
  const ElectionStartKey: string := "_browbeat_election_start"
  const CurrentKey: string := "_browbeat_currentMaster"
  const KeyPrefix: string := "_browbeat_"

  /** Every protocol key passes the dispatcher's prefix test (browbeat.js:78). */
  lemma ProtocolKeysHavePrefix()
    ensures KeyPrefix <= ElectionKey && KeyPrefix <= ElectionStartKey
    ensures KeyPrefix <= CurrentKey && KeyPrefix <= HeartbeatKey
  {
  }

  /** Milliseconds of heartbeat silence after which a master is presumed gone. */
  const HeartbeatTTL: nat := 2000
  /** Milliseconds a round stays open for votes. */
  const ElectionTime: nat := 2000

  const WonElection: string := "browbeatWonElection"
  const LostElection: string := "browbeatLostElection"

  /** A timer handle, as returned by `setTimeout` and `setInterval`. */
  type Handle = nat

  /** What a pending timer runs when it fires. */
  datatype Callback =
    | WriteHeartbeat   // the master's heartbeat interval
    | ElectOnSilence   // the heartbeat timeout that presumes the master gone
    | SanityCheck      // the vote's guard against a round that never concludes
    | ConcludeRound    // the conclusion of a round this peer started

  datatype Timer = Timer(callback: Callback, delay: nat, repeating: bool)

  /** The master's heartbeat interval: every `heartbeatTTL / 2` ms (browbeat.js:126-128). */
  const BeatTimer: Timer := Timer(WriteHeartbeat, HeartbeatTTL / 2, true)

  /** The conclusion of a round, `electionTime` ms after it starts (browbeat.js:188-198). */
  const ConclusionTimer: Timer := Timer(ConcludeRound, ElectionTime, false)

  /** The timer table after `clearTimeout(h)`: `null` cancels nothing, and a handle no
      longer pending is ignored. */
  function Cancel(timers: map<Handle, Timer>, h: Option<Handle>): (rest: map<Handle, Timer>)
    ensures h.None? ==> rest == timers
    ensures h.Some? ==> rest.Keys == timers.Keys - {h.value}
    ensures forall k :: k in rest ==> k in timers && rest[k] == timers[k]
  {
    if h.Some? then timers - {h.value} else timers
  }

  /** The number a stored value stands for in `now - value`: `null` counts as 0, and a
      string is read by `Number` (`None` is `NaN`, and every comparison with it is false). */
  function AsNumber(v: Option<string>): (n: Option<nat>)
    ensures n.Some? <==> v.None? || AllDigits(v.value)
    ensures v.None? || v == Some([]) ==> n == Some(0)
  {
    if v.None? then Some(0) else ToNumber(v.value)
  }

  /** A stored id or time, written as its decimal text, reads back as that number. */
  lemma AsNumberShow(k: nat)
    ensures AsNumber(Some(Show(k))) == Some(k)
  {
    ToNumberShow(k);
  }

  /** The startup test for a round still open for votes (browbeat.js:53-55): the candidate
      list is truthy and the round started less than `electionTime` ms ago. */
  predicate ElectionOngoing(items: map<string, string>, now: nat)
    ensures ElectionOngoing(items, now) ==> ElectionKey in items && items[ElectionKey] != []
    ensures ElectionKey in items && items[ElectionKey] != [] && ElectionStartKey !in items ==>
      (ElectionOngoing(items, now) <==> now < ElectionTime)
  {
    var election := Lookup(items, ElectionKey);
    && election.Some? && election.value != []
    && match AsNumber(Lookup(items, ElectionStartKey))
       case Some(started) => now - started < ElectionTime
       case None => false
  }

  /** The startup test for a live master (browbeat.js:52, 60): the last heartbeat, or 0 when
      there is none, is less than `heartbeatTTL` ms old. */
  predicate HeartbeatFresh(items: map<string, string>, now: nat)
    ensures HeartbeatKey !in items ==> (HeartbeatFresh(items, now) <==> now < HeartbeatTTL)
    ensures HeartbeatKey in items && !AllDigits(items[HeartbeatKey]) ==> !HeartbeatFresh(items, now)
  {
    match AsNumber(Lookup(items, HeartbeatKey))
    case Some(last) => now - last < HeartbeatTTL
    case None => false
  }

  /** The store after `castVote` (browbeat.js:158-161): the candidate list grows by this
      peer's id at its end, and every other entry is left alone. */
  function Voted(items: map<string, string>, id: nat): (after: map<string, string>)
    ensures CandidateList(Lookup(after, ElectionKey)) == CandidateList(Lookup(items, ElectionKey)) + [Show(id)]
    ensures forall k :: k != ElectionKey ==> Lookup(after, k) == Lookup(items, k)
  {
    items[ElectionKey := AppendVote(Lookup(items, ElectionKey), id)]
  }

  /** The store after `startElection` (browbeat.js:184-187): no leader and no heartbeat are
      left, the candidate list ends with this peer's id, the start time is `now`, and every
      other entry is left alone. */
  function ElectionStarted(items: map<string, string>, id: nat, now: nat): (after: map<string, string>)
    ensures CurrentKey !in after && HeartbeatKey !in after
    ensures CandidateList(Lookup(after, ElectionKey)) == CandidateList(Lookup(items, ElectionKey)) + [Show(id)]
    ensures Lookup(after, ElectionStartKey) == Some(Show(now))
    ensures forall k :: k != CurrentKey && k != HeartbeatKey && k != ElectionKey && k != ElectionStartKey ==>
      Lookup(after, k) == Lookup(items, k)
  {
    Voted(items - {CurrentKey, HeartbeatKey}, id)[ElectionStartKey := Show(now)]
  }

  /** `String(winner)`: the decimal text of the winner, or `"NaN"`. */
  function ShowWinner(w: Option<nat>): (s: string)
    ensures w.Some? ==> ToNumber(s) == w
    ensures w.None? ==> ToNumber(s).None?
  {
    if w.Some? then
      ToNumberShow(w.value);
      Show(w.value)
    else
      assert !IsDigit('N');
      "NaN"
  }

  /** The store after `endElection` (browbeat.js:189-194): the winner of the stored
      candidates is the current leader, the round's two entries are gone, and every other
      entry is left alone. */
  function Concluded(items: map<string, string>, id: nat): (after: map<string, string>)
    ensures Lookup(after, CurrentKey) == Some(ShowWinner(Winner(Lookup(items, ElectionKey), id)))
    ensures ElectionKey !in after && ElectionStartKey !in after
    ensures forall k :: k != CurrentKey && k != ElectionKey && k != ElectionStartKey ==>
      Lookup(after, k) == Lookup(items, k)
  {
    items[CurrentKey := ShowWinner(Winner(Lookup(items, ElectionKey), id))] - {ElectionKey, ElectionStartKey}
  }

  /** The store after a timer with this callback has run on a peer with a store: the
      heartbeat interval writes the time, the heartbeat timeout and a sanity check that
      finds no leader start a round that is open from then on, a sanity check that finds
      a leader changes nothing, and a conclusion writes the winner and closes the round. */
  function AfterCallback(callback: Callback, items: map<string, string>, id: nat, now: nat): (after: map<string, string>)
    ensures callback == WriteHeartbeat ==>
      && Lookup(after, HeartbeatKey) == Some(Show(now))
      && forall k :: k != HeartbeatKey ==> Lookup(after, k) == Lookup(items, k)
    ensures callback == SanityCheck && CurrentKey in items && items[CurrentKey] != [] ==> after == items
    ensures (callback == ElectOnSilence || (callback == SanityCheck && (CurrentKey !in items || items[CurrentKey] == []))) ==>
      && CurrentKey !in after && HeartbeatKey !in after && ElectionOngoing(after, now)
    ensures callback == ConcludeRound ==>
      && ElectionKey !in after && ElectionStartKey !in after
      && Lookup(after, CurrentKey) == Some(ShowWinner(Winner(Lookup(items, ElectionKey), id)))
  {
    match callback
    case WriteHeartbeat => items[HeartbeatKey := Show(now)]
    case ElectOnSilence =>
      StartedRoundIsOngoing(items, id, now, now);
      ElectionStarted(items, id, now)
    case SanityCheck =>
      var leader := Lookup(items, CurrentKey);
      if leader.Some? && leader.value != [] then items
      else
        StartedRoundIsOngoing(items, id, now, now);
        ElectionStarted(items, id, now)
    case ConcludeRound => Concluded(items, id)
  }

  /** A heartbeat written at time `t` is what a starting peer reads as a live master
      exactly while less than `heartbeatTTL` ms have passed (browbeat.js:52, 60, 127). */
  lemma HeartbeatWriteIsFresh(items: map<string, string>, id: nat, t: nat, now: nat)
    ensures HeartbeatFresh(AfterCallback(WriteHeartbeat, items, id, t), now) <==> now - t < HeartbeatTTL
  {
    ToNumberShow(t);
  }

  /** A round started at time `t` is one a starting peer joins by voting exactly while
      less than `electionTime` ms have passed (browbeat.js:53-55, 184-187). */
  lemma StartedRoundIsOngoing(items: map<string, string>, id: nat, t: nat, now: nat)
    ensures ElectionOngoing(ElectionStarted(items, id, t), now) <==> now - t < ElectionTime
  {
    var after := ElectionStarted(items, id, t);
    assert CandidateList(Lookup(after, ElectionKey)) != [];
    ToNumberShow(t);
  }

  /** The decimal texts of two different ids differ, so a leader entry names one peer. */
  lemma ShowInjective(a: nat, b: nat)
    ensures Show(a) == Show(b) <==> a == b
  {
    ToNumberShow(a);
    ToNumberShow(b);
  }

  /** After a round concludes, the leader entry equals a peer's id text exactly when that
      peer is the winner: of all peers receiving the write, only the winner takes the
      master branch of the dispatcher (browbeat.js:93-98, 191-192). */
  lemma LeaderEntryNamesWinner(items: map<string, string>, concluder: nat, peer: nat)
    ensures Lookup(Concluded(items, concluder), CurrentKey) == Some(Show(peer)) <==>
      Winner(Lookup(items, ElectionKey), concluder) == Some(peer)
  {
    var w := Winner(Lookup(items, ElectionKey), concluder);
    if w.Some? {
      ShowInjective(w.value, peer);
    } else {
      assert !IsDigit(ShowWinner(w)[0]);
      assert ShowWinner(w) != Show(peer);
    }
  }

  class Browbeat {
    const id: nat
    /** `window.localStorage`, or `null` where the browser has none. */
    const store: LocalStorage?
    const heartbeatOffset: nat
    var isMaster: bool
    /** Cleared by `castVote` but never assigned after construction. */
    var sanityTimer: Option<Handle>
    /** Where `castVote` keeps its sanity timer. */
    var sanity: Option<Handle>
    var heartbeatTimer: Option<Handle>
    var listeners: map<string, seq<Handler>>
    /** The host's pending timers. */
    var timers: map<Handle, Timer>
    var nextHandle: Handle
    ghost var emitted: seq<string>
    ghost var delivered: seq<Delivery>

    /** `sanityTimer` stays `null`, and every pending handle was handed out earlier. */
    ghost predicate Valid()
      reads this
    {
      && sanityTimer.None?
      && forall h :: h in timers ==> h < nextHandle
    }

    /** The follower's heartbeat timeout: `heartbeatTTL + heartbeatOffset` ms. */
    function SilenceTimer(): Timer {
      Timer(ElectOnSilence, HeartbeatTTL + heartbeatOffset, false)
    }

    /** The timer `castVote` arms and keeps in `sanity` (never in `sanityTimer`):
        `electionTime + heartbeatOffset` ms. */
    function VoteGuardTimer(): Timer {
      Timer(SanityCheck, ElectionTime + heartbeatOffset, false)
    }

    /** The pending timers are `before` plus a new heartbeat interval held in
        `heartbeatTimer`, at a handle not handed out before. */
    ghost predicate ArmedBeat(before: map<Handle, Timer>, firstFree: Handle)
      reads this
    {
      heartbeatTimer.Some? && heartbeatTimer.value >= firstFree &&
      timers == before[heartbeatTimer.value := BeatTimer]
    }

    /** The pending timers are `before` plus a new heartbeat timeout held in
        `heartbeatTimer`, at a handle not handed out before. */
    ghost predicate ArmedSilence(before: map<Handle, Timer>, firstFree: Handle)
      reads this
    {
      heartbeatTimer.Some? && heartbeatTimer.value >= firstFree &&
      timers == before[heartbeatTimer.value := SilenceTimer()]
    }

    /** The pending timers are `before` plus a new sanity timer held in `sanity`, at a
        handle not handed out before. */
    ghost predicate ArmedSanity(before: map<Handle, Timer>, firstFree: Handle)
      reads this
    {
      sanity.Some? && sanity.value >= firstFree &&
      timers == before[sanity.value := VoteGuardTimer()]
    }

    /** The pending timers are `before` plus a new sanity timer held in `sanity` and a new
        conclusion timer, at handles not handed out before. */
    ghost predicate ArmedRound(before: map<Handle, Timer>, firstFree: Handle)
      reads this
    {
      sanity.Some? && sanity.value >= firstFree && nextHandle > sanity.value + 1 &&
      timers == before[sanity.value := VoteGuardTimer()][nextHandle - 1 := ConclusionTimer]
    }

    /** The peer's fields as the constructor sets them (browbeat.js:13-22), followed by
        `init` (browbeat.js:24). `id` and `heartbeatOffset` are random in the browser and
        parameters here; `now` is the clock reading `init` takes. */
    constructor (id: nat, heartbeatOffset: nat, store: LocalStorage?, now: nat)
      modifies store
      ensures Valid()
      ensures this.id == id && this.heartbeatOffset == heartbeatOffset && this.store == store
      ensures listeners == map[] && sanityTimer == None && delivered == []
      ensures store == null ==> isMaster && ArmedBeat(map[], 1) && sanity == None && emitted == [WonElection]
      ensures store != null && ElectionOngoing(old(store.items), now) ==>
        && !isMaster && store.items == Voted(old(store.items), id)
        && ArmedSanity(map[], 1) && heartbeatTimer == None && emitted == []
      ensures store != null && !ElectionOngoing(old(store.items), now) && HeartbeatFresh(old(store.items), now) ==>
        && !isMaster && store.items == old(store.items)
        && ArmedSilence(map[], 1) && sanity == None && emitted == [LostElection]
      ensures store != null && !ElectionOngoing(old(store.items), now) && !HeartbeatFresh(old(store.items), now) ==>
        && !isMaster && store.items == ElectionStarted(old(store.items), id, now)
        && ArmedRound(map[], 1) && heartbeatTimer == None && emitted == []
    {
      this.id := id;
      this.store := store;
      this.heartbeatOffset := heartbeatOffset;
      isMaster := false;
      sanityTimer := None;
      sanity := None;
      heartbeatTimer := None;
      listeners := map[];
      timers := map[];
      nextHandle := 1;
      emitted := [];
      delivered := [];
      new;
      Init(now);
    }

    /** Host timer facility: `setTimeout`/`setInterval` hand out a fresh handle. */
    method SetTimer(t: Timer) returns (h: Handle)
      requires Valid()
      modifies this`timers, this`nextHandle
      ensures Valid()
      ensures h == old(nextHandle) && nextHandle == h + 1
      ensures h !in old(timers) && timers == old(timers)[h := t]
    {
      h := nextHandle;
      timers := timers[h := t];
      nextHandle := nextHandle + 1;
    }

    /** Host timer facility: `clearTimeout`/`clearInterval`. */
    method ClearTimer(h: Option<Handle>)
      requires Valid()
      modifies this`timers
      ensures Valid()
      ensures timers == Cancel(old(timers), h)
    {
      timers := Cancel(timers, h);
    }

    /** `init` (browbeat.js:33-68): without a store the peer is master; otherwise it votes
        in a round still open, follows a master whose heartbeat is fresh, or starts a
        round, testing in that order. */
    method Init(now: nat)
      requires Valid()
      modifies this`isMaster, this`sanity, this`heartbeatTimer, this`timers, this`nextHandle
      modifies this`emitted, this`delivered, store
      ensures Valid()
      ensures store == null ==>
        && isMaster && ArmedBeat(old(timers), old(nextHandle)) && sanity == old(sanity)
        && emitted == old(emitted) + [WonElection]
        && delivered == old(delivered) + Notifications(listeners, WonElection, map[])
      ensures store != null && ElectionOngoing(old(store.items), now) ==>
        && isMaster == old(isMaster) && store.items == Voted(old(store.items), id)
        && ArmedSanity(old(timers), old(nextHandle)) && heartbeatTimer == old(heartbeatTimer)
        && emitted == old(emitted) && delivered == old(delivered)
      ensures store != null && !ElectionOngoing(old(store.items), now) && HeartbeatFresh(old(store.items), now) ==>
        && !isMaster && store.items == old(store.items)
        && ArmedSilence(Cancel(old(timers), old(heartbeatTimer)), old(nextHandle)) && sanity == old(sanity)
        && emitted == old(emitted) + [LostElection]
        && delivered == old(delivered) + Notifications(listeners, LostElection, map[])
      ensures store != null && !ElectionOngoing(old(store.items), now) && !HeartbeatFresh(old(store.items), now) ==>
        && isMaster == old(isMaster) && store.items == ElectionStarted(old(store.items), id, now)
        && ArmedRound(old(timers), old(nextHandle)) && heartbeatTimer == old(heartbeatTimer)
        && emitted == old(emitted) && delivered == old(delivered)
    {
      if store == null {
        BecomeMaster();
        return;
      }
      var lastHeartbeat := AsNumber(store.Get(HeartbeatKey));
      var election := store.Get(ElectionKey);
      var started := AsNumber(store.Get(ElectionStartKey));
      if election.Some? && election.value != [] && started.Some? && now - started.value < ElectionTime {
        CastVote();
      } else if lastHeartbeat.Some? && now - lastHeartbeat.value < HeartbeatTTL {
        BecomeSlave();
      } else {
        StartElection(now);
      }
    }

    /** `storageEvent` (browbeat.js:76-112): the dispatcher for another peer's write of
        `key` from `oldValue` to `newValue`. It is installed only when there is a store. The
        event of `localStorage.clear()` has a `null` key: `key.indexOf` then throws a
        `TypeError` before anything changes, modelled as the handler doing nothing. */
    method StorageEvent(key: Option<string>, oldValue: Option<string>, newValue: Option<string>)
      requires Valid() && store != null
      modifies this`isMaster, this`sanity, this`heartbeatTimer, this`timers, this`nextHandle
      modifies this`emitted, this`delivered, store
      ensures Valid()
      ensures key.None? ==> unchanged(this) && unchanged(store)
      ensures key.Some? && !(KeyPrefix <= key.value) ==> unchanged(this) && unchanged(store)
      ensures key == Some(ElectionKey) && oldValue.None? ==>
        && store.items == Voted(old(store.items), id)
        && ArmedSanity(Cancel(old(timers), old(heartbeatTimer)), old(nextHandle))
        && isMaster == old(isMaster) && heartbeatTimer == old(heartbeatTimer)
        && emitted == old(emitted) && delivered == old(delivered)
      ensures key == Some(ElectionKey) && oldValue.Some? ==> unchanged(this) && unchanged(store)
      ensures key == Some(CurrentKey) && newValue == Some(Show(id)) ==>
        && isMaster && store.items == old(store.items)
        && ArmedBeat(old(timers), old(nextHandle)) && sanity == old(sanity)
        && emitted == old(emitted) + [WonElection]
        && delivered == old(delivered) + Notifications(listeners, WonElection, map[])
      ensures key == Some(CurrentKey) && newValue != Some(Show(id)) ==>
        && !isMaster && store.items == old(store.items)
        && ArmedSilence(Cancel(old(timers), old(heartbeatTimer)), old(nextHandle)) && sanity == old(sanity)
        && emitted == old(emitted) + [LostElection]
        && delivered == old(delivered) + Notifications(listeners, LostElection, map[])
      ensures key == Some(HeartbeatKey) && !old(isMaster) ==>
        && !isMaster && store.items == old(store.items)
        && ArmedSilence(Cancel(old(timers), old(heartbeatTimer)), old(nextHandle)) && sanity == old(sanity)
        && emitted == old(emitted) && delivered == old(delivered)
      ensures key == Some(HeartbeatKey) && old(isMaster) ==> unchanged(this) && unchanged(store)
      ensures key.Some? && KeyPrefix <= key.value && key.value !in {ElectionKey, CurrentKey, HeartbeatKey} ==>
        unchanged(this) && unchanged(store)
    {
      ProtocolKeysHavePrefix();
      if key.None? || !(KeyPrefix <= key.value) {
        return;
      }
      if key == Some(ElectionKey) {
        if oldValue.None? {
          ClearTimer(heartbeatTimer);
          ClearTimer(sanityTimer);
          CastVote();
        }
        return;
      }
      if key == Some(CurrentKey) {
        if newValue == Some(Show(id)) {
          BecomeMaster();
        } else {
          BecomeSlave();
        }
        return;
      }
      if !isMaster && key == Some(HeartbeatKey) {
        RestartSilence();
      }
    }

    /** `becomeMaster` (browbeat.js:121-129): master, `browbeatWonElection` emitted, and a
        heartbeat interval armed. A heartbeat timer armed earlier is not cancelled. */
    method BecomeMaster()
      requires Valid()
      modifies this`isMaster, this`heartbeatTimer, this`timers, this`nextHandle, this`emitted, this`delivered
      ensures Valid()
      ensures isMaster && ArmedBeat(old(timers), old(nextHandle))
      ensures emitted == old(emitted) + [WonElection]
      ensures delivered == old(delivered) + Notifications(listeners, WonElection, map[])
    {
      isMaster := true;
      Emit(WonElection, map[]);
      var h := SetTimer(BeatTimer);
      heartbeatTimer := Some(h);
    }

    /** `resign` (browbeat.js:131-134): no longer master and the heartbeat interval
        cancelled; the store is not touched and no round is started. */
    method Resign()
      requires Valid()
      modifies this`isMaster, this`timers
      ensures Valid()
      ensures !isMaster && timers == Cancel(old(timers), heartbeatTimer)
    {
      isMaster := false;
      ClearTimer(heartbeatTimer);
    }

    /** `becomeSlave` (browbeat.js:139-148): not master, `browbeatLostElection` emitted, and
        the heartbeat timer replaced by a timeout that starts a round. */
    method BecomeSlave()
      requires Valid()
      modifies this`isMaster, this`heartbeatTimer, this`timers, this`nextHandle, this`emitted, this`delivered
      ensures Valid()
      ensures !isMaster && ArmedSilence(Cancel(old(timers), old(heartbeatTimer)), old(nextHandle))
      ensures emitted == old(emitted) + [LostElection]
      ensures delivered == old(delivered) + Notifications(listeners, LostElection, map[])
    {
      isMaster := false;
      Emit(LostElection, map[]);
      RestartSilence();
    }

    /** The heartbeat timer replaced by a fresh heartbeat timeout (browbeat.js:104-107,
        144-147). */
    method RestartSilence()
      requires Valid()
      modifies this`heartbeatTimer, this`timers, this`nextHandle
      ensures Valid()
      ensures ArmedSilence(Cancel(old(timers), old(heartbeatTimer)), old(nextHandle))
    {
      ClearTimer(heartbeatTimer);
      var h := SetTimer(SilenceTimer());
      heartbeatTimer := Some(h);
    }

    /** `castVote` (browbeat.js:155-171): this peer's id appended to the stored candidate
        list and a sanity timer armed. The timer it cancels is `sanityTimer`, which is always
        `null`, while the new timer goes to `sanity`: an earlier sanity timer stays pending. */
    method CastVote()
      requires Valid() && store != null
      modifies this`sanity, this`timers, this`nextHandle, store
      ensures Valid()
      ensures store.items == Voted(old(store.items), id)
      ensures ArmedSanity(old(timers), old(nextHandle))
      ensures old(sanity).Some? && old(sanity).value in old(timers) ==>
        old(sanity).value in timers && timers[old(sanity).value] == old(timers)[old(sanity).value]
    {
      ClearTimer(sanityTimer);
      var votes := store.Get(ElectionKey);
      store.SetItem(ElectionKey, AppendVote(votes, id));
      var h := SetTimer(VoteGuardTimer());
      sanity := Some(h);
    }

    /** `startElection` (browbeat.js:180-199): the leader and heartbeat entries removed, a
        vote cast, the start time written and the round's conclusion scheduled. The
        conclusion timer's handle is not kept. */
    method StartElection(now: nat)
      requires Valid() && store != null
      modifies this`sanity, this`timers, this`nextHandle, store
      ensures Valid()
      ensures store.items == ElectionStarted(old(store.items), id, now)
      ensures ArmedRound(old(timers), old(nextHandle))
    {
      ghost var before := store.items;
      store.RemoveItem(CurrentKey);
      store.RemoveItem(HeartbeatKey);
      assert store.items == before - {CurrentKey, HeartbeatKey};
      CastVote();
      assert sanity.value in timers;
      store.SetItem(ElectionStartKey, Show(now));
      assert store.items == ElectionStarted(before, id, now);
      var _ := SetTimer(ConclusionTimer);
    }

    /** `endElection` (browbeat.js:188-198): the winner written as leader and the round
        cleared; the peer becomes master when it is the winner and is otherwise left as
        it was. */
    method EndElection()
      requires Valid() && store != null
      modifies this`isMaster, this`heartbeatTimer, this`timers, this`nextHandle, this`emitted, this`delivered, store
      ensures Valid()
      ensures store.items == Concluded(old(store.items), id)
      ensures Winner(old(store.Get(ElectionKey)), id) == Some(id) ==>
        && isMaster && ArmedBeat(old(timers), old(nextHandle))
        && emitted == old(emitted) + [WonElection]
        && delivered == old(delivered) + Notifications(listeners, WonElection, map[])
      ensures Winner(old(store.Get(ElectionKey)), id) != Some(id) ==>
        && isMaster == old(isMaster) && heartbeatTimer == old(heartbeatTimer)
        && timers == old(timers) && nextHandle == old(nextHandle)
        && emitted == old(emitted) && delivered == old(delivered)
    {
      ghost var before := store.items;
      var candidates := store.Get(ElectionKey);
      var winner := Winner(candidates, id);
      store.SetItem(CurrentKey, ShowWinner(winner));
      store.RemoveItem(ElectionKey);
      store.RemoveItem(ElectionStartKey);
      assert store.items == Concluded(before, id);
      if winner == Some(id) {
        BecomeMaster();
      }
    }

    /** The sanity timer's callback (browbeat.js:166-170): a round is started when no
        leader is stored. */
    method CheckSanity(now: nat)
      requires Valid() && store != null
      modifies this`sanity, this`timers, this`nextHandle, store
      ensures Valid()
      ensures var leader := old(store.Get(CurrentKey));
        if leader.Some? && leader.value != [] then
          && store.items == old(store.items) && sanity == old(sanity)
          && timers == old(timers) && nextHandle == old(nextHandle)
        else
          store.items == ElectionStarted(old(store.items), id, now) && ArmedRound(old(timers), old(nextHandle))
    {
      var leader := store.Get(CurrentKey);
      if leader.None? || leader.value == [] {
        StartElection(now);
      }
    }

    /** The host runs the pending timer `h` at time `now`. A one-shot timer leaves the
        table first; an interval stays. Without a store every callback throws a `TypeError`
        at its first store access and so changes nothing. */
    method Fire(h: Handle, now: nat)
      requires Valid() && h in timers
      modifies this`isMaster, this`sanity, this`heartbeatTimer, this`timers, this`nextHandle
      modifies this`emitted, this`delivered, store
      ensures Valid()
      ensures h in timers <==> old(timers[h]).repeating
      ensures store == null ==>
        && timers == (if old(timers[h]).repeating then old(timers) else old(timers) - {h})
        && isMaster == old(isMaster) && heartbeatTimer == old(heartbeatTimer) && sanity == old(sanity)
        && nextHandle == old(nextHandle) && emitted == old(emitted) && delivered == old(delivered)
      ensures store != null ==> store.items == AfterCallback(old(timers[h]).callback, old(store.items), id, now)
      ensures store != null && old(timers[h]).callback == ConcludeRound && Winner(old(store.Get(ElectionKey)), id) == Some(id) ==>
        isMaster && emitted == old(emitted) + [WonElection]
    {
      var t := timers[h];
      if !t.repeating {
        ClearTimer(Some(h));
      }
      if store == null {
        return;
      }
      match t.callback
      case WriteHeartbeat =>
        store.SetItem(HeartbeatKey, Show(now));
      case ElectOnSilence =>
        StartElection(now);
      case SanityCheck =>
        CheckSanity(now);
      case ConcludeRound =>
        EndElection();
    }

    /** `on` (browbeat.js:208-214): `handler` added at the end of the handlers of `e`, which
        start out empty; the handlers of every other event are unchanged. */
    method On(e: string, handler: Handler)
      modifies this`listeners
      ensures e in listeners
      ensures listeners[e] == (if e in old(listeners) then old(listeners)[e] else []) + [handler]
      ensures listeners.Keys == old(listeners).Keys + {e}
      ensures forall other :: other in old(listeners) && other != e ==> listeners[other] == old(listeners)[other]
    {
      if e !in listeners {
        listeners := listeners[e := []];
      }
      listeners := listeners[e := listeners[e] + [handler]];
    }

    /** `emit` (browbeat.js:221-228), delivering to this peer's own registry: no call when
        `e` has no handler list, otherwise every handler of `e` called in order with a
        payload naming `e`. */
    method Emit(e: string, data: map<string, string>)
      modifies this`emitted, this`delivered
      ensures emitted == old(emitted) + [e]
      ensures delivered == old(delivered) + Notifications(listeners, e, data)
    {
      emitted := emitted + [e];
      if e in listeners {
        var calls := Deliver(listeners[e], Payload(e, data));
        delivered := delivered + calls;
      }
    }
  }

  /** A peer that finds a store with no round and no heartbeat (at a clock reading past
      `heartbeatTTL`, so that the missing heartbeat counts as stale) starts a round; when
      no other peer votes, the round's conclusion makes it master. */
  method LonePeerBecomesMaster(id: nat, heartbeatOffset: nat, now: nat, later: nat) returns (won: bool)
    requires now >= HeartbeatTTL
    ensures won
  {
    var store := new LocalStorage(map[]);
    assert !ElectionOngoing(store.items, now) && !HeartbeatFresh(store.items, now);
    var peer := new Browbeat(id, heartbeatOffset, store, now);
    assert CandidateList(store.Get(ElectionKey)) == [Show(id)];
    DecodeEncodeIds([id]);
    assert ShowAll([id]) == [Show(id)];
    peer.Fire(peer.nextHandle - 1, later);
    won := peer.isMaster;
  }

}
