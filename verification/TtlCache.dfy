/** The TTL cache under concurrent Get and Set: each lock region, and the clock reading between two of them, is one step. */
module TtlCache {
  import opened Common

  type Key = nat
  /** Cached bytes are never looked into. */
  type Value = nat

  datatype Entry = Entry(val: Value, expiry: int)

  predicate Expired(e: Entry, now: int) { now > e.expiry }

  // ---------- lock regions ----------

  function Looked(m: map<Key, Entry>, key: Key): Option<Entry> {
    if key in m then Some(m[key]) else None
  }

  /** The region under the write lock in Get: what it answers, and the entries it leaves. */
  function Rechecked(m: map<Key, Entry>, key: Key, now: int): Option<Value> {
    if key in m && !Expired(m[key], now) then Some(m[key].val) else None
  }

  function Evicted(m: map<Key, Entry>, key: Key, now: int): map<Key, Entry> {
    if key in m && !Expired(m[key], now) then m else m - {key}
  }

  class Cache {
    const ttl: int
    var entries: map<Key, Entry>

    constructor (ttl: int)
      ensures this.ttl == ttl && entries == map[]
    {
      this.ttl := ttl;
      entries := map[];
    }

    method Set(key: Key, val: Value, now: int)
      modifies this`entries
      ensures entries == old(entries)[key := Entry(val, now + ttl)]
    {
      entries := entries[key := Entry(val, now + ttl)];
    }

    /** Get with nobody in between, at its two readings of the clock. */
    method Get(key: Key, now: int, later: int) returns (val: Value, ok: bool)
      modifies this`entries
      ensures ok <==> key in old(entries) && (now <= old(entries)[key].expiry || later <= old(entries)[key].expiry)
      ensures ok ==> val == old(entries)[key].val && entries == old(entries)
      ensures !ok ==> entries == old(entries) - {key}
    {
      if key !in entries {
        return 0, false;
      }
      var e := entries[key];
      if Expired(e, now) {
        var cur := Recheck(key, later);
        return if cur.Some? then cur.value else 0, cur.Some?;
      }
      return e.val, true;
    }

    /** The region under the write lock: another writer may have refreshed the entry. */
    method Recheck(key: Key, now: int) returns (out: Option<Value>)
      modifies this`entries
      ensures out == Rechecked(old(entries), key, now) && entries == Evicted(old(entries), key, now)
    {
      if key in entries && !(now > entries[key].expiry) {
        return Some(entries[key].val);
      }
      entries := entries - {key};
      return None;
    }
  }

  // ---------- interleavings ----------

  datatype Write = Write(key: Key, entry: Entry)

  /** A point of a run: how many Sets there had been, and the time. */
  datatype Moment = Moment(writes: nat, at: int)

  /** Where a Get is. `since` is when it was called; a finished one carries the moment at which it took effect. */
  datatype Call = Reading(key: Key, since: Moment)
                | Checking(key: Key, since: Moment, e: Entry, read: Moment)
                | Evicting(key: Key, since: Moment)
                | Done(key: Key, since: Moment, out: Option<Value>, effect: Moment)

  datatype State = State(entries: map<Key, Entry>, calls: seq<Call>, log: seq<Write>, clock: int)

  datatype Step = Begin(key: Key) | Read(i: nat) | Check(i: nat) | Evict(i: nat) | Store(key: Key, val: Value)

  predicate Enabled(s: State, now: int, t: Step) {
    && now >= s.clock
    && match t
       case Begin(_) => true
       case Read(i) => i < |s.calls| && s.calls[i].Reading?
       case Check(i) => i < |s.calls| && s.calls[i].Checking?
       case Evict(i) => i < |s.calls| && s.calls[i].Evicting?
       case Store(_, _) => true
  }

  function NextCall(s: State, now: int, t: Step): Call
    requires Enabled(s, now, t) && !t.Store?
  {
    var here := Moment(|s.log|, now);
    match t
    case Begin(key) => Reading(key, here)
    case Read(i) =>
      var c := s.calls[i];
      var e := Looked(s.entries, c.key);
      if e.Some? then Checking(c.key, c.since, e.value, here) else Done(c.key, c.since, None, here)
    case Check(i) =>
      var c := s.calls[i];
      if Expired(c.e, now) then Evicting(c.key, c.since) else Done(c.key, c.since, Some(c.e.val), c.read)
    case Evict(i) =>
      var c := s.calls[i];
      Done(c.key, c.since, Rechecked(s.entries, c.key, now), here)
  }

  function Next(ttl: int, s: State, now: int, t: Step): State
    requires Enabled(s, now, t)
  {
    match t
    case Begin(_) => s.(calls := s.calls + [NextCall(s, now, t)], clock := now)
    case Read(i) => s.(calls := s.calls[i := NextCall(s, now, t)], clock := now)
    case Check(i) => s.(calls := s.calls[i := NextCall(s, now, t)], clock := now)
    case Evict(i) => s.(calls := s.calls[i := NextCall(s, now, t)], clock := now,
                        entries := Evicted(s.entries, s.calls[i].key, now))
    case Store(key, val) => s.(entries := s.entries[key := Entry(val, now + ttl)],
                               log := s.log + [Write(key, Entry(val, now + ttl))], clock := now)
  }

  predicate Init(s: State) { s.entries == map[] && s.calls == [] && s.log == [] }

  ghost predicate StepOk(ttl: int, ss: seq<State>, ts: seq<(int, Step)>, i: nat) {
    i < |ts| && i + 1 < |ss| && Enabled(ss[i], ts[i].0, ts[i].1) && ss[i + 1] == Next(ttl, ss[i], ts[i].0, ts[i].1)
  }

  ghost predicate Execution(ttl: int, ss: seq<State>, ts: seq<(int, Step)>) {
    |ss| == |ts| + 1 && Init(ss[0]) && forall i: nat :: i < |ts| ==> StepOk(ttl, ss, ts, i)
  }

  // ---------- what the cache is for ----------

  /** The last of the first n Sets of the key. */
  function LastSet(log: seq<Write>, n: nat, key: Key): Option<Entry>
    requires n <= |log|
  {
    if n == 0 then None
    else if log[n - 1].key == key then Some(log[n - 1].entry)
    else LastSet(log, n - 1, key)
  }

  /** What a cache without concurrency would answer at that moment: the last value Set, until it expires. */
  function Ideal(log: seq<Write>, m: Moment, key: Key): Option<Value>
    requires m.writes <= |log|
  {
    var e := LastSet(log, m.writes, key);
    if e.Some? && !Expired(e.value, m.at) then Some(e.value.val) else None
  }

  predicate NoLater(m: Moment, m': Moment) { m.writes <= m'.writes && m.at <= m'.at }

  predicate EntryOk(s: State, key: Key) {
    var last := LastSet(s.log, |s.log|, key);
    if key in s.entries then last == Some(s.entries[key]) else last.None? || last.value.expiry < s.clock
  }

  predicate CallOk(log: seq<Write>, clock: int, c: Call) {
    var here := Moment(|log|, clock);
    && NoLater(c.since, here)
    && (c.Checking? ==> NoLater(c.since, c.read) && NoLater(c.read, here) && LastSet(log, c.read.writes, c.key) == Some(c.e))
    && (c.Done? ==> NoLater(c.since, c.effect) && NoLater(c.effect, here) && c.out == Ideal(log, c.effect, c.key))
  }

  ghost predicate Inv(s: State) {
    && (forall key: Key :: EntryOk(s, key))
    && (forall i :: 0 <= i < |s.calls| ==> CallOk(s.log, s.clock, s.calls[i]))
  }

  lemma {:induction false} LastSetKept(log: seq<Write>, w: Write, n: nat, key: Key)
    requires n <= |log|
    ensures LastSet(log + [w], n, key) == LastSet(log, n, key)
  {
    if n > 0 {
      LastSetKept(log, w, n - 1, key);
    }
  }

  lemma CallKept(log: seq<Write>, log': seq<Write>, clock: int, clock': int, c: Call)
    requires CallOk(log, clock, c) && clock <= clock' && (log' == log || exists w :: log' == log + [w])
    ensures CallOk(log', clock', c)
  {
    if w :| log' == log + [w] {
      if c.Checking? {
        LastSetKept(log, w, c.read.writes, c.key);
      } else if c.Done? {
        LastSetKept(log, w, c.effect.writes, c.key);
      }
    }
  }

  lemma NewCallOk(s: State, now: int, t: Step)
    requires Inv(s) && Enabled(s, now, t) && !t.Store?
    ensures CallOk(s.log, now, NextCall(s, now, t))
  {
    match t {
      case Begin(_) =>
      case Read(i) =>
        assert EntryOk(s, s.calls[i].key);
        assert CallOk(s.log, s.clock, s.calls[i]);
      case Check(i) => assert CallOk(s.log, s.clock, s.calls[i]);
      case Evict(i) =>
        assert EntryOk(s, s.calls[i].key);
        assert CallOk(s.log, s.clock, s.calls[i]);
    }
  }

  lemma EntriesKept(ttl: int, s: State, now: int, t: Step, key: Key)
    requires EntryOk(s, key) && Enabled(s, now, t)
    ensures EntryOk(Next(ttl, s, now, t), key)
  {
    if t.Store? {
      LastSetKept(s.log, Write(t.key, Entry(t.val, now + ttl)), |s.log|, key);
    }
    hide NextCall;
  }

  lemma InvStep(ttl: int, s: State, now: int, t: Step)
    requires Inv(s) && Enabled(s, now, t)
    ensures Inv(Next(ttl, s, now, t))
  {
    var s' := Next(ttl, s, now, t);
    forall key: Key
      ensures EntryOk(s', key)
    {
      EntriesKept(ttl, s, now, t, key);
    }
    if !t.Store? {
      NewCallOk(s, now, t);
    }
    hide NextCall, CallOk, EntryOk;
    forall i | 0 <= i < |s'.calls|
      ensures CallOk(s'.log, s'.clock, s'.calls[i])
    {
      if i < |s.calls| && s'.calls[i] == s.calls[i] {
        CallKept(s.log, s'.log, s.clock, s'.clock, s.calls[i]);
      }
    }
  }

  lemma {:induction false} InvAlways(ttl: int, ss: seq<State>, ts: seq<(int, Step)>, i: nat)
    requires Execution(ttl, ss, ts) && i < |ss|
    ensures Inv(ss[i])
  {
    hide Next, Enabled;
    if i > 0 {
      InvAlways(ttl, ss, ts, i - 1);
      assert StepOk(ttl, ss, ts, i - 1);
      InvStep(ttl, ss[i - 1], ts[i - 1].0, ts[i - 1].1);
    }
  }

  /** THE CACHE IS LINEARIZABLE. In every interleaving under a clock that does not go back, a finished Get answered what
      the ideal cache would have answered at one moment of the call: a hit is the last value Set for that key before
      that moment, and not expired then; a miss means there was none. */
  lemma GetsAreAtomic(ttl: int, ss: seq<State>, ts: seq<(int, Step)>, i: nat, k: nat)
    requires Execution(ttl, ss, ts) && i < |ss| && k < |ss[i].calls| && ss[i].calls[k].Done?
    ensures var c := ss[i].calls[k];
            && NoLater(c.since, c.effect) && NoLater(c.effect, Moment(|ss[i].log|, ss[i].clock))
            && c.out == Ideal(ss[i].log, c.effect, c.key)
            && (c.out.Some? ==> exists n: nat :: n < c.effect.writes && ss[i].log[n].key == c.key
                                                && ss[i].log[n].entry.val == c.out.value
                                                && c.effect.at <= ss[i].log[n].entry.expiry)
  {
    InvAlways(ttl, ss, ts, i);
    var c := ss[i].calls[k];
    assert CallOk(ss[i].log, ss[i].clock, c);
    if c.out.Some? {
      var n := SetAt(ss[i].log, c.effect.writes, c.key);
    }
  }

  lemma SetAt(log: seq<Write>, n: nat, key: Key) returns (k: nat)
    requires n <= |log| && LastSet(log, n, key).Some?
    ensures k < n && log[k].key == key && log[k].entry == LastSet(log, n, key).value
  {
    k := n - 1;
    if log[k].key != key {
      k := SetAt(log, n - 1, key);
    }
  }

  /** NO FRESH SET IS LOST. In every interleaving the last Set of a key is in the cache for as long as it has not expired,
      whatever Gets were evicting meanwhile; and nothing but the last Set of a key is ever there. */
  lemma FreshSetsStay(ttl: int, ss: seq<State>, ts: seq<(int, Step)>, i: nat, key: Key)
    requires Execution(ttl, ss, ts) && i < |ss|
    ensures var s, last := ss[i], LastSet(ss[i].log, |ss[i].log|, key);
            && (last.Some? && s.clock <= last.value.expiry ==> key in s.entries)
            && (key in s.entries ==> last == Some(s.entries[key]))
  {
    InvAlways(ttl, ss, ts, i);
    assert EntryOk(ss[i], key);
  }

  /** A Get removes at most the entry of its own key, and that only when it has expired by then. */
  lemma EvictsOnlyExpired(ttl: int, s: State, now: int, t: Step, key: Key)
    requires Enabled(s, now, t) && key in s.entries
    ensures key !in Next(ttl, s, now, t).entries ==>
              t.Evict? && key == s.calls[t.i].key && now > s.entries[key].expiry
    ensures !t.Store? && key in Next(ttl, s, now, t).entries ==> Next(ttl, s, now, t).entries[key] == s.entries[key]
  {
    hide NextCall;
  }

  /** The Sets among the first n steps, each with the time at which it expires. */
  function SetsOf(ttl: int, ts: seq<(int, Step)>, n: nat): seq<Write>
    requires n <= |ts|
  {
    if n == 0 then []
    else SetsOf(ttl, ts, n - 1)
         + match ts[n - 1].1
           case Store(key, val) => [Write(key, Entry(val, ts[n - 1].0 + ttl))]
           case _ => []
  }

  /** Each call of s is in s' with the same key, begun at the same moment. */
  predicate SameCalls(s: State, s': State) {
    && |s.calls| <= |s'.calls|
    && forall k :: 0 <= k < |s.calls| ==> s'.calls[k].key == s.calls[k].key && s'.calls[k].since == s.calls[k].since
  }

  /** The log is what was Set, no more and no less; a Get asks for the key it was called with, from that moment on. */
  lemma {:induction false} LogIsWhatWasSet(ttl: int, ss: seq<State>, ts: seq<(int, Step)>, n: nat)
    requires Execution(ttl, ss, ts) && n < |ss|
    ensures ss[n].log == SetsOf(ttl, ts, n) && (n > 0 ==> ss[n].clock == ts[n - 1].0)
    ensures forall m :: 0 <= m <= n ==> SameCalls(ss[m], ss[n])
    ensures forall m :: 0 <= m < n && ts[m].1.Begin? ==>
              && |ss[m].calls| < |ss[n].calls| && ss[n].calls[|ss[m].calls|].key == ts[m].1.key
              && ss[n].calls[|ss[m].calls|].since == Moment(|SetsOf(ttl, ts, m)|, ts[m].0)
  {
    if n > 0 {
      LogIsWhatWasSet(ttl, ss, ts, n - 1);
      assert StepOk(ttl, ss, ts, n - 1);
      CallsKept(ttl, ss[n - 1], ts[n - 1].0, ts[n - 1].1);
      hide Next, Enabled;
      forall m | 0 <= m < n
        ensures SameCalls(ss[m], ss[n])
      {
        assert SameCalls(ss[m], ss[n - 1]);
      }
    }
  }

  lemma CallsKept(ttl: int, s: State, now: int, t: Step)
    requires Enabled(s, now, t)
    ensures var s' := Next(ttl, s, now, t);
            && s'.clock == now && SameCalls(s, s')
            && s'.log == s.log + (if t.Store? then [Write(t.key, Entry(t.val, now + ttl))] else [])
            && (t.Begin? ==> s'.calls == s.calls + [Reading(t.key, Moment(|s.log|, now))])
  {}
}
