/**
 * `LifecycleLogger` of src/core/lifecycle_logger.py: the process-wide store
 * of lifecycle events.  Events are appended in memory and to one JSON-lines
 * file per session; queries filter by session, sort newest first and cut to
 * a limit; an empty store reloads itself from the files, skipping events
 * whose id it already holds.
 *
 * The singleton is one `LifecycleLogger` object.  The clock and `uuid4` are
 * parameters; a persisted line is kept as the event it encodes (or as a
 * blank or garbled line), so the JSON encoding itself is not modelled.
 */
module Lifecycle {
  import opened Base
  import opened Json

  datatype Phase = Exploration | Generation | Execution

  datatype Component = Frontend | Server | Secrets | Agent | Browser | Llm | Filesystem | Executor

  datatype SecurityContext = SecurityContext(safe: bool, credentialInvolved: bool, zeroTrust: bool, isolationLevel: string)

  /** `SecurityContext()`: the field defaults of lines 36-39. */
  const DefaultSecurity := SecurityContext(true, false, true, "none")

  /** A `LifecycleEvent`; the timestamp is the clock reading at creation, as a number. */
  datatype Event = Event(eventId: string, timestamp: int, sessionId: string, eventType: string,
                         phase: Phase, component: Component, action: string, description: string,
                         metadata: Json, security: SecurityContext, durationMs: Option<int>)

  /** A line of a persisted file: blank, an event, or text that `json.loads` or the event model rejects. */
  datatype Line = Blank | Record(event: Event) | Garbled

  /** Python's truthiness of an optional string argument. */
  predicate Given(s: Option<string>) {
    s.Some? && s.value != ""
  }

  // ---------------------------------------------------------------------------
  // Filtering by session (lines 173-176, 197-198)

  /** `[e for e in events if e.session_id == s]`. */
  function OfSession(events: seq<Event>, s: string): seq<Event> {
    if events == [] then []
    else (if events[0].sessionId == s then [events[0]] else []) + OfSession(events[1..], s)
  }

  /** `[e for e in events if e.session_id != s]`. */
  function Without(events: seq<Event>, s: string): seq<Event> {
    if events == [] then []
    else (if events[0].sessionId != s then [events[0]] else []) + Without(events[1..], s)
  }

  /** The events a query looks at: those of the session when one is given, else all. */
  function Scope(events: seq<Event>, sid: Option<string>): seq<Event> {
    if Given(sid) then OfSession(events, sid.value) else events
  }

  /** The filter keeps exactly the session's events, its complement exactly the others. */
  lemma {:induction false} OfSessionMembers(events: seq<Event>, s: string)
    ensures forall e :: e in OfSession(events, s) <==> e in events && e.sessionId == s
    ensures forall e :: e in Without(events, s) <==> e in events && e.sessionId != s
    decreases |events|
  {
    if events != [] {
      OfSessionMembers(events[1..], s);
      assert forall e :: e in events <==> e == events[0] || e in events[1..];
    }
  }

  /** What the filter and its complement keep together is everything, with multiplicity. */
  lemma {:induction false} OfSessionSplit(events: seq<Event>, s: string)
    ensures multiset(OfSession(events, s)) + multiset(Without(events, s)) == multiset(events)
    decreases |events|
  {
    if events != [] {
      OfSessionSplit(events[1..], s);
      assert events == [events[0]] + events[1..];
    }
  }

  /** Clearing a session leaves every other session's events as they were, in order, and none of its own. */
  lemma {:induction false} WithoutKeepsOthers(events: seq<Event>, s: string, t: string)
    ensures OfSession(Without(events, s), t) == if t == s then [] else OfSession(events, t)
    decreases |events|
  {
    if events != [] {
      WithoutKeepsOthers(events[1..], s, t);
      var head := if events[0].sessionId != s then [events[0]] else [];
      OfSessionAppend(head, Without(events[1..], s), t);
    }
  }

  lemma {:induction false} OfSessionAppend(a: seq<Event>, b: seq<Event>, s: string)
    ensures OfSession(a + b, s) == OfSession(a, s) + OfSession(b, s)
    decreases |a|
  {
    if a != [] {
      OfSessionAppend(a[1..], b, s);
      assert (a + b)[1..] == a[1..] + b;
    } else {
      assert a + b == b;
    }
  }

  // ---------------------------------------------------------------------------
  // `sorted(events, key=timestamp, reverse=True)` (line 179)

  /**
   * Inserting x in front of every event not newer than it.  Python's sort
   * with `reverse=True` keeps events with equal timestamps in their original
   * order, so an earlier event goes before the equal ones after it.
   */
  function InsertNewest(x: Event, ys: seq<Event>): seq<Event> {
    if ys == [] || ys[0].timestamp <= x.timestamp then [x] + ys
    else [ys[0]] + InsertNewest(x, ys[1..])
  }

  function SortNewest(xs: seq<Event>): seq<Event> {
    if xs == [] then [] else InsertNewest(xs[0], SortNewest(xs[1..]))
  }

  predicate NewestFirst(xs: seq<Event>) {
    forall i, j :: 0 <= i < j < |xs| ==> xs[j].timestamp <= xs[i].timestamp
  }

  /** The events carrying timestamp t, in order. */
  function At(xs: seq<Event>, t: int): seq<Event> {
    if xs == [] then [] else (if xs[0].timestamp == t then [xs[0]] else []) + At(xs[1..], t)
  }

  lemma {:induction false} InsertNewestPerm(x: Event, ys: seq<Event>)
    ensures multiset(InsertNewest(x, ys)) == multiset([x] + ys)
    ensures |InsertNewest(x, ys)| == |ys| + 1
    ensures InsertNewest(x, ys)[0] == x || InsertNewest(x, ys)[0] == ys[0]
    decreases |ys|
  {
    if ys != [] && ys[0].timestamp > x.timestamp {
      InsertNewestPerm(x, ys[1..]);
      assert ys == [ys[0]] + ys[1..];
    }
  }

  lemma {:induction false} InsertNewestSorted(x: Event, ys: seq<Event>)
    requires NewestFirst(ys)
    ensures NewestFirst(InsertNewest(x, ys))
    decreases |ys|
  {
    if ys == [] || ys[0].timestamp <= x.timestamp {
      ConsSorted(x, ys);
    } else {
      var tail := ys[1..];
      assert NewestFirst(tail) by {
        forall i, j | 0 <= i < j < |tail| ensures tail[j].timestamp <= tail[i].timestamp {
          assert tail[i] == ys[i + 1] && tail[j] == ys[j + 1];
        }
      }
      InsertNewestSorted(x, tail);
      assert forall k :: 0 <= k < |tail| ==> tail[k].timestamp <= ys[0].timestamp by {
        forall k | 0 <= k < |tail| ensures tail[k].timestamp <= ys[0].timestamp {
          assert tail[k] == ys[k + 1];
        }
      }
      InsertNewestBound(x, tail, ys[0].timestamp);
      ConsSorted(ys[0], InsertNewest(x, tail));
    }
  }

  /** Nothing newer than b goes in, nothing newer than b comes out. */
  lemma {:induction false} InsertNewestBound(x: Event, ys: seq<Event>, b: int)
    requires x.timestamp <= b && forall k :: 0 <= k < |ys| ==> ys[k].timestamp <= b
    ensures forall k :: 0 <= k < |InsertNewest(x, ys)| ==> InsertNewest(x, ys)[k].timestamp <= b
    decreases |ys|
  {
    if ys != [] && ys[0].timestamp > x.timestamp {
      var tail := ys[1..];
      assert forall k :: 0 <= k < |tail| ==> tail[k].timestamp <= b by {
        forall k | 0 <= k < |tail| ensures tail[k].timestamp <= b {
          assert tail[k] == ys[k + 1];
        }
      }
      InsertNewestBound(x, tail, b);
    }
  }

  /** An event no older than everything in a sorted list can go in front of it. */
  lemma ConsSorted(h: Event, r: seq<Event>)
    requires NewestFirst(r) && forall k :: 0 <= k < |r| ==> r[k].timestamp <= h.timestamp
    ensures NewestFirst([h] + r)
  {
    var out := [h] + r;
    forall i, j | 0 <= i < j < |out| ensures out[j].timestamp <= out[i].timestamp {
      assert out[j] == r[j - 1];
      if i > 0 {
        assert out[i] == r[i - 1];
      }
    }
  }

  /** Inserting x adds it to its timestamp's class at the front, and leaves the other classes alone. */
  lemma {:induction false} InsertNewestAt(x: Event, ys: seq<Event>, t: int)
    ensures At(InsertNewest(x, ys), t) == (if x.timestamp == t then [x] else []) + At(ys, t)
    decreases |ys|
  {
    var hx: seq<Event> := if x.timestamp == t then [x] else [];
    if ys != [] && ys[0].timestamp > x.timestamp {
      var r := InsertNewest(x, ys[1..]);
      var hy: seq<Event> := if ys[0].timestamp == t then [ys[0]] else [];
      InsertNewestAt(x, ys[1..], t);
      assert At(r, t) == hx + At(ys[1..], t);
      assert ([ys[0]] + r)[1..] == r;
      assert At(InsertNewest(x, ys), t) == hy + At(r, t);
      assert At(ys, t) == hy + At(ys[1..], t);
      assert hx == [] || hy == [];
      assert hy + (hx + At(ys[1..], t)) == hx + (hy + At(ys[1..], t));
    } else {
      assert ([x] + ys)[1..] == ys;
      assert At([x] + ys, t) == hx + At(ys, t);
    }
  }

  /**
   * The sort orders newest first, is a permutation, and is stable: the
   * events sharing any one timestamp come out in their original order.
   */
  lemma {:induction false} SortNewestSpec(xs: seq<Event>)
    ensures NewestFirst(SortNewest(xs))
    ensures multiset(SortNewest(xs)) == multiset(xs)
    ensures forall t :: At(SortNewest(xs), t) == At(xs, t)
    decreases |xs|
  {
    if xs != [] {
      SortNewestSpec(xs[1..]);
      InsertNewestSorted(xs[0], SortNewest(xs[1..]));
      InsertNewestPerm(xs[0], SortNewest(xs[1..]));
      assert xs == [xs[0]] + xs[1..];
      forall t ensures At(SortNewest(xs), t) == At(xs, t) {
        InsertNewestAt(xs[0], SortNewest(xs[1..]), t);
      }
    }
  }

  // ---------------------------------------------------------------------------
  // The limit (lines 181-182)

  /** `events[:limit]` when `limit` is truthy; a negative limit drops that many from the end. */
  function Limited(events: seq<Event>, limit: Option<int>): seq<Event> {
    if limit.None? || limit.value == 0 then events
    else if limit.value > 0 then (if limit.value >= |events| then events else events[..limit.value])
    else (if -limit.value >= |events| then [] else events[..|events| + limit.value])
  }

  /** The limit keeps a prefix: of length min(limit, n) when positive, n - |limit| (at least 0) when negative. */
  lemma LimitedPrefix(events: seq<Event>, limit: Option<int>)
    ensures var r := Limited(events, limit);
      r == events[..|r|] &&
      (limit.None? || limit.value == 0 ==> r == events) &&
      (limit.Some? && limit.value > 0 ==> |r| == if limit.value < |events| then limit.value else |events|) &&
      (limit.Some? && limit.value < 0 ==> |r| == if |events| + limit.value > 0 then |events| + limit.value else 0)
  {
  }

  /** What `get_events(session_id, limit)` returns from the store `events`. */
  function Query(events: seq<Event>, sid: Option<string>, limit: Option<int>): seq<Event> {
    Limited(SortNewest(Scope(events, sid)), limit)
  }

  /**
   * Only events of the session asked for (all when none is), newest first;
   * without a limit, a permutation of that session's events.
   */
  lemma QuerySpec(events: seq<Event>, sid: Option<string>, limit: Option<int>)
    ensures var r := Query(events, sid, limit);
      NewestFirst(r) &&
      (forall e :: e in r ==> e in events && (Given(sid) ==> e.sessionId == sid.value)) &&
      (limit.None? || limit.value == 0 ==> multiset(r) == multiset(Scope(events, sid)))
  {
    var sorted := SortNewest(Scope(events, sid));
    SortNewestSpec(Scope(events, sid));
    if Given(sid) {
      OfSessionMembers(events, sid.value);
    }
    LimitedPrefix(sorted, limit);
    var r := Limited(sorted, limit);
    forall e | e in r ensures e in Scope(events, sid) {
      var k :| 0 <= k < |r| && r[k] == e;
      assert sorted[k] == e;
      assert e in multiset(sorted);
    }
  }

  /** `get_event_count(s)` is the number of events the session has. */
  lemma CountIsScopeSize(events: seq<Event>, sid: Option<string>)
    ensures |Query(events, sid, None)| == |Scope(events, sid)|
  {
    SortNewestSpec(Scope(events, sid));
    assert |multiset(SortNewest(Scope(events, sid)))| == |multiset(Scope(events, sid))|;
  }

  // ---------------------------------------------------------------------------
  // Loading (lines 134-162)

  function Ids(events: seq<Event>): set<string> {
    set e | e in events :: e.eventId
  }

  predicate DistinctIds(events: seq<Event>) {
    forall i, j :: 0 <= i < j < |events| ==> events[i].eventId != events[j].eventId
  }

  /** `if not any(e.event_id == event.event_id for e in self._events): self._events.append(event)`. */
  function AddNew(mem: seq<Event>, e: Event): seq<Event> {
    if e.eventId in Ids(mem) then mem else mem + [e]
  }

  /** One file: lines in order, blank lines skipped, the first garbled line ends the file. */
  function FileLoad(mem: seq<Event>, lines: seq<Line>): seq<Event>
    decreases |lines|
  {
    if lines == [] then mem
    else match lines[0]
      case Blank => FileLoad(mem, lines[1..])
      case Garbled => mem
      case Record(e) => FileLoad(AddNew(mem, e), lines[1..])
  }

  /** The files in listing order. */
  function LoadAll(mem: seq<Event>, files: seq<seq<Line>>): seq<Event>
    decreases |files|
  {
    if files == [] then mem else LoadAll(FileLoad(mem, files[0]), files[1..])
  }

  lemma AddNewSpec(mem: seq<Event>, e: Event)
    ensures DistinctIds(mem) ==> DistinctIds(AddNew(mem, e))
    ensures mem <= AddNew(mem, e)
    ensures Ids(AddNew(mem, e)) == Ids(mem) + {e.eventId}
    ensures forall x :: x in AddNew(mem, e) ==> x in mem || x == e
  {
    if e.eventId !in Ids(mem) {
      var r := mem + [e];
      assert forall x :: x in r <==> x in mem || x == e;
      if DistinctIds(mem) {
        forall i, j | 0 <= i < j < |r| ensures r[i].eventId != r[j].eventId {
          if j == |mem| {
            assert r[i] in mem;
          }
        }
      }
    }
  }

  /**
   * Loading one file keeps ids distinct, only appends, adds only events of
   * the file, and holds the id of every event recorded before the first
   * garbled line.
   */
  lemma {:induction false} FileLoadSpec(mem: seq<Event>, lines: seq<Line>)
    ensures DistinctIds(mem) ==> DistinctIds(FileLoad(mem, lines))
    ensures mem <= FileLoad(mem, lines)
    ensures Ids(mem) <= Ids(FileLoad(mem, lines))
    ensures forall x :: x in FileLoad(mem, lines) ==> x in mem || Record(x) in lines
    ensures forall k :: 0 <= k < |lines| && lines[k].Record? && (forall m :: 0 <= m < k ==> !lines[m].Garbled?) ==>
      lines[k].event.eventId in Ids(FileLoad(mem, lines))
    decreases |lines|
  {
    if lines != [] && !lines[0].Garbled? {
      var next := if lines[0].Record? then AddNew(mem, lines[0].event) else mem;
      var rest := lines[1..];
      if lines[0].Record? {
        AddNewSpec(mem, lines[0].event);
      }
      FileLoadSpec(next, rest);
      assert FileLoad(mem, lines) == FileLoad(next, rest);
      forall x | x in FileLoad(mem, lines) ensures x in mem || Record(x) in lines {
        if x !in next {
          assert Record(x) in rest;
        }
      }
      forall k | 0 <= k < |lines| && lines[k].Record? && (forall m :: 0 <= m < k ==> !lines[m].Garbled?)
        ensures lines[k].event.eventId in Ids(FileLoad(mem, lines))
      {
        if k > 0 {
          assert rest[k - 1] == lines[k];
          assert forall m :: 0 <= m < k - 1 ==> rest[m] == lines[m + 1];
        }
      }
    }
  }

  /** Over all files: ids stay distinct and what was in memory stays first. */
  lemma {:induction false} LoadAllSpec(mem: seq<Event>, files: seq<seq<Line>>)
    ensures DistinctIds(mem) ==> DistinctIds(LoadAll(mem, files))
    ensures mem <= LoadAll(mem, files)
    ensures Ids(mem) <= Ids(LoadAll(mem, files))
    decreases |files|
  {
    if files != [] {
      FileLoadSpec(mem, files[0]);
      LoadAllSpec(FileLoad(mem, files[0]), files[1..]);
    }
  }

  /** An event of a file read before that file's first garbled line is in the store after loading. */
  lemma {:induction false} LoadAllCovers(mem: seq<Event>, files: seq<seq<Line>>, f: nat, k: nat)
    requires f < |files| && k < |files[f]| && files[f][k].Record?
    requires forall m :: 0 <= m < k ==> !files[f][m].Garbled?
    ensures files[f][k].event.eventId in Ids(LoadAll(mem, files))
    decreases f
  {
    if f == 0 {
      FileLoadSpec(mem, files[0]);
      LoadAllSpec(FileLoad(mem, files[0]), files[1..]);
    } else {
      assert files[1..][f - 1] == files[f];
      LoadAllCovers(FileLoad(mem, files[0]), files[1..], f - 1, k);
    }
  }

  /** The files named by the listing, a missing one read as empty. */
  function Listing(files: map<string, seq<Line>>, names: seq<string>): (r: seq<seq<Line>>)
    ensures |r| == |names|
    ensures forall k :: 0 <= k < |names| ==> r[k] == if names[k] in files then files[names[k]] else []
  {
    seq(|names|, k requires 0 <= k < |names| => if names[k] in files then files[names[k]] else [])
  }

  // ---------------------------------------------------------------------------
  // get_sessions (lines 209-214): sorted distinct ids

  /** Python's `<` on strings: code point by code point, a proper prefix first. */
  predicate StrLess(a: string, b: string) {
    if a == [] then b != []
    else if b == [] then false
    else if a[0] != b[0] then a[0] < b[0]
    else StrLess(a[1..], b[1..])
  }

  lemma {:induction false} StrLessTotal(a: string, b: string)
    ensures a == b || StrLess(a, b) || StrLess(b, a)
    ensures !(StrLess(a, b) && StrLess(b, a))
    ensures !StrLess(a, a)
    decreases |a|
  {
    if a != [] && b != [] && a[0] == b[0] {
      StrLessTotal(a[1..], b[1..]);
      assert a == [a[0]] + a[1..] && b == [b[0]] + b[1..];
    } else if a != [] {
      StrLessTotal(a[1..], a[1..]);
    }
  }

  lemma {:induction false} StrLessTrans(a: string, b: string, c: string)
    requires StrLess(a, b) && StrLess(b, c)
    ensures StrLess(a, c)
    decreases |a|
  {
    if a != [] && a[0] == b[0] && b[0] == c[0] {
      StrLessTrans(a[1..], b[1..], c[1..]);
    }
  }

  predicate Ascending(xs: seq<string>) {
    forall i :: 0 <= i < |xs| - 1 ==> StrLess(xs[i], xs[i + 1])
  }

  /** Inserting x among sorted distinct strings, once. */
  function InsertUnique(x: string, ys: seq<string>): seq<string> {
    if ys == [] then [x]
    else if x == ys[0] then ys
    else if StrLess(x, ys[0]) then [x] + ys
    else [ys[0]] + InsertUnique(x, ys[1..])
  }

  function SortUnique(xs: seq<string>): seq<string> {
    if xs == [] then [] else InsertUnique(xs[0], SortUnique(xs[1..]))
  }

  lemma {:induction false} InsertUniqueSpec(x: string, ys: seq<string>)
    requires Ascending(ys)
    ensures Ascending(InsertUnique(x, ys))
    ensures forall z :: z in InsertUnique(x, ys) <==> z == x || z in ys
    ensures InsertUnique(x, ys) != [] && (InsertUnique(x, ys)[0] == x || InsertUnique(x, ys)[0] == ys[0])
    decreases |ys|
  {
    if ys != [] && x != ys[0] && !StrLess(x, ys[0]) {
      var tail := ys[1..];
      assert Ascending(tail) by {
        forall i | 0 <= i < |tail| - 1 ensures StrLess(tail[i], tail[i + 1]) {
          assert tail[i] == ys[i + 1] && tail[i + 1] == ys[i + 2];
        }
      }
      InsertUniqueSpec(x, tail);
      StrLessTotal(x, ys[0]);
      var r := InsertUnique(x, tail);
      assert StrLess(ys[0], r[0]) by {
        if r[0] != x {
          assert r[0] == tail[0] == ys[1];
        }
      }
      var out := [ys[0]] + r;
      forall i | 0 <= i < |out| - 1 ensures StrLess(out[i], out[i + 1]) {
        if i > 0 {
          assert out[i] == r[i - 1] && out[i + 1] == r[i];
        }
      }
      assert ys == [ys[0]] + tail;
    } else if ys != [] && x != ys[0] {
      var out := [x] + ys;
      forall i | 0 <= i < |out| - 1 ensures StrLess(out[i], out[i + 1]) {
        if i > 0 {
          assert out[i] == ys[i - 1] && out[i + 1] == ys[i];
        }
      }
    }
  }

  lemma {:induction false} AscendingStrict(xs: seq<string>)
    requires Ascending(xs)
    ensures forall i, j :: 0 <= i < j < |xs| ==> StrLess(xs[i], xs[j])
    decreases |xs|
  {
    if xs != [] {
      var tail := xs[1..];
      assert Ascending(tail) by {
        forall i | 0 <= i < |tail| - 1 ensures StrLess(tail[i], tail[i + 1]) {
          assert tail[i] == xs[i + 1] && tail[i + 1] == xs[i + 2];
        }
      }
      AscendingStrict(tail);
      forall i, j | 0 <= i < j < |xs| ensures StrLess(xs[i], xs[j]) {
        if i == 0 && j > 1 {
          assert StrLess(xs[1], xs[j]) by { assert tail[0] == xs[1] && tail[j - 1] == xs[j]; }
          StrLessTrans(xs[0], xs[1], xs[j]);
        } else if i > 0 {
          assert tail[i - 1] == xs[i] && tail[j - 1] == xs[j];
        }
      }
    }
  }

  /** The session ids of the events, in order. */
  function SessionIds(events: seq<Event>): (r: seq<string>)
    ensures |r| == |events| && forall k :: 0 <= k < |events| ==> r[k] == events[k].sessionId
  {
    seq(|events|, k requires 0 <= k < |events| => events[k].sessionId)
  }

  function Sessions(events: seq<Event>): seq<string> {
    SortUnique(SessionIds(events))
  }

  lemma {:induction false} SortUniqueSpec(xs: seq<string>)
    ensures Ascending(SortUnique(xs))
    ensures forall z :: z in SortUnique(xs) <==> z in xs
    decreases |xs|
  {
    if xs != [] {
      SortUniqueSpec(xs[1..]);
      InsertUniqueSpec(xs[0], SortUnique(xs[1..]));
      assert xs == [xs[0]] + xs[1..];
    }
  }

  /** `get_sessions()` lists each session that has an event exactly once, in increasing order. */
  lemma SessionsSpec(events: seq<Event>)
    ensures var r := Sessions(events);
      (forall i, j :: 0 <= i < j < |r| ==> StrLess(r[i], r[j])) &&
      (forall s :: s in r <==> exists e :: e in events && e.sessionId == s)
  {
    var ids := SessionIds(events);
    SortUniqueSpec(ids);
    AscendingStrict(Sessions(events));
    forall s ensures s in Sessions(events) <==> exists e :: e in events && e.sessionId == s {
      if s in ids {
        var k :| 0 <= k < |ids| && ids[k] == s;
        assert events[k] in events;
      }
      if exists e :: e in events && e.sessionId == s {
        var e :| e in events && e.sessionId == s;
        var k :| 0 <= k < |events| && events[k] == e;
        assert ids[k] == s;
      }
    }
  }

  // ---------------------------------------------------------------------------
  // The logger

  class LifecycleLogger {
    var events: seq<Event>
    var currentSessionId: string
    /** The persistence directory: file name to lines. */
    var files: map<string, seq<Line>>

    /** The class attributes of lines 64-67, on an empty directory. */
    constructor()
      ensures events == [] && currentSessionId == "default" && files == map[]
    {
      events := [];
      currentSessionId := "default";
      files := map[];
    }

    /** Lines 81-90: the given id, or one made from the clock reading `stamp` (`%Y%m%d_%H%M%S`). */
    method StartSession(sessionId: Option<string>, stamp: string) returns (current: string)
      modifies this
      ensures current == currentSessionId
      ensures Given(sessionId) ==> current == sessionId.value
      ensures !Given(sessionId) ==> current == "session_" + stamp
      ensures events == old(events) && files == old(files)
    {
      if Given(sessionId) {
        currentSessionId := sessionId.value;
      } else {
        currentSessionId := "session_" + stamp;
      }
      current := currentSessionId;
    }

    /**
     * Lines 92-132: the event is stamped with the current session, appended,
     * and its line appended to the session's file (a failed write, `writeOk`
     * false, is swallowed).
     */
    method LogEvent(eventType: string, phase: Phase, component: Component, action: string, description: string,
                    metadata: Option<Json>, security: Option<SecurityContext>, durationMs: Option<int>,
                    id: string, now: int, writeOk: bool) returns (event: Event)
      modifies this
      ensures event == Event(id, now, old(currentSessionId), eventType, phase, component, action, description,
                             OrEmptyDict(metadata), if security.Some? then security.value else DefaultSecurity, durationMs)
      ensures events == old(events) + [event]
      ensures currentSessionId == old(currentSessionId)
      ensures files == if writeOk then old(files)[SessionFile(event.sessionId) := FileLines(old(files), SessionFile(event.sessionId)) + [Record(event)]]
                       else old(files)
    {
      event := Event(id, now, currentSessionId, eventType, phase, component, action, description,
                     OrEmptyDict(metadata), if security.Some? then security.value else DefaultSecurity, durationMs);
      events := events + [event];
      if writeOk {
        var name := SessionFile(event.sessionId);
        files := files[name := FileLines(files, name) + [Record(event)]];
      }
    }

    /** Lines 134-162: every listed file read in order; `names` is the sorted directory listing. */
    method LoadEventsFromFiles(names: seq<string>)
      modifies this
      ensures events == LoadAll(old(events), Listing(files, names))
      ensures files == old(files) && currentSessionId == old(currentSessionId)
    {
      var all := Listing(files, names);
      ghost var mem0 := events;
      var f := 0;
      while f < |names|
        invariant 0 <= f <= |names|
        invariant LoadAll(mem0, all) == LoadAll(events, all[f..])
        invariant files == old(files) && currentSessionId == old(currentSessionId)
        decreases |names| - f
      {
        var lines := FileLines(files, names[f]);
        assert lines == all[f];
        var loaded := LoadFile(events, lines);
        assert all[f..][1..] == all[f + 1..];
        events := loaded;
        f := f + 1;
      }
      assert all[f..] == [];
    }

    /** Lines 164-184: load when the store is empty, then select, sort and cut. */
    method GetEvents(sid: Option<string>, limit: Option<int>, names: seq<string>) returns (r: seq<Event>)
      modifies this
      ensures events == if old(events) == [] then LoadAll([], Listing(files, names)) else old(events)
      ensures files == old(files) && currentSessionId == old(currentSessionId)
      ensures r == Query(events, sid, limit)
    {
      if |events| == 0 {
        LoadEventsFromFiles(names);
      }
      var selected := if Given(sid) then OfSession(events, sid.value) else events;
      var sorted := SortNewest(selected);
      r := Limited(sorted, limit);
    }

    /** Lines 192-202: a session's events removed, or all of them. */
    method ClearEvents(sid: Option<string>)
      modifies this
      ensures events == if Given(sid) then Without(old(events), sid.value) else []
      ensures files == old(files) && currentSessionId == old(currentSessionId)
    {
      if Given(sid) {
        events := Without(events, sid.value);
      } else {
        events := [];
      }
    }

    /** Lines 204-207: the length of `get_events(session_id)`, loading first like it. */
    method GetEventCount(sid: Option<string>, names: seq<string>) returns (count: nat)
      modifies this
      ensures events == if old(events) == [] then LoadAll([], Listing(files, names)) else old(events)
      ensures files == old(files) && currentSessionId == old(currentSessionId)
      ensures count == |Scope(events, sid)|
    {
      var r := GetEvents(sid, None, names);
      CountIsScopeSize(events, sid);
      count := |r|;
    }

    /** Lines 209-214: without loading. */
    method GetSessions() returns (r: seq<string>)
      ensures r == Sessions(events)
      ensures forall s :: s in r <==> exists e :: e in events && e.sessionId == s
      ensures forall i, j :: 0 <= i < j < |r| ==> StrLess(r[i], r[j])
    {
      SessionsSpec(events);
      r := Sessions(events);
    }
  }

  /** `f"{session_id}.jsonl"` in the persistence directory. */
  function SessionFile(sid: string): string {
    sid + ".jsonl"
  }

  function FileLines(files: map<string, seq<Line>>, name: string): seq<Line> {
    if name in files then files[name] else []
  }

  /** The inner loop of lines 146-155 over one file's lines. */
  method LoadFile(mem: seq<Event>, lines: seq<Line>) returns (events: seq<Event>)
    ensures events == FileLoad(mem, lines)
  {
    events := mem;
    var i := 0;
    while i < |lines|
      invariant 0 <= i <= |lines|
      invariant FileLoad(mem, lines) == FileLoad(events, lines[i..])
      decreases |lines| - i
    {
      assert lines[i..][1..] == lines[i + 1..];
      match lines[i]
      case Blank =>
        i := i + 1;
      case Garbled =>
        return;
      case Record(e) =>
        if e.eventId !in Ids(events) {
          events := events + [e];
        }
        i := i + 1;
    }
  }

  /** A logged event is the newest of its session's list: the query with no limit returns it, stamped with the session. */
  lemma LoggedEventIsListed(events: seq<Event>, e: Event)
    ensures e in Query(events + [e], Some(e.sessionId), None)
    ensures OfSession(events + [e], e.sessionId) == OfSession(events, e.sessionId) + [e]
  {
    OfSessionAppend(events, [e], e.sessionId);
    assert OfSession([e], e.sessionId) == [e] by {
      assert [e][1..] == [];
    }
    var scope := Scope(events + [e], Some(e.sessionId));
    assert e in scope;
    SortNewestSpec(scope);
    assert e in multiset(scope);
  }
}
