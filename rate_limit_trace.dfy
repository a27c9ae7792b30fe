/** What the song-addition limiter guarantees over a whole run of the server:
    replaying any chronological sequence of requests and sweeps from the empty
    table, no user is ever admitted more than three times in any one-hour window. */
module RateLimitTrace {
  import opened RateLimit

  /** Something that reaches the table: a queue-add request through the middleware,
      or one run of the periodic sweep, each at time `at`. */
  datatype Event = Request(isAdmin: bool, userId: string, at: int) | SweepRun(at: int)

  /** Node runs each middleware call and each timer callback to completion, in the
      order of the clock. */
  ghost predicate Chronological(events: seq<Event>) {
    forall i, j :: 0 <= i < j < |events| ==> events[i].at <= events[j].at
  }

  function Apply(store: Store, e: Event): Store {
    match e
    case Request(isAdmin, userId, at) => Guard(store, isAdmin, userId, at).store
    case SweepRun(at) => Swept(store, at)
  }

  /** The table after `events`, starting from the empty table at process start. */
  function Run(events: seq<Event>): Store {
    if events == [] then map[]
    else Apply(Run(events[..|events| - 1]), events[|events| - 1])
  }

  predicate AdmitsAt(store: Store, e: Event, user: string) {
    e.Request? && e.userId == user && Guard(store, e.isAdmin, e.userId, e.at).outcome.Admitted?
  }

  /** The times at which `user` was admitted during `events`, in order. */
  function Admissions(events: seq<Event>, user: string): seq<int> {
    if events == [] then []
    else
      var prefix := events[..|events| - 1];
      var e := events[|events| - 1];
      Admissions(prefix, user) + (if AdmitsAt(Run(prefix), e, user) then [e.at] else [])
  }

  /** The elements of `s` in `[lo, hi)`, in order. */
  function Between(s: seq<int>, lo: int, hi: int): (r: seq<int>)
    ensures |r| <= |s|
  {
    if s == [] then []
    else (if lo <= s[0] < hi then [s[0]] else []) + Between(s[1..], lo, hi)
  }

  lemma {:induction false} BetweenAppend(a: seq<int>, b: seq<int>, lo: int, hi: int)
    ensures Between(a + b, lo, hi) == Between(a, lo, hi) + Between(b, lo, hi)
  {
    if a != [] {
      var head := if lo <= a[0] < hi then [a[0]] else [];
      calc {
        Between(a + b, lo, hi);
        { assert (a + b)[0] == a[0] && (a + b)[1..] == a[1..] + b; }
        head + Between(a[1..] + b, lo, hi);
        { BetweenAppend(a[1..], b, lo, hi); }
        head + Between(a[1..], lo, hi) + Between(b, lo, hi);
      }
    } else {
      assert a + b == b;
    }
  }

  /** If `t` falls in the hour starting at `lo`, every admission in that hour
      still counts at `t`. */
  lemma {:induction false} BetweenWithinRecent(s: seq<int>, lo: int, t: int)
    requires lo <= t < lo + WindowMs
    ensures |Between(s, lo, lo + WindowMs)| <= |Recent(s, t)|
  {
    if s != [] {
      BetweenWithinRecent(s[1..], lo, t);
    }
  }

  lemma ChronologicalPrefix(events: seq<Event>)
    requires Chronological(events) && events != []
    ensures Chronological(events[..|events| - 1])
    ensures forall i :: 0 <= i < |events| - 1 ==> events[i].at <= events[|events| - 1].at
  {
  }

  /** At any time `c` not before the last event, the table's list for `user`
      counts exactly the admissions of `user` that the history says still count. */
  lemma {:induction false} StoreMatchesHistory(events: seq<Event>, user: string, c: int)
    requires Chronological(events)
    requires events != [] ==> events[|events| - 1].at <= c
    ensures Recent(Lookup(Run(events), user), c) == Recent(Admissions(events, user), c)
  {
    if events != [] {
      var prefix := events[..|events| - 1];
      var e := events[|events| - 1];
      var t := e.at;
      ChronologicalPrefix(events);
      assert prefix != [] ==> prefix[|prefix| - 1].at <= t;
      StoreMatchesHistory(prefix, user, c);
      var before := Run(prefix);
      var history := Admissions(prefix, user);
      var stored := Lookup(before, user);
      assert Run(events) == Apply(before, e);
      if AdmitsAt(before, e, user) {
        assert Admissions(events, user) == history + [t];
        var recent := Recent(stored, t);
        assert Lookup(Run(events), user) == recent + [t];
        RecentAppend(recent, [t], c);
        RecentRecent(stored, t, c);
        RecentAppend(history, [t], c);
      } else {
        assert Admissions(events, user) == history;
        if e.Request? {
          assert Lookup(Run(events), user) == stored;
        } else {
          SweptLookup(before, t, user);
          RecentRecent(stored, t, c);
        }
      }
    }
  }

  /** The limiter's promise: in any hour `[lo, lo + 1h)`, at most three of a
      user's requests are admitted. */
  lemma {:induction false} AtMostThreePerHour(events: seq<Event>, user: string, lo: int)
    requires Chronological(events)
    ensures |Between(Admissions(events, user), lo, lo + WindowMs)| <= MaxSongs
  {
    if events != [] {
      var prefix := events[..|events| - 1];
      var e := events[|events| - 1];
      ChronologicalPrefix(events);
      AtMostThreePerHour(prefix, user, lo);
      var history := Admissions(prefix, user);
      if AdmitsAt(Run(prefix), e, user) {
        var t := e.at;
        assert Admissions(events, user) == history + [t];
        BetweenAppend(history, [t], lo, lo + WindowMs);
        if lo <= t < lo + WindowMs {
          assert prefix != [] ==> prefix[|prefix| - 1].at <= t;
          StoreMatchesHistory(prefix, user, t);
          var stored := Lookup(Run(prefix), user);
          assert |Recent(stored, t)| < MaxSongs;
          BetweenWithinRecent(history, lo, t);
        }
      } else {
        assert Admissions(events, user) == history;
      }
    }
  }
}
