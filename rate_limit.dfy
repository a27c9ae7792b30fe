/** The guest song-addition limiter of backend/middleware/rateLimit.js: a table from
    user id to the times (milliseconds) of that user's recent admissions; a non-admin
    may add at most three songs in any trailing hour. */
module RateLimit {
  import Numbers
  import opened Sessions

  /** One hour, the length of the trailing window. */
  const WindowMs: int := 60 * 60 * 1000
  /** Admissions allowed per window. */
  const MaxSongs: nat := 3
  /** How often the sweep runs; the scheduling itself is not modelled. */
  const SweepIntervalMs: int := 15 * 60 * 1000

  type Store = map<string, seq<int>>

  /** A stored admission at `t` still counts at `now`. */
  predicate InWindow(t: int, now: int) {
    now - t < WindowMs
  }

  /** `entries.filter(t => now - t < 1h)`: the admissions that still count, in order. */
  function Recent(entries: seq<int>, now: int): (r: seq<int>)
    ensures |r| <= |entries|
    ensures forall t :: t in r ==> t in entries && InWindow(t, now)
  {
    if entries == [] then []
    else (if InWindow(entries[0], now) then [entries[0]] else []) + Recent(entries[1..], now)
  }

  /** Each admission that still counts is kept as often as it was stored
      (two admissions in the same millisecond count twice); nothing else is. */
  lemma {:induction false} RecentCounts(entries: seq<int>, now: int)
    ensures forall t :: multiset(Recent(entries, now))[t] ==
                          if InWindow(t, now) then multiset(entries)[t] else 0
  {
    if entries != [] {
      RecentCounts(entries[1..], now);
      assert entries == [entries[0]] + entries[1..];
    }
  }

  lemma {:induction false} RecentAppend(a: seq<int>, b: seq<int>, now: int)
    ensures Recent(a + b, now) == Recent(a, now) + Recent(b, now)
  {
    if a != [] {
      var head := if InWindow(a[0], now) then [a[0]] else [];
      calc {
        Recent(a + b, now);
        { assert (a + b)[0] == a[0] && (a + b)[1..] == a[1..] + b; }
        head + Recent(a[1..] + b, now);
        { RecentAppend(a[1..], b, now); }
        head + Recent(a[1..], now) + Recent(b, now);
      }
    } else {
      assert a + b == b;
    }
  }

  /** Filtering at `t` and then at a later `c` is filtering at `c`: whatever
      counts at `c` already counted at `t`. */
  lemma {:induction false} RecentRecent(s: seq<int>, t: int, c: int)
    requires t <= c
    ensures Recent(Recent(s, t), c) == Recent(s, c)
  {
    if s != [] {
      var head := if InWindow(s[0], t) then [s[0]] else [];
      RecentRecent(s[1..], t, c);
      RecentAppend(head, Recent(s[1..], t), c);
    }
  }

  /** `Math.min(...s)` of a non-empty list. */
  function Oldest(s: seq<int>): (m: int)
    requires |s| > 0
    ensures m in s
    ensures forall t :: t in s ==> m <= t
  {
    if |s| == 1 then s[0]
    else
      var m := Oldest(s[1..]);
      assert forall t :: t in s ==> t == s[0] || t in s[1..];
      if s[0] <= m then s[0] else m
  }

  /** `songAdditionStore.get(userId) || []`. */
  function Lookup(store: Store, userId: string): seq<int> {
    if userId in store then store[userId] else []
  }

  /** What the middleware attaches as `res.locals.rateLimit` on admission. */
  datatype Quota = Quota(songsAdded: nat, remaining: int, resetTime: int)

  /** How one request leaves the middleware. */
  datatype Outcome =
    | Bypass                  // admin: next() straight away
    | AuthRequired            // 401 { error: 'Authentication required' }
    | Limited(message: string, songsAdded: nat, resetTime: int)
                              // 429 { error: 'Rate limit exceeded', message, songsAdded, resetTime }
    | Admitted(quota: Quota)  // res.locals.rateLimit = quota; next()
  {
    predicate CallsNext() {
      Bypass? || Admitted?
    }

    function StatusCode(): int
      requires !CallsNext()
    {
      if AuthRequired? then 401 else 429
    }

    function ErrorText(): string
      requires !CallsNext()
    {
      if AuthRequired? then "Authentication required" else "Rate limit exceeded"
    }
  }

  /** `Math.ceil((resetTime - now) / 60000)`, the minutes quoted to a rejected user. */
  function MinutesUntil(resetTime: int, now: int): int {
    Numbers.CeilDiv(resetTime - now, 60000)
  }

  function LimitMessage(resetTime: int, now: int): string {
    "You can add another song in " + Numbers.IntToString(MinutesUntil(resetTime, now)) + " minutes"
  }

  datatype GuardResult = GuardResult(outcome: Outcome, store: Store)

  /** One run of `songAdditionRateLimit` for a request whose session has `isAdmin`
      and `userId`, at time `now`: the response and the table afterwards. */
  function Guard(store: Store, isAdmin: bool, userId: string, now: int): (r: GuardResult)
    // admins and anonymous requests leave the table alone
    ensures isAdmin ==> r == GuardResult(Bypass, store)
    ensures !isAdmin && userId == "" ==> r == GuardResult(AuthRequired, store)
    // the request goes on exactly when it is an admin's or the user has fewer than three recent songs
    ensures r.outcome.CallsNext() <==>
              isAdmin || (userId != "" && |Recent(Lookup(store, userId), now)| < MaxSongs)
    // a rejection never writes
    ensures !r.outcome.Admitted? ==> r.store == store
    // only the caller's entry can change
    ensures forall v :: v != userId ==> Lookup(r.store, v) == Lookup(store, v)
    ensures r.store.Keys <= store.Keys + {userId}
    ensures r.outcome.Limited? ==>
              var recent := Recent(Lookup(store, userId), now);
              && r.outcome.songsAdded == |recent| >= MaxSongs
              && r.outcome.resetTime - WindowMs in recent
              && (forall t :: t in recent ==> r.outcome.resetTime - WindowMs <= t)
              && now < r.outcome.resetTime
              && MinutesUntil(r.outcome.resetTime, now) >= 1
              && r.outcome.message == LimitMessage(r.outcome.resetTime, now)
    ensures r.outcome.Admitted? ==>
              var recent := Recent(Lookup(store, userId), now);
              && r.store == store[userId := recent + [now]]
              && |r.store[userId]| <= MaxSongs
              && r.outcome.quota == Quota(|recent| + 1, MaxSongs - (|recent| + 1), now + WindowMs)
              && 0 <= r.outcome.quota.remaining < MaxSongs
  {
    if isAdmin then GuardResult(Bypass, store)
    else if userId == "" then GuardResult(AuthRequired, store)
    else
      var recent := Recent(Lookup(store, userId), now);
      var outcome := Decide(recent, now);
      GuardResult(outcome, if outcome.Admitted? then store[userId := recent + [now]] else store)
  }

  /** The answer to a signed-in guest whose admissions still counting at `now` are `recent`. */
  function Decide(recent: seq<int>, now: int): (o: Outcome)
    requires forall t :: t in recent ==> InWindow(t, now)
    ensures o.Admitted? <==> |recent| < MaxSongs
    ensures o.Limited? || o.Admitted?
  {
    if |recent| >= MaxSongs then
      var oldest := Oldest(recent);
      var resetTime := oldest + WindowMs;
      Limited(LimitMessage(resetTime, now), |recent|, resetTime)
    else
      Admitted(Quota(|recent| + 1, MaxSongs - (|recent| + 1), now + WindowMs))
  }

  /** The table after the periodic clean-up at `now`. */
  function Swept(store: Store, now: int): (r: Store)
    // everything expired is dropped (SweepKeepsLive: nothing else is)
    ensures forall u, t :: u in r && t in r[u] ==> InWindow(t, now)
    // no user is added and no user is left with an empty list
    ensures r.Keys <= store.Keys
    ensures forall u :: u in r ==> r[u] != []
    ensures forall u :: u in r ==> |r[u]| <= |store[u]|
  {
    map u | u in store && Recent(store[u], now) != [] :: Recent(store[u], now)
  }

  /** The sweep never drops an admission that still counts, for any user. */
  lemma SweepKeepsLive(store: Store, now: int, u: string, t: int)
    requires u in store && InWindow(t, now)
    ensures multiset(Lookup(Swept(store, now), u))[t] == multiset(store[u])[t]
  {
    RecentCounts(store[u], now);
  }

  /** What the sweep leaves for a user is that user's list filtered at the sweep's time
      (an absent entry reads as the empty list). */
  lemma SweptLookup(store: Store, now: int, u: string)
    ensures Lookup(Swept(store, now), u) == Recent(Lookup(store, u), now)
  {
  }

  /** A sweep at `sweptAt` changes no later decision of the middleware: it only
      drops what the middleware would have ignored anyway. */
  lemma SweepPreservesDecisions(store: Store, sweptAt: int, isAdmin: bool, userId: string, now: int)
    requires sweptAt <= now
    ensures Guard(Swept(store, sweptAt), isAdmin, userId, now).outcome
         == Guard(store, isAdmin, userId, now).outcome
  {
    var before := Lookup(store, userId);
    var after := Lookup(Swept(store, sweptAt), userId);
    SweptLookup(store, sweptAt, userId);
    RecentRecent(before, sweptAt, now);
    assert Recent(after, now) == Recent(before, now);
    if !isAdmin && userId != "" {
      assert Guard(store, isAdmin, userId, now).outcome == Decide(Recent(before, now), now);
    }
  }

  /** The module-level `songAdditionStore` with the middleware and the sweep. */
  lemma {:induction false} RecentAllLive(s: seq<int>, now: int)
    requires forall t :: t in s ==> InWindow(t, now)
    ensures Recent(s, now) == s
  {
    if s != [] {
      RecentAllLive(s[1..], now);
      assert s == [s[0]] + s[1..];
    }
  }

  /** A guest whose stored admissions all still count and number fewer than three
      is admitted, and `now` is appended to them. */
  lemma AdmitWhileRoom(store: Store, userId: string, now: int)
    requires userId != ""
    requires forall t :: t in Lookup(store, userId) ==> InWindow(t, now)
    requires |Lookup(store, userId)| < MaxSongs
    ensures var prior := Lookup(store, userId);
            Guard(store, false, userId, now) ==
              GuardResult(Admitted(Quota(|prior| + 1, MaxSongs - (|prior| + 1), now + WindowMs)),
                          store[userId := prior + [now]])
  {
    RecentAllLive(Lookup(store, userId), now);
  }

  /** Three requests at the same instant are all admitted and all recorded. */
  lemma ThreeAtOnceAdmitted()
    ensures var s1 := Guard(map[], false, "guest", 0).store;
            var s2 := Guard(s1, false, "guest", 0).store;
            Guard(s2, false, "guest", 0).store == map["guest" := [0, 0, 0]]
  {
    AdmitWhileRoom(map[], "guest", 0);
    var s1 := Guard(map[], false, "guest", 0).store;
    assert Lookup(map[], "guest") + [0] == [0];
    assert s1 == map["guest" := [0]];
    AdmitWhileRoom(s1, "guest", 0);
    var s2 := Guard(s1, false, "guest", 0).store;
    assert [0] + [0] == [0, 0];
    assert s2 == map["guest" := [0, 0]];
    AdmitWhileRoom(s2, "guest", 0);
    assert [0, 0] + [0] == [0, 0, 0];
  }

  lemma SixtyMinutesText()
    ensures LimitMessage(WindowMs, 0) == "You can add another song in 60 minutes"
  {
    assert MinutesUntil(WindowMs, 0) == 60;
    assert Numbers.NatToString(6) == "6";
    assert Numbers.NatToString(60) == Numbers.NatToString(6) + [Numbers.DigitChar(0)];
  }

  /** A fourth request at that instant is refused until the hour is over. */
  lemma FourthAtOnceLimited()
    ensures Guard(map["guest" := [0, 0, 0]], false, "guest", 0).outcome ==
              Limited("You can add another song in 60 minutes", 3, WindowMs)
  {
    RecentAllLive([0, 0, 0], 0);
    assert Oldest([0, 0, 0]) == 0;
    SixtyMinutesText();
  }

  /** One millisecond after the hour, the guest starts over with one song counted
      and two to go. */
  lemma AdmittedAfterTheHour()
    ensures Guard(map["guest" := [0, 0, 0]], false, "guest", WindowMs + 1).outcome ==
              Admitted(Quota(1, 2, 2 * WindowMs + 1))
  {
    assert Recent([0, 0, 0], WindowMs + 1) == [] by {
      assert [0, 0, 0][1..] == [0, 0];
      assert [0, 0][1..] == [0];
      assert Recent([0], WindowMs + 1) == [];
    }
  }

  class SongAdditionLimiter {
    var store: Store

    /** Every stored list is non-empty and holds at most three admissions. */
    ghost predicate Valid()
      reads this
    {
      forall u :: u in store ==> 0 < |store[u]| <= MaxSongs
    }

    constructor ()
      ensures Valid() && store == map[]
    {
      store := map[];
    }

    /** `songAdditionRateLimit(req, res, next)` at time `now`. */
    method Check(session: Session, now: int) returns (outcome: Outcome)
      requires Valid()
      modifies this
      ensures Valid()
      ensures var r := Guard(old(store), session.isAdmin, session.userId, now);
              outcome == r.outcome && store == r.store
    {
      ghost var expected := Guard(store, session.isAdmin, session.userId, now);
      if session.isAdmin {
        return Bypass;
      }
      var userId := session.userId;
      if userId == "" {
        return AuthRequired;
      }
      var userAdditions := if userId in store then store[userId] else [];
      var recentAdditions := Recent(userAdditions, now);
      if |recentAdditions| >= MaxSongs {
        var resetTime := Oldest(recentAdditions) + WindowMs;
        outcome := Limited(LimitMessage(resetTime, now), |recentAdditions|, resetTime);
        assert expected == GuardResult(outcome, store);
        return;
      }
      recentAdditions := recentAdditions + [now];
      store := store[userId := recentAdditions];
      outcome := Admitted(Quota(|recentAdditions|, MaxSongs - |recentAdditions|, now + WindowMs));
      assert expected == GuardResult(outcome, store);
    }

    /** The body of the `setInterval` callback, run at `now`: walk every entry,
        delete it when nothing in it still counts, otherwise keep only what counts. */
    method Sweep(now: int)
      requires Valid()
      modifies this
      ensures Valid()
      ensures store == Swept(old(store), now)
    {
      ghost var target := map u | u in store && Recent(store[u], now) != [] :: Recent(store[u], now);
      var pending := store.Keys;
      while pending != {}
        invariant Valid()
        invariant pending <= old(store).Keys
        invariant store.Keys <= old(store).Keys
        invariant forall u :: u in pending ==> u in store && store[u] == old(store)[u]
        invariant forall u :: u in old(store) && u !in pending ==>
                    (u in store <==> u in target) && (u in store ==> store[u] == target[u])
        decreases pending
      {
        var userId :| userId in pending;
        var filteredEntries := Recent(store[userId], now);
        assert userId in target <==> filteredEntries != [];
        assert userId in target ==> target[userId] == filteredEntries;
        ghost var before := store;
        if |filteredEntries| == 0 {
          store := store - {userId};
        } else {
          store := store[userId := filteredEntries];
        }
        forall u | u in old(store) && u !in pending - {userId}
          ensures (u in store <==> u in target) && (u in store ==> store[u] == target[u])
        {
          if u != userId {
            assert u !in pending;
            assert u in store <==> u in before;
          }
        }
        pending := pending - {userId};
      }
      assert store == target;
    }
  }
}
