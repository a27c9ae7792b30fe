/** The reducers of the UI slice (frontend/src/redux/slices/uiSlice.js): theme,
    sidebar, current view, notifications and search box state. */
module UiSlice {
  import opened Wrappers

  /** A notification as stored; the source keys it by its creation time. */
  datatype Notification = Notification(id: int, message: string, kind: string)

  /** The payload of `addNotification`; `id` is None when the payload has no id
      field. */
  datatype NotificationPayload = NotificationPayload(id: Option<int>, message: string, kind: string)

  /** Search results as the search page stores them. */
  datatype SearchResults = SearchResults(trackIds: seq<string>)

  datatype UiState = UiState(
    theme: string,
    sidebarOpen: bool,
    activeView: string,
    notifications: seq<Notification>,
    searchQuery: string,
    searchResults: Option<SearchResults>,
    isLoading: bool)

  const Initial := UiState("default", false, "main", [], "", None, false)

  /** `{ id: now, ...payload }`: the payload's own id, when it has one, wins over
      the timestamp. */
  function NewNotification(payload: NotificationPayload, now: int): (n: Notification)
    ensures n.id == if payload.id.Some? then payload.id.value else now
    ensures n.message == payload.message && n.kind == payload.kind
  {
    Notification(if payload.id.Some? then payload.id.value else now, payload.message, payload.kind)
  }

  /** `notifications.filter(n => n.id !== id)`. */
  function WithoutNotification(ns: seq<Notification>, id: int): (r: seq<Notification>)
    ensures |r| <= |ns|
    ensures forall n :: n in r ==> n in ns && n.id != id
  {
    if ns == [] then []
    else (if ns[0].id == id then [] else [ns[0]]) + WithoutNotification(ns[1..], id)
  }

  /** Every notification with that id goes, every other one stays as often as it
      was there. */
  lemma {:induction false} WithoutNotificationCounts(ns: seq<Notification>, id: int, n: Notification)
    ensures multiset(WithoutNotification(ns, id))[n] == if n.id == id then 0 else multiset(ns)[n]
  {
    if ns != [] {
      WithoutNotificationCounts(ns[1..], id, n);
      assert ns == [ns[0]] + ns[1..];
    }
  }

  /** The notifications that stay keep their order: removing an id from a list
      that lacks it changes nothing, and removal distributes over concatenation. */
  lemma {:induction false} WithoutNotificationAppend(a: seq<Notification>, b: seq<Notification>, id: int)
    ensures WithoutNotification(a + b, id) == WithoutNotification(a, id) + WithoutNotification(b, id)
  {
    if a != [] {
      var head := if a[0].id == id then [] else [a[0]];
      var rest, tail := WithoutNotification(a[1..], id), WithoutNotification(b, id);
      assert WithoutNotification(a, id) == head + rest;
      assert (a + b)[0] == a[0] && (a + b)[1..] == a[1..] + b;
      assert WithoutNotification(a + b, id) == head + WithoutNotification(a[1..] + b, id);
      WithoutNotificationAppend(a[1..], b, id);
      assert head + (rest + tail) == (head + rest) + tail;
    } else {
      assert a + b == b;
    }
  }

  /** Dismissing a notification right after posting it under a fresh id leaves the
      list as it was. */
  lemma {:induction false} DismissUndoesPost(ns: seq<Notification>, payload: NotificationPayload, now: int)
    requires forall n :: n in ns ==> n.id != NewNotification(payload, now).id
    ensures WithoutNotification(ns + [NewNotification(payload, now)], NewNotification(payload, now).id) == ns
  {
    var posted := NewNotification(payload, now);
    WithoutNotificationAppend(ns, [posted], posted.id);
    WithoutAbsentNotification(ns, posted.id);
    assert WithoutNotification([posted], posted.id) == [];
  }

  lemma {:induction false} WithoutAbsentNotification(ns: seq<Notification>, id: int)
    requires forall n :: n in ns ==> n.id != id
    ensures WithoutNotification(ns, id) == ns
  {
    if ns != [] {
      WithoutAbsentNotification(ns[1..], id);
      assert ns == [ns[0]] + ns[1..];
    }
  }

  /** The slice's state, updated in place by its reducers. */
  class Ui {
    var theme: string
    var sidebarOpen: bool
    var activeView: string
    var notifications: seq<Notification>
    var searchQuery: string
    var searchResults: Option<SearchResults>
    var isLoading: bool

    function State(): UiState
      reads this
    {
      UiState(theme, sidebarOpen, activeView, notifications, searchQuery, searchResults, isLoading)
    }

    /** `initialState`. */
    constructor ()
      ensures State() == Initial
    {
      theme := "default";
      sidebarOpen := false;
      activeView := "main";
      notifications := [];
      searchQuery := "";
      searchResults := None;
      isLoading := false;
    }

    method SetTheme(t: string)
      modifies this
      ensures State() == old(State()).(theme := t)
    {
      theme := t;
    }

    /** `toggleSidebar`; two toggles in a row restore the sidebar. */
    method ToggleSidebar()
      modifies this
      ensures State() == old(State()).(sidebarOpen := !old(sidebarOpen))
    {
      sidebarOpen := !sidebarOpen;
    }

    method SetSidebarOpen(open: bool)
      modifies this
      ensures State() == old(State()).(sidebarOpen := open)
    {
      sidebarOpen := open;
    }

    method SetActiveView(view: string)
      modifies this
      ensures State() == old(State()).(activeView := view)
    {
      activeView := view;
    }

    /** `addNotification` at time `now`: one entry more, at the end. */
    method AddNotification(payload: NotificationPayload, now: int)
      modifies this
      ensures State() == old(State()).(notifications := old(notifications) + [NewNotification(payload, now)])
    {
      notifications := notifications + [NewNotification(payload, now)];
    }

    /** `removeNotification`. */
    method RemoveNotification(id: int)
      modifies this
      ensures State() == old(State()).(notifications := WithoutNotification(old(notifications), id))
    {
      notifications := WithoutNotification(notifications, id);
    }

    method ClearNotifications()
      modifies this
      ensures State() == old(State()).(notifications := [])
    {
      notifications := [];
    }

    method SetSearchQuery(query: string)
      modifies this
      ensures State() == old(State()).(searchQuery := query)
    {
      searchQuery := query;
    }

    method SetSearchResults(results: Option<SearchResults>)
      modifies this
      ensures State() == old(State()).(searchResults := results)
    {
      searchResults := results;
    }

    method ClearSearchResults()
      modifies this
      ensures State() == old(State()).(searchResults := None)
    {
      searchResults := None;
    }

    method SetIsLoading(loading: bool)
      modifies this
      ensures State() == old(State()).(isLoading := loading)
    {
      isLoading := loading;
    }
  }

  /** A property of the `toggleSidebar` reducer, not an operation of the slice:
      toggling the sidebar twice restores the state it started from. */
  method ToggleSidebarTwice(ui: Ui)
    modifies ui
    ensures ui.State() == old(ui.State())
  {
    ui.ToggleSidebar();
    ui.ToggleSidebar();
  }
}
