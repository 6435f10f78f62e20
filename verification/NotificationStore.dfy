/** The notification store: list, unread count, and the server-sent event stream with its
    reconnect timer, over every interleaving of actions and stream events. */
module NotificationStore {
  import opened Wrappers

  datatype Notification = Notification(id: string, read: bool)

  datatype Status = Connected | Reconnecting | Offline

  /** `open` are the event sources not yet closed, `nextSource` numbers the next one, and
      `reconnects` counts the reconnect timers still to fire. */
  datatype State = State(
    notifications: seq<Notification>,
    unreadCount: int,
    eventSource: Option<nat>,
    status: Status,
    open: set<nat>,
    nextSource: nat,
    reconnects: nat)

  /** Results of service calls and incoming data are part of the event; `None` is a failure. */
  datatype Event =
    | Fetched(result: Option<(seq<Notification>, int)>)
    | MarkedAsRead(id: string, ok: bool)
    | MarkedAllAsRead(ok: bool)
    | Cleared(ok: bool)
    | Start(token: bool)
    | Stop
    | Opened(source: nat)
    | Received(source: nat, notification: Option<Notification>)
    | Failed(source: nat)
    | ReconnectTimer(token: bool)

  function Unread(ns: seq<Notification>): nat {
    if ns == [] then 0 else (if ns[0].read then 0 else 1) + Unread(ns[1..])
  }

  function MarkRead(ns: seq<Notification>, id: string): seq<Notification> {
    seq(|ns|, i requires 0 <= i < |ns| => if ns[i].id == id then ns[i].(read := true) else ns[i])
  }

  function MarkAllRead(ns: seq<Notification>): seq<Notification> {
    seq(|ns|, i requires 0 <= i < |ns| => ns[i].(read := true))
  }

  predicate Contains(ns: seq<Notification>, id: string) {
    exists i :: 0 <= i < |ns| && ns[i].id == id
  }

  function Started(s: State, token: bool): State {
    if s.eventSource.Some? || !token then s
    else s.(eventSource := Some(s.nextSource), open := s.open + {s.nextSource}, nextSource := s.nextSource + 1)
  }

  function Step(s: State, e: Event): State {
    match e
    case Fetched(result) =>
      if result.None? then s else s.(notifications := result.value.0, unreadCount := result.value.1)
    case MarkedAsRead(id, ok) =>
      if !ok then s
      else s.(notifications := MarkRead(s.notifications, id), unreadCount := Unread(MarkRead(s.notifications, id)))
    case MarkedAllAsRead(ok) =>
      if !ok then s else s.(notifications := MarkAllRead(s.notifications), unreadCount := 0)
    case Cleared(ok) => if !ok then s else s.(notifications := [], unreadCount := 0)
    case Start(token) => Started(s, token)
    case Stop =>
      if s.eventSource.None? then s
      else s.(open := s.open - {s.eventSource.value}, eventSource := None, status := Offline)
    case Opened(_) => s.(status := Connected)
    case Received(_, n) =>
      if n.None? || Contains(s.notifications, n.value.id) then s
      else s.(notifications := [n.value] + s.notifications, unreadCount := Unread([n.value] + s.notifications))
    case Failed(source) =>
      s.(open := s.open - {source}, eventSource := None, status := Reconnecting, reconnects := s.reconnects + 1)
    case ReconnectTimer(token) =>
      var fired := s.(reconnects := if s.reconnects > 0 then s.reconnects - 1 else 0);
      if token && s.eventSource.None? then Started(fired, token) else fired
  }

  class Store {
    var notifications: seq<Notification>
    var unreadCount: int
    var eventSource: Option<nat>
    var status: Status
    var open: set<nat>
    var nextSource: nat
    var reconnects: nat

    function View(): State
      reads this
    {
      State(notifications, unreadCount, eventSource, status, open, nextSource, reconnects)
    }

    constructor (status: Status)
      ensures View() == State([], 0, None, status, {}, 0, 0)
    {
      notifications, unreadCount, eventSource := [], 0, None;
      this.status := status;
      open, nextSource, reconnects := {}, 0, 0;
    }

    method CountUnread(ns: seq<Notification>) returns (n: nat)
      ensures n == Unread(ns)
    {
      n := 0;
      var i := |ns|;
      while i > 0
        invariant 0 <= i <= |ns|
        invariant n == Unread(ns[i..])
      {
        i := i - 1;
        if !ns[i].read { n := n + 1; }
      }
    }

    method FetchNotifications(result: Option<(seq<Notification>, int)>)
      modifies this
      ensures View() == Step(old(View()), Fetched(result))
    {
      if result.None? { return; }
      notifications := result.value.0;
      unreadCount := result.value.1;
    }

    method MarkAsRead(id: string, ok: bool)
      modifies this
      ensures View() == Step(old(View()), MarkedAsRead(id, ok))
    {
      if !ok { return; }
      notifications := MarkRead(notifications, id);
      unreadCount := CountUnread(notifications);
    }

    method MarkAllAsRead(ok: bool)
      modifies this
      ensures View() == Step(old(View()), MarkedAllAsRead(ok))
    {
      if !ok { return; }
      notifications := MarkAllRead(notifications);
      unreadCount := 0;
    }

    method ClearNotifications(ok: bool)
      modifies this
      ensures View() == Step(old(View()), Cleared(ok))
    {
      if !ok { return; }
      notifications, unreadCount := [], 0;
    }

    method StartStream(token: bool)
      modifies this
      ensures View() == Step(old(View()), Start(token))
    {
      if eventSource.Some? { return; }
      if !token { return; }
      var es := nextSource;
      nextSource := nextSource + 1;
      open := open + {es};
      eventSource := Some(es);
    }

    method OnOpen(source: nat)
      modifies this
      ensures View() == Step(old(View()), Opened(source))
    {
      status := Connected;
    }

    /** An incoming notification; data that does not parse is ignored. */
    method OnNotification(source: nat, n: Option<Notification>)
      modifies this
      ensures View() == Step(old(View()), Received(source, n))
    {
      if n.None? { return; }
      var i := 0;
      while i < |notifications|
        invariant 0 <= i <= |notifications|
        invariant forall j :: 0 <= j < i ==> notifications[j].id != n.value.id
        invariant View() == old(View())
      {
        if notifications[i].id == n.value.id { return; }
        i := i + 1;
      }
      notifications := [n.value] + notifications;
      unreadCount := CountUnread(notifications);
    }

    /** The error handler up to the moment it arms the reconnect timer. */
    method OnError(source: nat)
      modifies this
      ensures View() == Step(old(View()), Failed(source))
    {
      open := open - {source};
      eventSource := None;
      status := Reconnecting;
      reconnects := reconnects + 1;
    }

    method OnReconnectTimer(token: bool)
      modifies this
      ensures View() == Step(old(View()), ReconnectTimer(token))
    {
      reconnects := if reconnects > 0 then reconnects - 1 else 0;
      if token && eventSource.None? {
        StartStream(token);
      }
    }

    method StopStream()
      modifies this
      ensures View() == Step(old(View()), Stop)
    {
      if eventSource.Some? {
        open := open - {eventSource.value};
        eventSource := None;
        status := Offline;
      }
    }
  }

  // ----- Invariants over every run ----------------------------------------------------------

  predicate Distinct(ns: seq<Notification>) {
    forall i, j :: 0 <= i < j < |ns| ==> ns[i].id != ns[j].id
  }

  predicate ListOk(ns: seq<Notification>, unread: int) {
    Distinct(ns) && unread == Unread(ns)
  }

  /** At most one event source is open, and it is the one in the store; and once a source was
      started, the status shows a connection only while one is in the store. */
  predicate StreamOk(s: State) {
    && (s.eventSource.None? && s.nextSource > 0 ==> s.status != Connected)
    && s.open == (if s.eventSource.Some? then {s.eventSource.value} else {})
    && forall es :: es in s.open ==> es < s.nextSource
  }

  /** What the browser and the server grant: a closed event source delivers nothing any more,
      and a fetched list has distinct ids and the right count. */
  predicate Possible(s: State, e: Event) {
    match e
    case Fetched(result) => result.Some? ==> ListOk(result.value.0, result.value.1)
    case Opened(source) => source in s.open
    case Received(source, _) => source in s.open
    case Failed(source) => source in s.open
    case ReconnectTimer(_) => s.reconnects > 0
    case _ => true
  }

  predicate PossibleRun(s: State, events: seq<Event>)
    decreases |events|
  {
    events == [] || (Possible(s, events[0]) && PossibleRun(Step(s, events[0]), events[1..]))
  }

  function Run(s: State, events: seq<Event>): State
    decreases |events|
  {
    if events == [] then s else Run(Step(s, events[0]), events[1..])
  }

  lemma {:induction false} AllReadMeansNoneUnread(ns: seq<Notification>)
    requires forall i :: 0 <= i < |ns| ==> ns[i].read
    ensures Unread(ns) == 0
  {
    if ns != [] { AllReadMeansNoneUnread(ns[1..]); }
  }

  lemma StepKeepsInvariants(s: State, e: Event)
    requires StreamOk(s) && ListOk(s.notifications, s.unreadCount) && Possible(s, e)
    ensures StreamOk(Step(s, e)) && ListOk(Step(s, e).notifications, Step(s, e).unreadCount)
  {
    AllReadMeansNoneUnread(MarkAllRead(s.notifications));
  }

  /** Over every interleaving at most one event source is open and it is the one in the store,
      ids stay distinct, and the unread count is the number of unread entries. */
  lemma {:induction false} RunKeepsInvariants(s: State, events: seq<Event>)
    requires StreamOk(s) && ListOk(s.notifications, s.unreadCount) && PossibleRun(s, events)
    ensures StreamOk(Run(s, events)) && |Run(s, events).open| <= 1
    ensures Distinct(Run(s, events).notifications) && Run(s, events).unreadCount == Unread(Run(s, events).notifications)
    decreases |events|
  {
    if events != [] {
      StepKeepsInvariants(s, events[0]);
      RunKeepsInvariants(Step(s, events[0]), events[1..]);
    }
  }

  /** Marking one entry lowers the count by one exactly when that entry was there and unread. */
  lemma {:induction false} MarkReadCounts(ns: seq<Notification>, id: string)
    requires Distinct(ns)
    ensures Unread(MarkRead(ns, id))
         == Unread(ns) - (if exists i :: 0 <= i < |ns| && ns[i].id == id && !ns[i].read then 1 else 0)
  {
    if ns != [] {
      var tail := ns[1..];
      assert MarkRead(ns, id)[1..] == MarkRead(tail, id);
      MarkReadCounts(tail, id);
      assert forall i :: 0 <= i < |tail| ==> tail[i] == ns[i + 1];
      if exists i :: 0 <= i < |ns| && ns[i].id == id && !ns[i].read {
        var i :| 0 <= i < |ns| && ns[i].id == id && !ns[i].read;
        if i > 0 {
          assert tail[i - 1].id == id && !tail[i - 1].read && ns[0].id != id;
        } else {
          assert forall j :: 0 <= j < |tail| ==> tail[j].id != id;
        }
      }
    }
  }

  // ----- What a stop leaves behind --------------------------------------------------------------

  predicate NoStart(events: seq<Event>) {
    forall e :: e in events ==> !e.Start?
  }

  /** Nothing is open and no reconnect timer is still to fire. */
  predicate Silent(s: State) {
    s.eventSource.None? && s.open == {} && s.reconnects == 0
  }

  lemma {:induction false} SilentUntilStart(s: State, events: seq<Event>)
    requires Silent(s) && PossibleRun(s, events) && NoStart(events)
    ensures Silent(Run(s, events))
    decreases |events|
  {
    if events != [] {
      assert events[0] in events;
      SilentUntilStart(Step(s, events[0]), events[1..]);
    }
  }

  /** After a stop, no possible run without a new start ever opens an event source again, if and
      only if no reconnect timer was still to fire when the stop came. */
  lemma {:induction false} StopIsFinalExactlyWhen(s: State)
    requires StreamOk(s)
    ensures (forall events :: PossibleRun(Step(s, Stop), events) && NoStart(events) ==>
               Run(Step(s, Stop), events).open == {})
       <==> s.reconnects == 0
  {
    var stopped := Step(s, Stop);
    assert stopped.eventSource.None? && stopped.open == {};
    if s.reconnects == 0 {
      forall events | PossibleRun(stopped, events) && NoStart(events)
        ensures Run(stopped, events).open == {}
      {
        SilentUntilStart(stopped, events);
      }
    } else {
      var events := [ReconnectTimer(true)];
      assert events[1..] == [] && NoStart(events) && PossibleRun(Step(stopped, events[0]), []);
      assert PossibleRun(stopped, events);
      assert Run(stopped, events) == Step(stopped, events[0]);
      assert s.nextSource in Run(stopped, events).open;
    }
  }

  /** So an error just before the stop is enough: its reconnect survives the stop. */
  lemma {:induction false} StopDoesNotCancelReconnect(s: State, source: nat)
    requires StreamOk(s) && source in s.open
    ensures exists events ::
      PossibleRun(Step(Step(s, Failed(source)), Stop), events) && NoStart(events)
      && Run(Step(Step(s, Failed(source)), Stop), events).open != {}
  {
    StopIsFinalExactlyWhen(Step(s, Failed(source)));
  }

  // ----- The list is an inbox ------------------------------------------------------------------

  /** What a user sees: the ids, newest first, and which of them are unread. */
  datatype Inbox = Inbox(order: seq<string>, unread: set<string>)

  function Ids(ns: seq<Notification>): seq<string> {
    seq(|ns|, i requires 0 <= i < |ns| => ns[i].id)
  }

  function UnreadIds(ns: seq<Notification>): set<string> {
    set n | n in ns && !n.read :: n.id
  }

  function InboxOf(ns: seq<Notification>): Inbox {
    Inbox(Ids(ns), UnreadIds(ns))
  }

  /** Reading takes ids out of the unread ones and leaves the order; a new entry goes first, a known one
      changes nothing; nothing happens where the server call fails. */
  function InboxStep(inbox: Inbox, e: Event): Inbox {
    match e
    case Fetched(Some((ns, _))) => InboxOf(ns)
    case MarkedAsRead(id, true) => inbox.(unread := inbox.unread - {id})
    case MarkedAllAsRead(true) => inbox.(unread := {})
    case Cleared(true) => Inbox([], {})
    case Received(_, Some(n)) =>
      if n.id in inbox.order then inbox
      else Inbox([n.id] + inbox.order, if n.read then inbox.unread else inbox.unread + {n.id})
    case _ => inbox
  }

  lemma StepIsInboxStep(s: State, e: Event)
    ensures InboxOf(Step(s, e).notifications) == InboxStep(InboxOf(s.notifications), e)
  {
    var ns := s.notifications;
    match e {
      case MarkedAsRead(id, true) => MarkReadUnreads(ns, id);
      case MarkedAllAsRead(true) => MarkAllReadUnreads(ns);
      case Received(_, Some(n)) => ReceivedUnreads(ns, n);
      case Cleared(true) => assert InboxOf([]) == Inbox([], {});
      case _ =>
    }
  }

  lemma MarkReadUnreads(ns: seq<Notification>, id: string)
    ensures Ids(MarkRead(ns, id)) == Ids(ns)
    ensures UnreadIds(MarkRead(ns, id)) == UnreadIds(ns) - {id}
  {
    var after := MarkRead(ns, id);
    forall x | x in UnreadIds(ns) && x != id ensures x in UnreadIds(after) {
      var i :| 0 <= i < |ns| && !ns[i].read && ns[i].id == x;
      assert after[i] == ns[i] && after[i] in after;
    }
    forall x | x in UnreadIds(after) ensures x in UnreadIds(ns) && x != id {
      var i :| 0 <= i < |after| && !after[i].read && after[i].id == x;
      assert after[i] == ns[i] && ns[i] in ns;
    }
  }

  lemma MarkAllReadUnreads(ns: seq<Notification>)
    ensures Ids(MarkAllRead(ns)) == Ids(ns) && UnreadIds(MarkAllRead(ns)) == {}
  {
  }

  lemma ReceivedUnreads(ns: seq<Notification>, n: Notification)
    ensures Ids([n] + ns) == [n.id] + Ids(ns)
    ensures UnreadIds([n] + ns) == if n.read then UnreadIds(ns) else UnreadIds(ns) + {n.id}
    ensures Contains(ns, n.id) <==> n.id in Ids(ns)
  {
    if n.id in Ids(ns) {
      var i :| 0 <= i < |ns| && Ids(ns)[i] == n.id;
      assert ns[i].id == n.id;
    }
    if Contains(ns, n.id) {
      var i :| 0 <= i < |ns| && ns[i].id == n.id;
      assert Ids(ns)[i] == n.id;
    }
    forall m | m in [n] + ns ensures m == n || m in ns {
    }
    forall m | m in ns ensures m in [n] + ns {
      var i :| 0 <= i < |ns| && ns[i] == m;
      assert ([n] + ns)[i + 1] == m;
    }
    assert ([n] + ns)[0] == n;
  }

  // ----- What the stream does -------------------------------------------------------------------

  predicate ListEvent(e: Event) {
    e.Fetched? || e.MarkedAsRead? || e.MarkedAllAsRead? || e.Cleared? || e.Received?
  }

  /** The list events leave the stream alone and the others the list; the status is what the last of
      opening, error and an effective stop said; an error leaves one reconnect timer more, a timer that
      fires one less; a start and a timer open a source exactly when a token is stored and none is open. */
  lemma StreamLaws(s: State, e: Event)
    requires StreamOk(s) && Possible(s, e)
    ensures var after := Step(s, e);
      && (if ListEvent(e) then after == s.(notifications := after.notifications, unreadCount := after.unreadCount)
          else after.notifications == s.notifications && after.unreadCount == s.unreadCount)
      && after.status == (if e.Opened? then Connected else if e.Failed? then Reconnecting
                          else if e.Stop? && s.open != {} then Offline else s.status)
      && after.reconnects == s.reconnects + (if e.Failed? then 1 else 0) - (if e.ReconnectTimer? then 1 else 0)
      && after.nextSource == s.nextSource + |after.open - s.open|
      && (e.Start? || e.ReconnectTimer? ==> (after.open != s.open <==> e.token && s.open == {}))
      && (e.Stop? || e.Failed? ==> after.open == {})
  {
    match e {
      case Start(token) => OpenedOne(s, token);
      case ReconnectTimer(token) => OpenedOne(s, token);
      case _ => assert Step(s, e).open - s.open == {};
    }
  }

  lemma OpenedOne(s: State, token: bool)
    requires StreamOk(s)
    ensures var after := Started(s, token);
      if token && s.open == {} then after.open == {s.nextSource} && after.open - s.open == {s.nextSource} else after == s
  {
  }
}
