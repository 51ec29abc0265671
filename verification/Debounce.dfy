/**
 The debounce timer: every event on the bus restarts a timer, and only a timer that is not
 restarted asks for a rescan.  A producer sends requests over a channel to a worker that keeps
 the pending timers and the set of those to ignore.
 */
module Debounce {
  import opened Units

  datatype Action = Schedule(item: Item) | Ignore(id: nat)

  datatype Item = Item(id: nat, when: nat)

  const WORD: nat := 0x1_0000_0000_0000_0000

  // ---------- the worker ----------

  /** The pending timers, in no particular order, and the ones to ignore. */
  datatype Worker = Worker(schedule: seq<Item>, ignore: set<nat>)

  predicate Scheduled(schedule: seq<Item>, id: nat) {
    exists k :: 0 <= k < |schedule| && schedule[k].id == id
  }

  function Drain(w: Worker, action: Action): Worker {
    match action
    case Schedule(item) => w.(schedule := w.schedule + [item])
    case Ignore(id) => if Scheduled(w.schedule, id) then w.(ignore := w.ignore + {id}) else w
  }

  function DrainAll(w: Worker, actions: seq<Action>): Worker {
    if actions == [] then w else Drain(DrainAll(w, actions[..|actions| - 1]), actions[|actions| - 1])
  }

  /** No pending timer is due before the k-th. */
  predicate Top(schedule: seq<Item>, k: int) {
    0 <= k < |schedule| && forall j :: 0 <= j < |schedule| ==> schedule[k].when <= schedule[j].when
  }

  function RemoveAt(q: seq<Item>, k: nat): (r: seq<Item>)
    requires k < |q|
    ensures |r| == |q| - 1
    ensures forall j {:trigger r[j]} :: 0 <= j < |r| ==> r[j] == q[if j < k then j else j + 1]
  {
    q[..k] + q[k + 1..]
  }

  /** Take the k-th timer out; it fires unless it is to be ignored. */
  function Pop(w: Worker, k: nat): Worker
    requires k < |w.schedule|
  {
    Worker(RemoveAt(w.schedule, k), w.ignore - {w.schedule[k].id})
  }

  predicate Fires(w: Worker, k: nat)
    requires k < |w.schedule|
  {
    w.schedule[k].id !in w.ignore
  }

  class ScheduleWorker {
    var schedule: seq<Item>
    var ignore: set<nat>

    ghost function View(): Worker
      reads this
    {
      Worker(schedule, ignore)
    }

    constructor ()
      ensures View() == Worker([], {})
    {
      schedule, ignore := [], {};
    }

    /** Take over every request that is waiting. */
    method DrainRequestQueue(requests: seq<Action>)
      modifies this
      ensures View() == DrainAll(old(View()), requests)
    {
      ghost var w := View();
      for i := 0 to |requests|
        invariant View() == DrainAll(w, requests[..i])
      {
        assert requests[..i + 1][..i] == requests[..i];
        match requests[i] {
          case Schedule(item) => schedule := schedule + [item];
          case Ignore(id) =>
            for k := 0 to |schedule|
              invariant View() == DrainAll(w, requests[..i])
              invariant forall j :: 0 <= j < k ==> schedule[j].id != id
            {
              if schedule[k].id == id {
                ignore := ignore + {id};
                break;
              }
            }
        }
      }
      assert requests[..|requests|] == requests;
    }

    /** The place of a timer that is due first; ties go either way. */
    method Peek() returns (top: Option<nat>)
      ensures top.None? <==> schedule == []
      ensures top.Some? ==> Top(schedule, top.value)
    {
      if schedule == [] {
        return None;
      }
      var best := 0;
      for k := 1 to |schedule|
        invariant 0 <= best < k
        invariant forall j :: 0 <= j < k ==> schedule[best].when <= schedule[j].when
      {
        if schedule[k].when < schedule[best].when {
          best := k;
        }
      }
      return Some(best);
    }

    /** Whether some pending timer is due. */
    method HasEventNow(now: nat) returns (due: bool)
      ensures due <==> exists k :: 0 <= k < |schedule| && schedule[k].when <= now
    {
      var top := Peek();
      due := top.Some? && schedule[top.value].when <= now;
    }

    /** Take out the timer that is due first, and ask for a rescan unless it is ignored. */
    method FireEvent() returns (fired: Option<nat>)
      modifies this
      ensures old(schedule) == [] ==> fired.None? && View() == old(View())
      ensures old(schedule) != [] ==>
                exists k: nat :: Top(old(schedule), k)
                  && View() == Pop(old(View()), k)
                  && fired == if Fires(old(View()), k) then Some(old(schedule)[k].id) else None
    {
      var top := Peek();
      fired := None;
      if top.Some? {
        var k := top.value;
        ghost var was := View();
        var item := schedule[k];
        schedule := schedule[..k] + schedule[k + 1..];
        if item.id !in ignore {
          fired := Some(item.id);
        }
        ignore := ignore - {item.id};
        assert View() == Pop(was, k);
      }
    }
  }

  // ---------- the producer ----------

  class Quiesce {
    var timerId: Option<nat>
    var counter: nat
    const delay: nat

    constructor (delay: nat)
      ensures timerId == None && counter == 0 && this.delay == delay
    {
      this.timerId, this.counter, this.delay := None, 0, delay;
    }

    /** Every event but those about rescans restarts the timer. */
    method ProcessMessage(aboutRescan: bool, now: nat) returns (sent: seq<Action>)
      modifies this
      ensures Producer(timerId, counter, sent) == Restart(old(timerId), old(counter), delay, aboutRescan, now)
    {
      sent := [];
      if aboutRescan {
        return;
      }
      if timerId.Some? {
        sent := sent + [Ignore(timerId.value)];
      }
      counter := (counter + 1) % WORD;
      sent := sent + [Schedule(Item(counter, now + delay))];
      timerId := Some(counter);
    }
  }

  datatype Producer = Producer(timerId: Option<nat>, counter: nat, sent: seq<Action>)

  function Restart(timerId: Option<nat>, counter: nat, delay: nat, aboutRescan: bool, now: nat): Producer {
    if aboutRescan then Producer(timerId, counter, [])
    else
      var next := (counter + 1) % WORD;
      Producer(Some(next), next,
               (if timerId.Some? then [Ignore(timerId.value)] else []) + [Schedule(Item(next, now + delay))])
  }

  // ---------- both together ----------

  /** A timer the worker has handled: when, after how many requests, and whether it fired. */
  datatype Outcome = Outcome(item: Item, at: nat, taken: nat, fired: bool)

  datatype Timer = Timer(
    timerId: Option<nat>,
    counter: nat,
    channel: seq<Action>,
    worker: Worker,
    now: nat,
    taken: nat,                // requests the worker has taken from the channel
    handled: seq<Outcome>)

  datatype Event =
    | Message(aboutRescan: bool, at: nat)   // the producer handles a bus event
    | Take                                  // the worker takes one request from the channel
    | Fire(k: nat, at: nat)                 // the worker handles the k-th timer, if it is due first

  const Start := Timer(None, 0, [], Worker([], {}), 0, 0, [])

  function Later(now: nat, at: nat): nat { if at < now then now else at }

  /** One step of either side; the clock never goes backwards. */
  function TimerStep(t: Timer, delay: nat, e: Event): Timer {
    match e
    case Message(aboutRescan, at) =>
      var now := Later(t.now, at);
      var pr := Restart(t.timerId, t.counter, delay, aboutRescan, now);
      t.(now := now, timerId := pr.timerId, counter := pr.counter, channel := t.channel + pr.sent)
    case Take =>
      if t.channel == [] then t
      else t.(channel := t.channel[1..], worker := Drain(t.worker, t.channel[0]), taken := t.taken + 1)
    case Fire(k, at) =>
      var now := Later(t.now, at);
      if !Top(t.worker.schedule, k) || t.worker.schedule[k].when > now then t.(now := now)
      else
        t.(now := now, worker := Pop(t.worker, k),
           handled := t.handled + [Outcome(t.worker.schedule[k], now, t.taken, Fires(t.worker, k))])
  }

  function History(delay: nat, events: seq<Event>): Timer {
    if events == [] then Start
    else TimerStep(History(delay, events[..|events| - 1]), delay, events[|events| - 1])
  }

  /** The worker takes n requests, one after the other. */
  function Takes(t: Timer, delay: nat, n: nat): Timer {
    if n == 0 then t else TimerStep(Takes(t, delay, n - 1), delay, Take)
  }

  /** Draining the channel is the same as taking its requests one by one. */
  lemma {:induction false} DrainIsTakes(t: Timer, delay: nat, n: nat)
    requires n <= |t.channel|
    ensures Takes(t, delay, n) == t.(channel := t.channel[n..], worker := DrainAll(t.worker, t.channel[..n]), taken := t.taken + n)
  {
    if n > 0 {
      DrainIsTakes(t, delay, n - 1);
      assert t.channel[..n][..n - 1] == t.channel[..n - 1];
    }
  }

  // ---------- what holds at every moment ----------

  /** How many timers, and how many requests to ignore one, are among the first n requests. */
  function Schedules(n: nat): nat { (n + 1) / 2 }
  function Ignores(n: nat): nat { n / 2 }

  /** The requests come in the order Schedule(1), Ignore(1), Schedule(2), Ignore(2), ... */
  ghost predicate InOrder(action: Action, n: nat, latest: nat) {
    if n % 2 == 0 then action.Schedule? && action.item.id == Schedules(n + 1) && action.item.when <= latest
    else action == Ignore(Ignores(n + 1))
  }

  /** What was sent, and how much of it the worker has taken. */
  ghost predicate ChannelOk(t: Timer, delay: nat) {
    && t.counter < WORD
    && t.timerId == (if t.counter == 0 then None else Some(t.counter))
    && t.taken + |t.channel| == (if t.counter == 0 then 0 else 2 * t.counter - 1)
    && (forall x :: 0 <= x < |t.channel| ==> InOrder(t.channel[x], t.taken + x, t.now + delay))
  }

  ghost predicate PendingOk(t: Timer) {
    var q := t.worker.schedule;
    && (forall k :: 0 <= k < |q| ==> 1 <= q[k].id <= Schedules(t.taken))
    && (forall j, k :: 0 <= j < k < |q| ==> q[j].id != q[k].id)
    && (forall k :: 0 <= k < |q| ==> (q[k].id in t.worker.ignore <==> q[k].id <= Ignores(t.taken)))
    && (forall id :: id in t.worker.ignore ==> Scheduled(q, id))
  }

  ghost predicate HandledOk(t: Timer) {
    var q := t.worker.schedule;
    && |t.handled| + |q| == Schedules(t.taken)
    && (forall x :: 0 <= x < |t.handled| ==> OutcomeOk(t.handled[x], t.taken))
    && (forall x, y :: 0 <= x < y < |t.handled| ==> t.handled[x].item.id != t.handled[y].item.id)
    && (forall x, k :: 0 <= x < |t.handled| && 0 <= k < |q| ==> t.handled[x].item.id != q[k].id)
    && (forall id :: 1 <= id <= Schedules(t.taken) ==> Scheduled(q, id) || Handled(t.handled, id))
  }

  /** It was due, and fired exactly if the request to ignore it had not been taken. */
  ghost predicate OutcomeOk(o: Outcome, taken: nat) {
    && o.taken <= taken
    && 1 <= o.item.id <= Schedules(o.taken)
    && o.item.when <= o.at
    && (o.fired <==> o.item.id > Ignores(o.taken))
  }

  ghost predicate Handled(handled: seq<Outcome>, id: nat) {
    exists x :: 0 <= x < |handled| && handled[x].item.id == id
  }

  ghost predicate Valid(t: Timer, delay: nat) {
    ChannelOk(t, delay) && PendingOk(t) && HandledOk(t)
  }

  lemma MessageKeeps(t: Timer, delay: nat, e: Event)
    requires Valid(t, delay) && e.Message? && t.counter + 1 < WORD
    ensures Valid(TimerStep(t, delay, e), delay)
  {
    hide PendingOk, HandledOk;
    var n := TimerStep(t, delay, e);
    assert PendingOk(n) && HandledOk(n) by { SameWorker(t, n); }
  }

  lemma SameWorker(t: Timer, n: Timer)
    requires PendingOk(t) && HandledOk(t)
    requires n.worker == t.worker && n.taken == t.taken && n.handled == t.handled
    ensures PendingOk(n) && HandledOk(n)
  {
  }

  lemma TakeKeeps(t: Timer, delay: nat)
    requires Valid(t, delay)
    ensures Valid(TimerStep(t, delay, Take), delay)
  {
    if t.channel != [] {
      var n := TimerStep(t, delay, Take);
      assert InOrder(t.channel[0], t.taken, t.now + delay);
      hide PendingOk, HandledOk;
      assert forall x :: 0 <= x < |n.channel| ==> n.channel[x] == t.channel[x + 1];
      if t.taken % 2 == 0 {
        TakeSchedule(t, n, t.channel[0].item);
      } else {
        TakeIgnore(t, n, Ignores(t.taken + 1));
      }
    }
  }

  /** A new timer joins the pending ones; it is the only one not ignored. */
  lemma TakeSchedule(t: Timer, n: Timer, item: Item)
    requires PendingOk(t) && HandledOk(t) && t.taken % 2 == 0 && item.id == Schedules(t.taken + 1)
    requires n.worker == Worker(t.worker.schedule + [item], t.worker.ignore) && n.taken == t.taken + 1 && n.handled == t.handled
    ensures PendingOk(n) && HandledOk(n)
  {
    ScheduledStays(t.worker.schedule, item);
    NewIsPending(t, n, item);
    NewIsUnhandled(t, n, item);
  }

  lemma ScheduledStays(q: seq<Item>, item: Item)
    ensures forall id :: Scheduled(q, id) ==> Scheduled(q + [item], id)
    ensures Scheduled(q + [item], item.id)
  {
    var q' := q + [item];
    assert q'[|q|] == item;
    forall id | Scheduled(q, id)
      ensures Scheduled(q', id)
    {
      var k :| 0 <= k < |q| && q[k].id == id;
      assert q'[k].id == id;
    }
  }

  lemma NewIsPending(t: Timer, n: Timer, item: Item)
    requires PendingOk(t) && t.taken % 2 == 0 && item.id == Schedules(t.taken + 1)
    requires n.worker == Worker(t.worker.schedule + [item], t.worker.ignore) && n.taken == t.taken + 1
    requires forall id :: Scheduled(t.worker.schedule, id) ==> Scheduled(n.worker.schedule, id)
    ensures PendingOk(n)
  {
    var q, q' := t.worker.schedule, n.worker.schedule;
    assert Ignores(n.taken) == Ignores(t.taken) && Schedules(n.taken) == Schedules(t.taken) + 1 == item.id;
    assert item.id !in t.worker.ignore;
    hide Scheduled, Schedules, Ignores;
    assert forall k {:trigger q'[k]} :: 0 <= k < |q'| ==> q'[k] == if k < |q| then q[k] else item;
  }

  lemma NewIsUnhandled(t: Timer, n: Timer, item: Item)
    requires HandledOk(t) && t.taken % 2 == 0 && item.id == Schedules(t.taken + 1) && n.handled == t.handled
    requires n.worker == Worker(t.worker.schedule + [item], t.worker.ignore) && n.taken == t.taken + 1
    requires forall id :: Scheduled(t.worker.schedule, id) ==> Scheduled(n.worker.schedule, id)
    requires Scheduled(n.worker.schedule, item.id)
    ensures HandledOk(n)
  {
    var q, q' := t.worker.schedule, n.worker.schedule;
    assert Schedules(n.taken) == Schedules(t.taken) + 1 == item.id;
    assert forall k {:trigger q'[k]} :: 0 <= k < |q'| ==> q'[k] == if k < |q| then q[k] else item;
  }

  /** The latest timer, if still pending, joins the ignored ones. */
  lemma TakeIgnore(t: Timer, n: Timer, id: nat)
    requires PendingOk(t) && HandledOk(t) && t.taken % 2 == 1 && id == Ignores(t.taken + 1)
    requires n.worker == Drain(t.worker, Ignore(id)) && n.taken == t.taken + 1 && n.handled == t.handled
    ensures PendingOk(n) && HandledOk(n)
  {
    assert Ignores(n.taken) == Ignores(t.taken) + 1 == id && Schedules(n.taken) == Schedules(t.taken);
  }

  lemma FireKeeps(t: Timer, delay: nat, e: Event)
    requires Valid(t, delay) && e.Fire?
    ensures Valid(TimerStep(t, delay, e), delay)
  {
    hide PendingOk, HandledOk;
    var n := TimerStep(t, delay, e);
    if n.handled == t.handled {
      SameWorker(t, n);
    } else {
      PopPending(t, n, e.k);
      PopHandled(t, n, e.k);
    }
  }

  lemma PopPending(t: Timer, n: Timer, k: nat)
    requires PendingOk(t) && k < |t.worker.schedule| && n.worker == Pop(t.worker, k) && n.taken == t.taken
    ensures PendingOk(n)
    ensures forall id :: Scheduled(t.worker.schedule, id) && id != t.worker.schedule[k].id ==> Scheduled(n.worker.schedule, id)
  {
    var q, q' := t.worker.schedule, n.worker.schedule;
    hide RemoveAt;
    forall id | Scheduled(q, id) && id != q[k].id
      ensures Scheduled(q', id)
    {
      var j :| 0 <= j < |q| && q[j].id == id;
      assert q'[if j < k then j else j - 1].id == id;
    }
  }

  lemma PopHandled(t: Timer, n: Timer, k: nat)
    requires PendingOk(t) && HandledOk(t) && k < |t.worker.schedule| && n.worker == Pop(t.worker, k) && n.taken == t.taken
    requires t.worker.schedule[k].when <= n.now
    requires n.handled == t.handled + [Outcome(t.worker.schedule[k], n.now, t.taken, Fires(t.worker, k))]
    requires forall id :: Scheduled(t.worker.schedule, id) && id != t.worker.schedule[k].id ==> Scheduled(n.worker.schedule, id)
    ensures HandledOk(n)
  {
    var q, q' := t.worker.schedule, n.worker.schedule;
    hide RemoveAt;
    assert n.handled[|t.handled|].item == q[k];
    forall id | 1 <= id <= Schedules(t.taken)
      ensures Scheduled(q', id) || Handled(n.handled, id)
    {
      if Handled(t.handled, id) {
        var x :| 0 <= x < |t.handled| && t.handled[x].item.id == id;
        assert n.handled[x].item.id == id;
      }
    }
  }

  /** How many bus events restart the timer. */
  function Restarts(events: seq<Event>): nat {
    if events == [] then 0
    else Restarts(events[..|events| - 1])
         + var e := events[|events| - 1]; if e.Message? && !e.aboutRescan then 1 else 0
  }

  lemma {:induction false} HistoryKeeps(delay: nat, events: seq<Event>)
    requires Restarts(events) < WORD
    ensures Valid(History(delay, events), delay) && History(delay, events).counter == Restarts(events)
  {
    if events != [] {
      var init, e := events[..|events| - 1], events[|events| - 1];
      HistoryKeeps(delay, init);
      hide Valid;
      match e
      case Message(_, _) => MessageStep(History(delay, init), delay, e);
      case Take => TakeKeeps(History(delay, init), delay);
      case Fire(_, _) => FireKeeps(History(delay, init), delay, e);
    }
  }

  lemma MessageStep(t: Timer, delay: nat, e: Event)
    requires Valid(t, delay) && e.Message? && (e.aboutRescan || t.counter + 1 < WORD)
    ensures Valid(TimerStep(t, delay, e), delay)
    ensures TimerStep(t, delay, e).counter == t.counter + if e.aboutRescan then 0 else 1
  {
    if e.aboutRescan {
      hide PendingOk, HandledOk;
      SameWorker(t, TimerStep(t, delay, e));
      assert t.channel + [] == t.channel;
    } else {
      MessageKeeps(t, delay, e);
    }
  }

  // ---------- the theorems ----------

  /**
   At every moment of every interleaving, at most one pending timer is not ignored, and it is the
   last one the worker has taken; and only pending timers are in the ignore set.
   */
  lemma AtMostOneLive(delay: nat, events: seq<Event>)
    requires Restarts(events) < WORD
    ensures var t := History(delay, events);
            && (forall k :: 0 <= k < |t.worker.schedule| && t.worker.schedule[k].id !in t.worker.ignore ==>
                  t.worker.schedule[k].id == Schedules(t.taken))
            && (forall id :: id in t.worker.ignore ==> Scheduled(t.worker.schedule, id))
  {
    HistoryKeeps(delay, events);
  }

  /**
   No timer is handled twice, none fires before it is due, and one fires exactly if the request
   to ignore it had not been taken; handled and pending timers together are the timers taken.
   */
  lemma EachTimerOnce(delay: nat, events: seq<Event>)
    requires Restarts(events) < WORD
    ensures var t := History(delay, events);
            && |t.handled| + |t.worker.schedule| == Schedules(t.taken)
            && (forall x, y :: 0 <= x < y < |t.handled| ==> t.handled[x].item.id != t.handled[y].item.id)
            && (forall x :: 0 <= x < |t.handled| ==>
                  && t.handled[x].item.when <= t.handled[x].at
                  && (t.handled[x].fired <==> t.handled[x].item.id > Ignores(t.handled[x].taken)))
            && (forall id :: 1 <= id <= Schedules(t.taken) ==>
                  (Handled(t.handled, id) <==> !Scheduled(t.worker.schedule, id)))
  {
    HistoryKeeps(delay, events);
  }

  /**
   No restart is lost: once the worker has caught up, the timer of the latest event is pending and
   not ignored, or it has already fired.
   */
  lemma LatestSurvives(delay: nat, events: seq<Event>)
    requires 0 < Restarts(events) < WORD && History(delay, events).channel == []
    ensures var t := History(delay, events);
            var id := Restarts(events);
            || (Scheduled(t.worker.schedule, id) && id !in t.worker.ignore)
            || (exists x :: 0 <= x < |t.handled| && t.handled[x].item.id == id && t.handled[x].fired)
  {
    HistoryKeeps(delay, events);
    var t := History(delay, events);
    var id := Restarts(events);
    assert Schedules(t.taken) == id && Ignores(t.taken) == id - 1;
    if Handled(t.handled, id) {
      var x :| 0 <= x < |t.handled| && t.handled[x].item.id == id;
      assert t.handled[x].fired;
    } else {
      var k :| 0 <= k < |t.worker.schedule| && t.worker.schedule[k].id == id;
    }
  }

  // ---------- when timers are due ----------

  /** The clock after these events: it follows their times and never goes backwards. */
  function Clock(events: seq<Event>): nat {
    if events == [] then 0
    else
      var before, e := Clock(events[..|events| - 1]), events[|events| - 1];
      if e.Take? || e.at < before then before else e.at
  }

  /** When the timer was restarted, restart by restart. */
  function RestartTimes(events: seq<Event>): seq<nat> {
    if events == [] then []
    else
      var before, e := RestartTimes(events[..|events| - 1]), events[|events| - 1];
      if e.Message? && !e.aboutRescan then before + [Clock(events)] else before
  }

  lemma {:induction false} RestartTimesGrow(events: seq<Event>)
    ensures |RestartTimes(events)| == Restarts(events)
    ensures forall i, j :: 0 <= i <= j < |RestartTimes(events)| ==> RestartTimes(events)[i] <= RestartTimes(events)[j] <= Clock(events)
  {
    if events != [] {
      RestartTimesGrow(events[..|events| - 1]);
    }
  }

  /** A timer is due a delay after the restart it was made for. */
  predicate Due(item: Item, times: seq<nat>, delay: nat) {
    1 <= item.id <= |times| && item.when == times[item.id - 1] + delay
  }

  ghost predicate AllDue(t: Timer, times: seq<nat>, delay: nat) {
    && t.counter == |times|
    && (forall x :: 0 <= x < |t.channel| && t.channel[x].Schedule? ==> Due(t.channel[x].item, times, delay))
    && (forall k :: 0 <= k < |t.worker.schedule| ==> Due(t.worker.schedule[k], times, delay))
    && (forall x :: 0 <= x < |t.handled| ==> Due(t.handled[x].item, times, delay) && t.handled[x].item.when <= t.handled[x].at)
  }

  lemma DueStays(item: Item, times: seq<nat>, delay: nat, time: nat)
    requires Due(item, times, delay)
    ensures Due(item, times + [time], delay)
  {
  }

  lemma RestartIsDue(t: Timer, times: seq<nat>, delay: nat, e: Event)
    requires AllDue(t, times, delay) && e.Message? && !e.aboutRescan && t.counter + 1 < WORD
    ensures AllDue(TimerStep(t, delay, e), times + [Later(t.now, e.at)], delay)
  {
    var n := TimerStep(t, delay, e);
    var time := Later(t.now, e.at);
    assert Due(Item(t.counter + 1, time + delay), times + [time], delay);
  }

  lemma OtherIsDue(t: Timer, times: seq<nat>, delay: nat, e: Event)
    requires AllDue(t, times, delay) && (e.Message? ==> e.aboutRescan)
    ensures AllDue(TimerStep(t, delay, e), times, delay)
  {
    hide Due;
    assert t.channel + [] == t.channel;
  }

  lemma {:induction false} HistoryIsDue(delay: nat, events: seq<Event>)
    requires Restarts(events) < WORD
    ensures History(delay, events).now == Clock(events) && AllDue(History(delay, events), RestartTimes(events), delay)
  {
    if events != [] {
      var init, e := events[..|events| - 1], events[|events| - 1];
      HistoryIsDue(delay, init);
      RestartTimesGrow(init);
      hide AllDue;
      if e.Message? && !e.aboutRescan {
        assert History(delay, init).counter == |RestartTimes(init)|;
        RestartIsDue(History(delay, init), RestartTimes(init), delay, e);
      } else {
        OtherIsDue(History(delay, init), RestartTimes(init), delay, e);
      }
    }
  }

  // ---------- timers take turns ----------

  /** What has been handled was due no later than what is pending. */
  ghost predicate InTurn(t: Timer) {
    && (forall x, k :: 0 <= x < |t.handled| && 0 <= k < |t.worker.schedule| ==> t.handled[x].item.when <= t.worker.schedule[k].when)
    && (forall x, y :: 0 <= x < y < |t.handled| ==> t.handled[x].item.when <= t.handled[y].item.when)
  }

  lemma FireInTurn(t: Timer, delay: nat, e: Event)
    requires InTurn(t) && e.Fire?
    ensures InTurn(TimerStep(t, delay, e))
  {
    hide RemoveAt;
  }

  /** A timer that is taken was made after those handled, so it is not due before them. */
  lemma TakeInTurn(t: Timer, delay: nat, times: seq<nat>)
    requires InTurn(t) && Valid(t, delay) && AllDue(t, times, delay)
    requires forall i, j :: 0 <= i <= j < |times| ==> times[i] <= times[j]
    ensures InTurn(TimerStep(t, delay, Take))
  {
    hide PendingOk;
    if t.channel != [] && t.channel[0].Schedule? {
      var item := t.channel[0].item;
      assert InOrder(t.channel[0], t.taken, t.now + delay) && Due(item, times, delay);
      forall x | 0 <= x < |t.handled|
        ensures t.handled[x].item.when <= item.when
      {
        assert OutcomeOk(t.handled[x], t.taken) && Due(t.handled[x].item, times, delay);
      }
      hide HandledOk, ChannelOk, AllDue;
    }
  }

  lemma {:induction false} HistoryInTurn(delay: nat, events: seq<Event>)
    requires Restarts(events) < WORD
    ensures InTurn(History(delay, events))
  {
    if events != [] {
      hide InTurn, Valid, AllDue;
      var init, e := events[..|events| - 1], events[|events| - 1];
      HistoryInTurn(delay, init);
      var t := History(delay, init);
      match e
      case Message(_, _) => SameInTurn(t, TimerStep(t, delay, e));
      case Take =>
        HistoryKeeps(delay, init);
        HistoryIsDue(delay, init);
        RestartTimesGrow(init);
        TakeInTurn(t, delay, RestartTimes(init));
      case Fire(_, _) => FireInTurn(t, delay, e);
    } else {
      SameInTurn(Start, Start);
    }
  }

  lemma SameInTurn(t: Timer, n: Timer)
    requires n.worker == t.worker && n.handled == t.handled && (InTurn(t) || t.handled == [])
    ensures InTurn(n)
  {
  }

  /**
   Every timer, pending or handled, is due exactly a delay after the restart it was made for; none is
   handled before that, and they are handled in the order in which they are due.
   */
  lemma DueAfterDelay(delay: nat, events: seq<Event>)
    requires Restarts(events) < WORD
    ensures var t, times := History(delay, events), RestartTimes(events);
            && |times| == Restarts(events)
            && (forall k :: 0 <= k < |t.worker.schedule| ==>
                  var item := t.worker.schedule[k]; 1 <= item.id <= |times| && item.when == times[item.id - 1] + delay)
            && (forall x :: 0 <= x < |t.handled| ==>
                  var item := t.handled[x].item; 1 <= item.id <= |times| && times[item.id - 1] + delay == item.when <= t.handled[x].at)
            && (forall x, y :: 0 <= x < y < |t.handled| ==> t.handled[x].item.when <= t.handled[y].item.when)
  {
    HistoryIsDue(delay, events);
    HistoryInTurn(delay, events);
    RestartTimesGrow(events);
  }

  /**
   What the timer is for: when the worker has caught up and handles a timer, it asks for a rescan exactly
   if that is the timer of the latest restart, and then no restart is younger than the delay.
   */
  lemma FiresWhenQuiet(delay: nat, events: seq<Event>, k: nat, at: nat)
    requires Restarts(events) < WORD && History(delay, events).channel == []
    requires |History(delay, events + [Fire(k, at)]).handled| > |History(delay, events).handled|
    ensures var t := History(delay, events + [Fire(k, at)]);
            var o := t.handled[|t.handled| - 1];
            && (o.fired <==> o.item.id == Restarts(events))
            && (o.fired ==> forall i :: 0 <= i < |RestartTimes(events)| ==> RestartTimes(events)[i] + delay <= o.at)
  {
    var more := events + [Fire(k, at)];
    assert more[..|more| - 1] == events;
    var s, t := History(delay, events), History(delay, more);
    HistoryKeeps(delay, events);
    HistoryKeeps(delay, more);
    DueAfterDelay(delay, more);
    RestartTimesGrow(events);
    assert t.taken == s.taken && Ignores(s.taken) == Restarts(events) - 1;
    assert OutcomeOk(t.handled[|t.handled| - 1], t.taken);
    hide Valid;
  }
}
