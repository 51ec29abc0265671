/**
 One activation of a test: the thread that watches the test program, and the manager that may
 stop the test at any moment.  Both report the end of the test through a shared result cell.
 */
module TestProcess {
  import opened Units

  /** Where the watching thread is. */
  datatype Thread =
    | Watching                // simple: until the program exits; daemon: until it is ready
    | Reporting(code: int)    // simple: finished, about to advance the scenario
    | Waiting                 // daemon: ready, in the background
    | Dropping(code: int)     // daemon: did not become ready, about to report
    | Ended

  datatype Proc = Proc(daemon: bool, readyText: bool, thread: Thread, result: Option<int>)

  /** What the thread sees next. */
  datatype Signal = Line(matches: bool) | ReadError | EndOfOutput | Exit(code: int) | Proceed

  /** A step, with the TestFinished and AdvanceScenario results it sends. */
  datatype Out = Out(proc: Proc, finished: Option<int>, advance: Option<int>)

  function Activated(daemon: bool, readyText: bool): Proc {
    Proc(daemon, readyText, Watching, None)
  }

  /** Only the first report of an activation is sent. */
  function FinishedOnce(pr: Proc, thread: Thread, code: int): Out {
    if pr.result.None? then Out(pr.(thread := thread, result := Some(code)), Some(code), None)
    else Out(pr.(thread := thread), None, None)
  }

  function Advances(pr: Proc, thread: Thread, code: int): Out {
    Out(pr.(thread := thread), None, Some(code))
  }

  function ThreadStep(pr: Proc, signal: Signal): Out {
    match pr.thread
    case Watching =>
      if !pr.daemon then
        if signal.Exit? then FinishedOnce(pr, Reporting(signal.code), signal.code) else Out(pr, None, None)
      else if !pr.readyText then
        Advances(pr, Waiting, 0)
      else (
        match signal
        case Line(true) => Advances(pr, Waiting, 0)
        case ReadError => Advances(pr, Dropping(-2), -2)
        case EndOfOutput => Advances(pr, Dropping(-1), -1)
        case _ => Out(pr, None, None))
    case Reporting(code) => Advances(pr, Ended, code)
    case Waiting => if signal.Exit? then FinishedOnce(pr, Ended, signal.code) else Out(pr, None, None)
    case Dropping(code) => FinishedOnce(pr, Ended, code)
    case Ended => Out(pr, None, None)
  }

  /** The manager stops the test; a daemon that has not failed so far is reported as passed. */
  function Stopped(pr: Proc): Out {
    if pr.daemon then FinishedOnce(pr, pr.thread, 0) else Out(pr, None, None)
  }

  predicate Owes(pr: Proc) { pr.thread.Watching? || pr.thread.Reporting? }

  datatype Move = Watch(signal: Signal) | Stop

  function Apply(pr: Proc, move: Move): Out {
    match move
    case Watch(signal) => ThreadStep(pr, signal)
    case Stop => Stopped(pr)
  }

  /** All reports and advances of an activation. */
  datatype History = History(proc: Proc, finished: seq<int>, advances: seq<int>)

  function Opt(o: Option<int>): seq<int> { if o.Some? then [o.value] else [] }

  function Next(h: History, move: Move): History {
    var out := Apply(h.proc, move);
    History(out.proc, h.finished + Opt(out.finished), h.advances + Opt(out.advance))
  }

  function Play(pr: Proc, moves: seq<Move>): History {
    if moves == [] then History(pr, [], []) else Next(Play(pr, moves[..|moves| - 1]), moves[|moves| - 1])
  }

  ghost predicate Orderly(h: History) {
    var pr := h.proc;
    && |h.advances| == (if Owes(pr) then 0 else 1)
    && h.finished == Opt(pr.result)
    && (pr.thread.Ended? ==> pr.result.Some?)
    && (pr.thread.Waiting? || pr.thread.Dropping? ==> pr.daemon)
    && (pr.thread.Reporting? ==> !pr.daemon && pr.result == Some(pr.thread.code))
    && (!pr.daemon && pr.thread.Watching? ==> pr.result.None?)
    && (!pr.daemon && h.advances != [] ==> h.finished == h.advances)
  }

  lemma NextOrderly(h: History, move: Move)
    requires Orderly(h)
    ensures Orderly(Next(h, move)) && Next(h, move).proc.daemon == h.proc.daemon
  {
    var out := Apply(h.proc, move);
    assert h.finished + [] == h.finished && h.advances + [] == h.advances;
    match h.proc.thread
    case Watching =>
    case Reporting(code) =>
    case Waiting =>
    case Dropping(code) =>
    case Ended =>
  }

  /**
   Whatever the interleaving of the watching thread and the stops, an activation sends exactly
   one AdvanceScenario once it no longer owes it, and none before; and at most one TestFinished,
   exactly one by the time the thread ends.  A simple test reports and advances with one code.
   */
  lemma {:induction false} OneAdvanceOneReport(daemon: bool, readyText: bool, moves: seq<Move>)
    ensures var h := Play(Activated(daemon, readyText), moves);
            && |h.advances| == (if Owes(h.proc) then 0 else 1)
            && |h.finished| <= 1 && (h.proc.thread.Ended? ==> |h.finished| == 1)
            && (!daemon && h.advances != [] ==> h.finished == h.advances)
            && h.proc.daemon == daemon && Orderly(h)
  {
    if moves != [] {
      OneAdvanceOneReport(daemon, readyText, moves[..|moves| - 1]);
      NextOrderly(Play(Activated(daemon, readyText), moves[..|moves| - 1]), moves[|moves| - 1]);
    }
  }

  /** What a step means for the advance that is owed. */
  lemma StepOwes(pr: Proc, move: Move)
    ensures var out := Apply(pr, move);
            && (Owes(pr) <==> Owes(out.proc) || out.advance.Some?)
            && !(Owes(out.proc) && out.advance.Some?)
            && (move.Stop? ==> out.advance.None?)
  {
  }

  // ---------- the codes of a simple test ----------

  predicate IsExit(m: Move) { m.Watch? && m.signal.Exit? }

  /** The k-th move is the first one in which the program exits. */
  predicate FirstExit(moves: seq<Move>, k: int) {
    0 <= k < |moves| && IsExit(moves[k]) && forall j :: 0 <= j < k ==> !IsExit(moves[j])
  }

  /** The thread has gone on since the k-th move. */
  predicate WentOn(moves: seq<Move>, k: nat) {
    exists j :: k < j < |moves| && moves[j].Watch?
  }

  /** How far a simple test has come: it has exited with a code or not, and its thread has gone on since or not. */
  ghost predicate SimpleAt(h: History, code: Option<int>, wentOn: bool) {
    && !h.proc.daemon
    && match code
       case None => h.proc.thread == Watching && h.proc.result.None? && h.finished == [] && h.advances == []
       case Some(c) =>
         && h.proc.result.Some? && h.finished == [c]
         && if wentOn then h.proc.thread == Ended && h.advances == [c] else h.proc.thread == Reporting(c) && h.advances == []
  }

  lemma SimpleNext(h: History, code: Option<int>, wentOn: bool, m: Move)
    requires SimpleAt(h, code, wentOn) && (wentOn ==> code.Some?)
    ensures SimpleAt(Next(h, m), if code.None? && IsExit(m) then Some(m.signal.code) else code, code.Some? && (wentOn || m.Watch?))
  {
  }

  lemma {:induction false} SimpleThread(readyText: bool, moves: seq<Move>) returns (k: Option<nat>)
    ensures k.None? ==> forall j :: 0 <= j < |moves| ==> !IsExit(moves[j])
    ensures k.Some? ==> FirstExit(moves, k.value)
    ensures SimpleAt(Play(Activated(false, readyText), moves), if k.Some? then Some(moves[k.value].signal.code) else None,
                     k.Some? && WentOn(moves, k.value))
  {
    hide SimpleAt, Next;
    if moves == [] {
      k := None;
      AtFirst(readyText);
    } else {
      var n := |moves| - 1;
      var init, m := moves[..n], moves[n];
      k := SimpleThread(readyText, init);
      SimpleNext(Play(Activated(false, readyText), init), if k.Some? then Some(moves[k.value].signal.code) else None,
                 k.Some? && WentOn(init, k.value), m);
      if k.Some? {
        WentOnNext(moves, k.value);
      } else if IsExit(m) {
        k := Some(n);
        assert forall j :: 0 <= j < n ==> moves[j] == init[j];
        assert !WentOn(moves, n);
      } else {
        assert forall j :: 0 <= j < n ==> moves[j] == init[j];
      }
    }
  }

  lemma AtFirst(readyText: bool)
    ensures SimpleAt(Play(Activated(false, readyText), []), None, false)
    ensures DaemonAt(Play(Activated(true, readyText), []), readyText, None)
  {
  }

  lemma WentOnNext(moves: seq<Move>, k: nat)
    requires k < |moves| - 1
    ensures WentOn(moves, k) <==> WentOn(moves[..|moves| - 1], k) || moves[|moves| - 1].Watch?
  {
    var init := moves[..|moves| - 1];
    if j :| k < j < |init| && init[j].Watch? {
      assert moves[j].Watch?;
    }
  }

  /**
   A simple test reports the code of its first exit, and advances the scenario with that code as soon
   as its thread goes on; until it exits it does neither.
   */
  lemma SimpleCodes(readyText: bool, moves: seq<Move>)
    ensures var h := Play(Activated(false, readyText), moves);
            && (forall k :: FirstExit(moves, k) ==>
                  && h.finished == [moves[k].signal.code]
                  && h.advances == if WentOn(moves, k) then [moves[k].signal.code] else [])
            && ((forall j :: 0 <= j < |moves| ==> !IsExit(moves[j])) ==> h.finished == [] && h.advances == [])
  {
    var k := SimpleThread(readyText, moves);
    hide Play;
  }

  // ---------- the codes of a daemon ----------

  /** A move that decides whether a daemon has become ready. */
  predicate Decides(readyText: bool, m: Move) {
    m.Watch? && (readyText ==> m.signal == Line(true) || m.signal.ReadError? || m.signal.EndOfOutput?)
  }

  predicate FirstDecision(readyText: bool, moves: seq<Move>, d: int) {
    0 <= d < |moves| && Decides(readyText, moves[d]) && forall j :: 0 <= j < d ==> !Decides(readyText, moves[j])
  }

  /** The code that a decision stands for. */
  function Readiness(readyText: bool, m: Move): int
    requires Decides(readyText, m)
  {
    if !readyText || m.signal == Line(true) then 0 else if m.signal.ReadError? then -2 else -1
  }

  /** How far a daemon has come: whether it is decided that it is ready, and the thread is not through. */
  ghost predicate DaemonAt(h: History, readyText: bool, code: Option<int>) {
    && h.proc.daemon && h.proc.readyText == readyText
    && h.advances == Opt(code)
    && match code
       case None => h.proc.thread == Watching
       case Some(c) =>
         if h.proc.thread.Ended? then h.proc.result.Some?
         else h.proc.thread == if c == 0 then Waiting else Dropping(c)
  }

  lemma DaemonNext(h: History, readyText: bool, code: Option<int>, m: Move)
    requires DaemonAt(h, readyText, code)
    ensures DaemonAt(Next(h, m), readyText, if code.None? && Decides(readyText, m) then Some(Readiness(readyText, m)) else code)
  {
    assert h.advances + [] == h.advances;
  }

  lemma {:induction false} DaemonThread(readyText: bool, moves: seq<Move>) returns (d: Option<nat>)
    ensures d.None? ==> forall j :: 0 <= j < |moves| ==> !Decides(readyText, moves[j])
    ensures d.Some? ==> FirstDecision(readyText, moves, d.value)
    ensures DaemonAt(Play(Activated(true, readyText), moves), readyText, if d.Some? then Some(Readiness(readyText, moves[d.value])) else None)
  {
    hide DaemonAt, Next, Readiness;
    if moves == [] {
      d := None;
      AtFirst(readyText);
    } else {
      var n := |moves| - 1;
      var init, m := moves[..n], moves[n];
      d := DaemonThread(readyText, init);
      DaemonNext(Play(Activated(true, readyText), init), readyText,
                 if d.Some? then Some(Readiness(readyText, moves[d.value])) else None, m);
      if d.Some? {
        DecidesEarlier(readyText, moves, n, d.value);
      } else {
        assert forall j :: 0 <= j < n ==> moves[j] == init[j];
        if Decides(readyText, m) {
          d := Some(n);
        }
      }
    }
  }

  /**
   A daemon advances the scenario when it is decided whether it is ready: with 0 if it has no ready text
   or a line matches, with -2 if reading fails first, and with -1 if the output ends first.
   */
  lemma DaemonAdvance(readyText: bool, moves: seq<Move>)
    ensures var h := Play(Activated(true, readyText), moves);
            && (forall d :: FirstDecision(readyText, moves, d) ==>
                  h.advances == [if !readyText || moves[d].signal == Line(true) then 0 else if moves[d].signal.ReadError? then -2 else -1])
            && ((forall j :: 0 <= j < |moves| ==> !Decides(readyText, moves[j])) ==> h.advances == [])
  {
    var d := DaemonThread(readyText, moves);
    hide Play;
  }

  /** What the k-th move reports if nothing was reported before: a stop 0, a daemon that was ready its exit, another its failure. */
  ghost predicate Reports(readyText: bool, moves: seq<Move>, k: int, code: int) {
    0 <= k < |moves| &&
      if moves[k].Stop? then code == 0
      else exists d :: d < k && FirstDecision(readyText, moves, d) && Ends(Readiness(readyText, moves[d]), moves[k].signal, code)
  }

  predicate Ends(ready: int, signal: Signal, code: int) {
    if ready == 0 then signal == Exit(code) else code == ready
  }

  ghost predicate FirstReport(readyText: bool, moves: seq<Move>, k: int, code: int) {
    Reports(readyText, moves, k, code) && forall j, c :: j < k ==> !Reports(readyText, moves, j, c)
  }

  lemma DecidesEarlier(readyText: bool, moves: seq<Move>, n: nat, d: int)
    requires d < n <= |moves|
    ensures FirstDecision(readyText, moves[..n], d) == FirstDecision(readyText, moves, d)
  {
    assert 0 <= d ==> moves[..n][..d] == moves[..d];
  }

  lemma ReportsEarlier(readyText: bool, moves: seq<Move>, n: nat, k: int, code: int)
    requires k < n <= |moves|
    ensures Reports(readyText, moves[..n], k, code) == Reports(readyText, moves, k, code)
  {
    forall d | d < k
      ensures FirstDecision(readyText, moves[..n], d) == FirstDecision(readyText, moves, d)
    {
      DecidesEarlier(readyText, moves, n, d);
    }
    assert forall d :: FirstDecision(readyText, moves, d) ==> 0 <= d < |moves|;
    hide FirstDecision, Readiness, Ends;
  }

  /** The report of one more move, if there was none before. */
  lemma ReportsNext(h: History, readyText: bool, ready: Option<int>, m: Move, code: int)
    requires DaemonAt(h, readyText, ready) && h.proc.result.None?
    ensures Next(h, m).proc.result == Some(code) <==>
            if m.Stop? then code == 0 else ready.Some? && Ends(ready.value, m.signal, code)
  {
  }

  lemma LastReports(readyText: bool, moves: seq<Move>, d: Option<nat>, code: int)
    requires moves != []
    requires d.None? ==> forall j :: 0 <= j < |moves| - 1 ==> !Decides(readyText, moves[j])
    requires d.Some? ==> FirstDecision(readyText, moves[..|moves| - 1], d.value)
    ensures var m := moves[|moves| - 1];
            Reports(readyText, moves, |moves| - 1, code) <==>
              if m.Stop? then code == 0 else d.Some? && Ends(Readiness(readyText, moves[d.value]), m.signal, code)
  {
    if d.Some? {
      DecidesEarlier(readyText, moves, |moves| - 1, d.value);
    }
    hide Readiness, Ends;
  }

  lemma {:induction false} DaemonResult(readyText: bool, moves: seq<Move>) returns (k: int, code: int)
    ensures var h := Play(Activated(true, readyText), moves);
            if k < 0 then h.proc.result.None? && forall j, c :: !Reports(readyText, moves, j, c)
            else FirstReport(readyText, moves, k, code) && h.proc.result == Some(code)
  {
    hide Reports, Next, Readiness;
    forall j, c | Reports(readyText, moves, j, c)
      ensures 0 <= j < |moves|
    {
      ReportsOne(readyText, moves, j, c, c);
    }
    if moves == [] {
      k, code := -1, 0;
    } else {
      var n := |moves| - 1;
      k, code := DaemonResult(readyText, moves[..n]);
      forall j, c | j < n
        ensures Reports(readyText, moves[..n], j, c) == Reports(readyText, moves, j, c)
      {
        ReportsEarlier(readyText, moves, n, j, c);
      }
      var h := Play(Activated(true, readyText), moves[..n]);
      if k < 0 {
        var d := DaemonThread(readyText, moves[..n]);
        forall c
          ensures Next(h, moves[n]).proc.result == Some(c) <==> Reports(readyText, moves, n, c)
        {
          LastReports(readyText, moves, d, c);
          ReportsNext(h, readyText, if d.Some? then Some(Readiness(readyText, moves[d.value])) else None, moves[n], c);
        }
        if Next(h, moves[n]).proc.result.Some? {
          k, code := n, Next(h, moves[n]).proc.result.value;
        }
      } else {
        ReportsOne(readyText, moves[..n], k, code, code);
        ResultStays(h, moves[n]);
      }
    }
  }

  lemma ReportsOne(readyText: bool, moves: seq<Move>, k: int, code: int, other: int)
    requires Reports(readyText, moves, k, code)
    ensures 0 <= k < |moves| && (Reports(readyText, moves, k, other) <==> other == code)
  {
  }

  lemma ResultStays(h: History, m: Move)
    requires h.proc.result.Some?
    ensures Next(h, m).proc.result == h.proc.result
  {
  }

  /** A daemon reports 0 if it is stopped before anything else is reported, and otherwise how it ended. */
  lemma DaemonReport(readyText: bool, moves: seq<Move>)
    ensures var h := Play(Activated(true, readyText), moves);
            && (forall k, c :: FirstReport(readyText, moves, k, c) ==> h.finished == [c])
            && ((forall k, c :: !Reports(readyText, moves, k, c)) ==> h.finished == [])
  {
    hide Play, Reports;
    OneAdvanceOneReport(true, readyText, moves);
    var k, code := DaemonResult(readyText, moves);
    forall j, c | FirstReport(readyText, moves, j, c)
      ensures k == j && code == c
    {
      ReportsOne(readyText, moves, j, c, code);
    }
  }
}
