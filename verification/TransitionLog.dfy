// Request telemetry, written once in Go (telemetry.go) and once in Python (observability.py): a gauge of
// requests in flight, and a log line for each server error and each change of a route's status.
module TransitionLog {

  datatype Program = Go | Python

  datatype Line = Line(route: string, status: int)

  // How a handler ends: with a response, or by a panic or exception.
  datatype Ending = Response(line: Line) | Failure(path: string)

  // What a program that observes an ending observes: a raised exception counts as status 500.
  function LineOf(e: Ending): Line {
    match e case Response(line) => line case Failure(path) => Line(path, 500)
  }

  // A Go panic unwinds past the decision; only the deferred decrement happens.
  predicate Observes(program: Program, e: Ending) {
    program.Python? || e.Response?
  }

  predicate IsServerError(status: int) {
    status >= 500
  }

  // ---------- what the log should say ----------

  // The lines a program observes of the endings.
  function History(program: Program, endings: seq<Ending>): seq<Line> {
    if endings == [] then []
    else
      var init, e := History(program, endings[..|endings| - 1]), endings[|endings| - 1];
      if Observes(program, e) then init + [LineOf(e)] else init
  }

  // The statuses of one route, in the order they were observed.
  function StatusesOf(history: seq<Line>, route: string): seq<int> {
    if history == [] then []
    else
      var init, last := StatusesOf(history[..|history| - 1], route), history[|history| - 1];
      if last.route == route then init + [last.status] else init
  }

  function ServerErrors(statuses: seq<int>): nat {
    if statuses == [] then 0
    else ServerErrors(statuses[..|statuses| - 1]) + if IsServerError(statuses[|statuses| - 1]) then 1 else 0
  }

  function Others(statuses: seq<int>): seq<int> {
    if statuses == [] then []
    else
      var init, last := Others(statuses[..|statuses| - 1]), statuses[|statuses| - 1];
      if IsServerError(last) then init else init + [last]
  }

  function Changes(statuses: seq<int>): nat {
    if |statuses| <= 1 then 0
    else
      var n := |statuses|;
      Changes(statuses[..n - 1]) + if statuses[n - 2] != statuses[n - 1] then 1 else 0
  }

  // One line per server error and per adjacent change among the other statuses.
  function Expected(statuses: seq<int>): nat {
    ServerErrors(statuses) + Changes(Others(statuses))
  }

  lemma StatusesSnoc(history: seq<Line>, line: Line, route: string)
    ensures StatusesOf(history + [line], route) ==
            if line.route == route then StatusesOf(history, route) + [line.status] else StatusesOf(history, route)
  {
    assert (history + [line])[..|history|] == history;
  }

  predicate Changed(others: seq<int>, status: int) {
    others != [] && others[|others| - 1] != status
  }

  lemma ExpectedSnoc(statuses: seq<int>, status: int)
    ensures Others(statuses + [status]) ==
            if IsServerError(status) then Others(statuses) else Others(statuses) + [status]
    ensures Expected(statuses + [status]) ==
            Expected(statuses) + if IsServerError(status) || Changed(Others(statuses), status) then 1 else 0
  {
    assert (statuses + [status])[..|statuses|] == statuses;
    var others := Others(statuses);
    assert (others + [status])[..|others|] == others;
  }

  // ---------- the automaton ----------

  // The decision of both programs: server errors always, other statuses when the route last had another.
  predicate ShouldLog(last: map<string, int>, line: Line) {
    IsServerError(line.status) || (line.route in last && last[line.route] != line.status)
  }

  function Remember(last: map<string, int>, line: Line): map<string, int> {
    if IsServerError(line.status) then last else last[line.route := line.status]
  }

  // The remembered statuses after a history.
  function LastOf(history: seq<Line>): map<string, int> {
    if history == [] then map[] else Remember(LastOf(history[..|history| - 1]), history[|history| - 1])
  }

  lemma LastOfSnoc(history: seq<Line>, line: Line)
    ensures LastOf(history + [line]) == Remember(LastOf(history), line)
  {
    assert (history + [line])[..|history|] == history;
  }

  lemma HistorySnoc(program: Program, endings: seq<Ending>, e: Ending)
    ensures History(program, endings + [e]) ==
            if Observes(program, e) then History(program, endings) + [LineOf(e)] else History(program, endings)
  {
    assert (endings + [e])[..|endings|] == endings;
  }

  // The endings a program decides to log.
  function Logged(program: Program, endings: seq<Ending>): seq<Ending> {
    if endings == [] then []
    else
      var init, e := endings[..|endings| - 1], endings[|endings| - 1];
      if Observes(program, e) && ShouldLog(LastOf(History(program, init)), LineOf(e)) then Logged(program, init) + [e]
      else Logged(program, init)
  }

  lemma LoggedSnoc(program: Program, endings: seq<Ending>, e: Ending)
    ensures Logged(program, endings + [e]) ==
            if Observes(program, e) && ShouldLog(LastOf(History(program, endings)), LineOf(e))
            then Logged(program, endings) + [e] else Logged(program, endings)
  {
    assert (endings + [e])[..|endings|] == endings;
  }

  function LinesOf(endings: seq<Ending>): seq<Line> {
    seq(|endings|, i requires 0 <= i < |endings| => LineOf(endings[i]))
  }

  function CountOf(lines: seq<Line>, p: Line -> bool): nat {
    if lines == [] then 0
    else CountOf(lines[..|lines| - 1], p) + if p(lines[|lines| - 1]) then 1 else 0
  }

  function OnRoute(route: string): Line -> bool {
    (line: Line) => line.route == route
  }

  lemma CountSnoc(lines: seq<Line>, line: Line, p: Line -> bool)
    ensures CountOf(lines + [line], p) == CountOf(lines, p) + if p(line) then 1 else 0
  {
    assert (lines + [line])[..|lines|] == lines;
  }

  lemma CountLinesSnoc(endings: seq<Ending>, e: Ending, p: Line -> bool)
    ensures CountOf(LinesOf(endings + [e]), p) == CountOf(LinesOf(endings), p) + if p(LineOf(e)) then 1 else 0
  {
    assert LinesOf(endings + [e]) == LinesOf(endings) + [LineOf(e)];
    CountSnoc(LinesOf(endings), LineOf(e), p);
  }

  // The memory of a route is its last status that was no server error.
  lemma {:induction false} LastIsLastOther(history: seq<Line>, route: string)
    ensures var last, others := LastOf(history), Others(StatusesOf(history, route));
            && (route in last <==> others != [])
            && (route in last ==> last[route] == others[|others| - 1])
  {
    if history != [] {
      var init, line := history[..|history| - 1], history[|history| - 1];
      assert history == init + [line];
      LastIsLastOther(init, route);
      StatusesSnoc(init, line, route);
      ExpectedSnoc(StatusesOf(init, route), line.status);
    }
  }

  // The automaton decides to log exactly the expected number of lines on every route.
  lemma {:induction false} LoggedIsExpected(program: Program, endings: seq<Ending>, route: string)
    ensures CountOf(LinesOf(Logged(program, endings)), OnRoute(route)) ==
            Expected(StatusesOf(History(program, endings), route))
  {
    if endings != [] {
      var init, e := endings[..|endings| - 1], endings[|endings| - 1];
      assert endings == init + [e];
      LoggedIsExpected(program, init, route);
      HistorySnoc(program, init, e);
      LoggedSnoc(program, init, e);
      if Observes(program, e) {
        CountLinesSnoc(Logged(program, init), e, OnRoute(route));
        ExpectedMore(History(program, init), LineOf(e), route);
      }
    }
  }

  // A line adds to what is expected of its own route exactly when the automaton logs it.
  lemma ExpectedMore(history: seq<Line>, line: Line, route: string)
    ensures Expected(StatusesOf(history + [line], route)) ==
            Expected(StatusesOf(history, route))
            + if line.route == route && ShouldLog(LastOf(history), line) then 1 else 0
  {
    LastIsLastOther(history, route);
    StatusesSnoc(history, line, route);
    ExpectedSnoc(StatusesOf(history, route), line.status);
  }

  // ---------- runs ----------

  // Where a request stands; its ending, and whether it still has to write its line, are local to it.
  datatype Phase = Serving | Returned(ending: Ending) | Observed(line: Line, logs: bool)

  // endings lists the endings in the order in which they were decided on or, for a panic, unwound.
  datatype State = State(requests: map<nat, Phase>, endings: seq<Ending>, log: seq<Line>)

  // Each event is one atomic action of one request; requests interleave between them.
  datatype Event = Arrive(id: nat) | End(id: nat, ending: Ending) | Decide(id: nat) | Write(id: nat) | Depart(id: nat)

  predicate Possible(s: State, e: Event) {
    if e.Arrive? then e.id !in s.requests
    else
      e.id in s.requests &&
      match e
      case End(id, ending) => s.requests[id].Serving?
      case Decide(id) => s.requests[id].Returned?
      case Write(id) => s.requests[id].Observed? && s.requests[id].logs
      case Depart(id) => s.requests[id].Observed? && !s.requests[id].logs
  }

  function Do(program: Program, s: State, e: Event): State
    requires Possible(s, e)
  {
    match e
    case Arrive(id) => s.(requests := s.requests[id := Serving])
    case End(id, ending) =>
      if Observes(program, ending) then s.(requests := s.requests[id := Returned(ending)])
      else s.(requests := s.requests - {id}, endings := s.endings + [ending])
    case Decide(id) =>
      var ending := s.requests[id].ending;
      var line := LineOf(ending);
      var logs := ShouldLog(LastOf(History(program, s.endings)), line);
      s.(requests := s.requests[id := Observed(line, logs)], endings := s.endings + [ending])
    case Write(id) =>
      var line := s.requests[id].line;
      s.(requests := s.requests[id := Observed(line, false)], log := s.log + [line])
    case Depart(id) => s.(requests := s.requests - {id})
  }

  // The state after a schedule; events that are not possible when their turn comes are passed over.
  function After(program: Program, schedule: seq<Event>): State {
    if schedule == [] then State(map[], [], [])
    else
      var s, e := After(program, schedule[..|schedule| - 1]), schedule[|schedule| - 1];
      if Possible(s, e) then Do(program, s, e) else s
  }

  // Requests that decided to log, and whose line satisfies p, but have not written it yet.
  function PendingOf(requests: map<nat, Phase>, p: Line -> bool): set<nat> {
    set id | id in requests && requests[id].Observed? && requests[id].logs && p(requests[id].line)
  }

  // The lines of a state, written or about to be.
  function Emitted(s: State, p: Line -> bool): nat {
    CountOf(s.log, p) + |PendingOf(s.requests, p)|
  }

  ghost predicate Waiting(program: Program, s: State) {
    forall id :: id in s.requests && s.requests[id].Returned? ==> Observes(program, s.requests[id].ending)
  }

  // Writing a line takes it from the pending ones.
  lemma WriteKeepsEmitted(program: Program, s: State, id: nat, p: Line -> bool)
    requires Possible(s, Write(id))
    ensures Emitted(Do(program, s, Write(id)), p) == Emitted(s, p)
  {
    var line := s.requests[id].line;
    CountSnoc(s.log, line, p);
    PendingLess(s.requests, id, p);
  }

  lemma PendingLess(requests: map<nat, Phase>, id: nat, p: Line -> bool)
    requires id in requests && requests[id].Observed? && requests[id].logs
    ensures var line := requests[id].line;
            |PendingOf(requests, p)| ==
            |PendingOf(requests[id := Observed(line, false)], p)| + if p(line) then 1 else 0
  {
    var line := requests[id].line;
    var before, after := PendingOf(requests, p), PendingOf(requests[id := Observed(line, false)], p);
    if p(line) {
      assert before == after + {id};
    } else {
      assert before == after;
    }
  }

  // A decision adds a line exactly when the automaton logs.
  lemma DecideEmits(program: Program, s: State, id: nat, p: Line -> bool)
    requires Possible(s, Decide(id))
    ensures var line := LineOf(s.requests[id].ending);
            Emitted(Do(program, s, Decide(id)), p) ==
            Emitted(s, p) + if ShouldLog(LastOf(History(program, s.endings)), line) && p(line) then 1 else 0
  {
    var s', line := Do(program, s, Decide(id)), LineOf(s.requests[id].ending);
    if ShouldLog(LastOf(History(program, s.endings)), line) && p(line) {
      assert PendingOf(s'.requests, p) == PendingOf(s.requests, p) + {id};
    } else {
      assert PendingOf(s'.requests, p) == PendingOf(s.requests, p);
    }
  }

  lemma OtherStepsKeepEmitted(program: Program, s: State, e: Event, p: Line -> bool)
    requires Possible(s, e) && !e.Write? && !e.Decide?
    ensures Emitted(Do(program, s, e), p) == Emitted(s, p)
  {
    assert PendingOf(Do(program, s, e).requests, p) == PendingOf(s.requests, p);
  }

  // Over every schedule, of whatever lines: those written or about to be are those the automaton logs of
  // the endings decided on so far.
  lemma {:induction false} RunEmitsLogged(program: Program, schedule: seq<Event>, p: Line -> bool)
    ensures var s := After(program, schedule);
            Waiting(program, s) && Emitted(s, p) == CountOf(LinesOf(Logged(program, s.endings)), p)
  {
    if schedule != [] {
      var init, e := schedule[..|schedule| - 1], schedule[|schedule| - 1];
      RunEmitsLogged(program, init, p);
      if Possible(After(program, init), e) {
        StepEmitsLogged(program, After(program, init), e, p);
      }
    }
  }

  lemma StepEmitsLogged(program: Program, s: State, e: Event, p: Line -> bool)
    requires Possible(s, e) && Waiting(program, s)
    requires Emitted(s, p) == CountOf(LinesOf(Logged(program, s.endings)), p)
    ensures var s' := Do(program, s, e);
            Waiting(program, s') && Emitted(s', p) == CountOf(LinesOf(Logged(program, s'.endings)), p)
  {
    match e {
      case Write(id) => WriteKeepsEmitted(program, s, id, p);
      case Decide(id) => DecideEmitsLogged(program, s, id, p);
      case End(id, ending) =>
        OtherStepsKeepEmitted(program, s, e, p);
        LoggedSnoc(program, s.endings, ending);
      case _ => OtherStepsKeepEmitted(program, s, e, p);
    }
  }

  lemma DecideEmitsLogged(program: Program, s: State, id: nat, p: Line -> bool)
    requires Possible(s, Decide(id)) && Waiting(program, s)
    requires Emitted(s, p) == CountOf(LinesOf(Logged(program, s.endings)), p)
    ensures var s' := Do(program, s, Decide(id));
            Emitted(s', p) == CountOf(LinesOf(Logged(program, s'.endings)), p)
  {
    DecideEmits(program, s, id, p);
    LoggedSnoc(program, s.endings, s.requests[id].ending);
    CountLinesSnoc(Logged(program, s.endings), s.requests[id].ending, p);
  }

  // So every route has one line per server error and per adjacent change of its other statuses.
  lemma RunEmitsExpected(program: Program, schedule: seq<Event>, route: string)
    ensures var s := After(program, schedule);
            Emitted(s, OnRoute(route)) == Expected(StatusesOf(History(program, s.endings), route))
  {
    RunEmitsLogged(program, schedule, OnRoute(route));
    LoggedIsExpected(program, After(program, schedule).endings, route);
  }

  // In particular, on a route that only ever answers with one status: a line each time from 500 up, and
  // none below.
  lemma OneStatusRuns(program: Program, schedule: seq<Event>, route: string, status: int)
    requires forall i :: 0 <= i < |After(program, schedule).endings| ==>
               After(program, schedule).endings[i] == Response(Line(route, status))
    ensures var s := After(program, schedule);
            Emitted(s, OnRoute(route)) == if status >= 500 then |s.endings| else 0
  {
    var s := After(program, schedule);
    RunEmitsExpected(program, schedule, route);
    OneStatusHistory(program, s.endings, route, status);
  }

  lemma {:induction false} OneStatusHistory(program: Program, endings: seq<Ending>, route: string, status: int)
    requires forall i :: 0 <= i < |endings| ==> endings[i] == Response(Line(route, status))
    ensures var statuses := StatusesOf(History(program, endings), route);
            && |statuses| == |endings| && (forall i :: 0 <= i < |statuses| ==> statuses[i] == status)
            && Expected(statuses) == if status >= 500 then |endings| else 0
  {
    if endings != [] {
      var init, e := endings[..|endings| - 1], endings[|endings| - 1];
      assert endings == init + [e];
      OneStatusHistory(program, init, route, status);
      HistorySnoc(program, init, e);
      StatusesSnoc(History(program, init), Line(route, status), route);
      OneStatusMore(StatusesOf(History(program, init), route), status);
    }
  }

  lemma OneStatusMore(statuses: seq<int>, status: int)
    requires forall i :: 0 <= i < |statuses| ==> statuses[i] == status
    ensures Expected(statuses + [status]) == Expected(statuses) + if status >= 500 then 1 else 0
  {
    ExpectedSnoc(statuses, status);
    OthersAreSome(statuses);
  }

  lemma {:induction false} OthersAreSome(statuses: seq<int>)
    ensures forall i :: 0 <= i < |Others(statuses)| ==> Others(statuses)[i] in statuses
  {
    if statuses != [] {
      OthersAreSome(statuses[..|statuses| - 1]);
    }
  }

  // ---------- where the programs agree ----------

  function Responses(endings: seq<Ending>): seq<Ending> {
    if endings == [] then []
    else
      var init, last := Responses(endings[..|endings| - 1]), endings[|endings| - 1];
      if last.Response? then init + [last] else init
  }

  function Failures(endings: seq<Ending>): seq<Ending> {
    if endings == [] then []
    else
      var init, last := Failures(endings[..|endings| - 1]), endings[|endings| - 1];
      if last.Response? then init else init + [last]
  }

  lemma SplitSnoc(endings: seq<Ending>, e: Ending)
    ensures Responses(endings + [e]) == if e.Response? then Responses(endings) + [e] else Responses(endings)
    ensures Failures(endings + [e]) == if e.Response? then Failures(endings) else Failures(endings) + [e]
  {
    assert (endings + [e])[..|endings|] == endings;
  }

  // The programs remember alike and decide alike on every request that returns, whatever fails in
  // between; what Python logs besides is all the failures.
  lemma {:induction false} ProgramsDecideAlike(endings: seq<Ending>)
    ensures LastOf(History(Go, endings)) == LastOf(History(Python, endings))
    ensures Logged(Go, endings) == Responses(Logged(Python, endings))
    ensures Failures(Logged(Python, endings)) == Failures(endings)
  {
    if endings != [] {
      var init, e := endings[..|endings| - 1], endings[|endings| - 1];
      assert endings == init + [e];
      ProgramsDecideAlike(init);
      SplitSnoc(Logged(Python, init), e);
      LastOfSnoc(History(Python, init), LineOf(e));
      LastOfSnoc(History(Go, init), LineOf(e));
    }
  }

  // Go decides the same whether or not there are panics in between.
  lemma {:induction false} GoSeesResponses(endings: seq<Ending>)
    ensures History(Go, Responses(endings)) == History(Go, endings)
    ensures Logged(Go, Responses(endings)) == Logged(Go, endings)
  {
    if endings != [] {
      var init, e := endings[..|endings| - 1], endings[|endings| - 1];
      GoSeesResponses(init);
      if e.Response? {
        HistorySnoc(Go, Responses(init), e);
        LoggedSnoc(Go, Responses(init), e);
      }
    }
  }

  lemma {:induction false} CountSplits(endings: seq<Ending>, p: Line -> bool)
    ensures CountOf(LinesOf(endings), p) ==
            CountOf(LinesOf(Responses(endings)), p) + CountOf(LinesOf(Failures(endings)), p)
  {
    if endings != [] {
      var init, e := endings[..|endings| - 1], endings[|endings| - 1];
      assert endings == init + [e];
      CountSplits(init, p);
      CountLinesSnoc(init, e, p);
      CountLinesSnoc(Responses(init), e, p);
      CountLinesSnoc(Failures(init), e, p);
    }
  }

  lemma {:induction false} FailuresFail(endings: seq<Ending>)
    ensures forall i :: 0 <= i < |Failures(endings)| ==> Failures(endings)[i].Failure?
  {
    if endings != [] {
      FailuresFail(endings[..|endings| - 1]);
    }
  }

  // Any Go run and any Python run in which the same responses are decided on in the same order: whatever
  // the schedules and the failures, the lines of the Python run, written or about to be, are those of the
  // Go run and one for each of its own failures, with status 500 on the failure's path.
  lemma ProgramsAgreeOnResponses(go: seq<Event>, python: seq<Event>, p: Line -> bool)
    requires Responses(After(Go, go).endings) == Responses(After(Python, python).endings)
    ensures Emitted(After(Python, python), p) ==
            Emitted(After(Go, go), p) + CountOf(LinesOf(Failures(After(Python, python).endings)), p)
    ensures var failures := Failures(After(Python, python).endings);
            forall i :: 0 <= i < |failures| ==>
              failures[i].Failure? && LinesOf(failures)[i] == Line(failures[i].path, 500)
  {
    FailuresFail(After(Python, python).endings);
    var mine, others := After(Python, python).endings, After(Go, go).endings;
    RunEmitsLogged(Go, go, p);
    RunEmitsLogged(Python, python, p);
    GoSeesResponses(mine);
    GoSeesResponses(others);
    ProgramsDecideAlike(mine);
    CountSplits(Logged(Python, mine), p);
  }

  // ---------- the two programs ----------

  // What a decision leaves behind.
  lemma Decided(program: Program, s: State, id: nat)
    requires Possible(s, Decide(id)) && Waiting(program, s)
    ensures var ending := s.requests[id].ending;
            var line, last := LineOf(ending), LastOf(History(program, s.endings));
            var s' := Do(program, s, Decide(id));
            && s' == State(s.requests[id := Observed(line, ShouldLog(last, line))], s.endings + [ending], s.log)
            && LastOf(History(program, s'.endings)) == Remember(last, line)
            && Waiting(program, s')
            && |s'.requests| == |s.requests| && InHandler(s'.requests) == InHandler(s.requests)
  {
    var ending := s.requests[id].ending;
    HistorySnoc(program, s.endings, ending);
    LastOfSnoc(History(program, s.endings), LineOf(ending));
    assert Do(program, s, Decide(id)).requests.Keys == s.requests.Keys;
  }

  // WrapHTTP.
  class GoTelemetry {
    var inflight: int
    var routeLastStatus: map<string, int>
    var log: seq<Line>
    var requests: map<nat, Phase>
    ghost var endings: seq<Ending>

    ghost function Contents(): State
      reads this
    {
      State(requests, endings, log)
    }

    ghost predicate Valid()
      reads this
    {
      && inflight == |requests|
      && routeLastStatus == LastOf(History(Go, endings))
      && Waiting(Go, Contents())
    }

    constructor ()
      ensures Valid() && Contents() == State(map[], [], [])
    {
      inflight, routeLastStatus, log, requests := 0, map[], [], map[];
      endings := [];
    }

    method Enter(id: nat)
      requires Valid() && id !in requests
      modifies this
      ensures Valid() && Contents() == Do(Go, old(Contents()), Arrive(id))
    {
      inflight := inflight + 1;
      requests := requests[id := Serving];
    }

    method Return(id: nat, line: Line)
      requires Valid() && id in requests && requests[id].Serving?
      modifies this
      ensures Valid() && Contents() == Do(Go, old(Contents()), End(id, Response(line)))
    {
      requests := requests[id := Returned(Response(line))];
      assert requests.Keys == old(requests.Keys);
    }

    // A panic: of WrapHTTP only the deferred decrement happens.
    method Unwind(id: nat, path: string)
      requires Valid() && id in requests && requests[id].Serving?
      modifies this
      ensures Valid() && Contents() == Do(Go, old(Contents()), End(id, Failure(path)))
    {
      HistorySnoc(Go, endings, Failure(path));
      Dec(id);
      endings := endings + [Failure(path)];
    }

    method Observe(id: nat)
      requires Valid() && id in requests && requests[id].Returned?
      modifies this
      ensures Valid() && Contents() == Do(Go, old(Contents()), Decide(id))
    {
      Decided(Go, Contents(), id);
      var ending := requests[id].ending;
      var shouldLog := DecideLine(ending.line);
      requests := requests[id := Observed(ending.line, shouldLog)];
      endings := endings + [ending];
    }

    // Whether to log, under the lock for statuses below 500.
    method DecideLine(line: Line) returns (shouldLog: bool)
      modifies this`routeLastStatus
      ensures shouldLog == ShouldLog(old(routeLastStatus), line)
      ensures routeLastStatus == Remember(old(routeLastStatus), line)
    {
      shouldLog := false;
      if line.status >= 500 {
        shouldLog := true;
      } else {
        if line.route in routeLastStatus && routeLastStatus[line.route] != line.status {
          shouldLog := true;
        }
        routeLastStatus := routeLastStatus[line.route := line.status];
      }
    }

    method Emit(id: nat)
      requires Valid() && id in requests && requests[id].Observed? && requests[id].logs
      modifies this
      ensures Valid() && Contents() == Do(Go, old(Contents()), Write(id))
    {
      log := log + [requests[id].line];
      requests := requests[id := Observed(requests[id].line, false)];
      assert requests.Keys == old(requests.Keys);
    }

    method Leave(id: nat)
      requires Valid() && id in requests && requests[id].Observed? && !requests[id].logs
      modifies this
      ensures Valid() && Contents() == Do(Go, old(Contents()), Depart(id))
    {
      Dec(id);
    }

    // The deferred Dec.
    method Dec(id: nat)
      requires id in requests && inflight == |requests|
      modifies this`inflight, this`requests
      ensures inflight == |requests| && requests == old(requests) - {id}
    {
      inflight := inflight - 1;
      requests := requests - {id};
      assert old(requests.Keys) == requests.Keys + {id};
    }
  }

  function InHandler(requests: map<nat, Phase>): set<nat> {
    set id | id in requests && requests[id].Serving?
  }

  // observability_middleware. The gauge goes down before the decision.
  class PyTelemetry {
    var inflight: int
    var routeLastStatus: map<string, int>
    var log: seq<Line>
    var requests: map<nat, Phase>
    ghost var endings: seq<Ending>

    ghost function Contents(): State
      reads this
    {
      State(requests, endings, log)
    }

    ghost predicate Valid()
      reads this
    {
      && inflight == |InHandler(requests)|
      && routeLastStatus == LastOf(History(Python, endings))
    }

    constructor ()
      ensures Valid() && Contents() == State(map[], [], [])
    {
      inflight, routeLastStatus, log, requests := 0, map[], [], map[];
      endings := [];
    }

    method Enter(id: nat)
      requires Valid() && id !in requests
      modifies this
      ensures Valid() && Contents() == Do(Python, old(Contents()), Arrive(id))
    {
      inflight := inflight + 1;
      requests := requests[id := Serving];
      assert InHandler(requests) == old(InHandler(requests)) + {id};
    }

    // call_next is over, one way or the other.
    method Return(id: nat, ending: Ending)
      requires Valid() && id in requests && requests[id].Serving?
      modifies this
      ensures Valid() && Contents() == Do(Python, old(Contents()), End(id, ending))
    {
      inflight := inflight - 1;
      requests := requests[id := Returned(ending)];
      assert old(InHandler(requests)) == InHandler(requests) + {id};
    }

    method Observe(id: nat)
      requires Valid() && id in requests && requests[id].Returned?
      modifies this
      ensures Valid() && Contents() == Do(Python, old(Contents()), Decide(id))
    {
      Decided(Python, Contents(), id);
      var ending := requests[id].ending;
      var line := if ending.Response? then ending.line else Line(ending.path, 500);
      var shouldLog := DecideLine(line);
      requests := requests[id := Observed(line, shouldLog)];
      endings := endings + [ending];
    }

    // Whether to log, under the lock for statuses below 500.
    method DecideLine(line: Line) returns (shouldLog: bool)
      modifies this`routeLastStatus
      ensures shouldLog == ShouldLog(old(routeLastStatus), line)
      ensures routeLastStatus == Remember(old(routeLastStatus), line)
    {
      shouldLog := false;
      if line.status >= 500 {
        shouldLog := true;
      } else {
        if line.route in routeLastStatus && routeLastStatus[line.route] != line.status {
          shouldLog := true;
        }
        routeLastStatus := routeLastStatus[line.route := line.status];
      }
    }

    method Emit(id: nat)
      requires Valid() && id in requests && requests[id].Observed? && requests[id].logs
      modifies this
      ensures Valid() && Contents() == Do(Python, old(Contents()), Write(id))
    {
      log := log + [requests[id].line];
      requests := requests[id := Observed(requests[id].line, false)];
      assert InHandler(requests) == old(InHandler(requests));
    }

    method Leave(id: nat)
      requires Valid() && id in requests && requests[id].Observed? && !requests[id].logs
      modifies this
      ensures Valid() && Contents() == Do(Python, old(Contents()), Depart(id))
    {
      requests := requests - {id};
      assert InHandler(requests) == old(InHandler(requests));
    }
  }

  // The program run on any schedule gets exactly where After says; its gauge is the number of requests
  // that have arrived and not departed, and each route has, written or about to be, one line per server
  // error and per adjacent change of its other statuses.
  method RunGo(schedule: seq<Event>) returns (t: GoTelemetry)
    ensures t.Contents() == After(Go, schedule)
    ensures t.inflight == |After(Go, schedule).requests|
    ensures forall route :: Emitted(t.Contents(), OnRoute(route)) ==
                            Expected(StatusesOf(History(Go, After(Go, schedule).endings), route))
  {
    t := new GoTelemetry();
    for i := 0 to |schedule|
      invariant fresh(t) && t.Valid() && t.Contents() == After(Go, schedule[..i])
    {
      assert schedule[..i + 1][..i] == schedule[..i];
      match schedule[i] {
        case Arrive(id) => if id !in t.requests { t.Enter(id); }
        case End(id, ending) =>
          if id in t.requests && t.requests[id].Serving? {
            if ending.Response? { t.Return(id, ending.line); } else { t.Unwind(id, ending.path); }
          }
        case Decide(id) => if id in t.requests && t.requests[id].Returned? { t.Observe(id); }
        case Write(id) => if id in t.requests && t.requests[id].Observed? && t.requests[id].logs { t.Emit(id); }
        case Depart(id) => if id in t.requests && t.requests[id].Observed? && !t.requests[id].logs { t.Leave(id); }
      }
    }
    assert schedule[..|schedule|] == schedule;
    forall route { RunEmitsExpected(Go, schedule, route); }
  }

  // The same for Python, where the gauge counts the requests inside their handlers.
  method RunPy(schedule: seq<Event>) returns (t: PyTelemetry)
    ensures t.Contents() == After(Python, schedule)
    ensures t.inflight == |InHandler(After(Python, schedule).requests)|
    ensures forall route :: Emitted(t.Contents(), OnRoute(route)) ==
                            Expected(StatusesOf(History(Python, After(Python, schedule).endings), route))
  {
    t := new PyTelemetry();
    for i := 0 to |schedule|
      invariant fresh(t) && t.Valid() && t.Contents() == After(Python, schedule[..i])
    {
      assert schedule[..i + 1][..i] == schedule[..i];
      match schedule[i] {
        case Arrive(id) => if id !in t.requests { t.Enter(id); }
        case End(id, ending) => if id in t.requests && t.requests[id].Serving? { t.Return(id, ending); }
        case Decide(id) => if id in t.requests && t.requests[id].Returned? { t.Observe(id); }
        case Write(id) => if id in t.requests && t.requests[id].Observed? && t.requests[id].logs { t.Emit(id); }
        case Depart(id) => if id in t.requests && t.requests[id].Observed? && !t.requests[id].logs { t.Leave(id); }
      }
    }
    assert schedule[..|schedule|] == schedule;
    forall route { RunEmitsExpected(Python, schedule, route); }
  }
}
