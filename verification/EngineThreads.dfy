/**
 * Any number of threads issuing events at once (vula/engine.py): every step of
 * the event decorator is a separate move, all fields are shared, and only the
 * lock keeps the threads apart.
 */
module EngineThreads {
  import opened Addresses
  import opened OrderedDict
  import opened Queryable
  import opened Peers
  import opened OrganizeModel
  import opened EngineSteps

  /** Where a thread is inside the event decorator. */
  datatype Phase =
    | Resting
    | Waiting(ev: Event)
    | Entered(ev: Event)
    | Copied(ev: Event)
    | Working(ev: Event, todo: seq<Task>)
    | Decided
    | ResultCleared
    | StateCleared

  /** What is known of an event once it is decided. */
  datatype Record = Record(ev: Event, writes: seq<Write>, ok: bool)

  /** The shared fields, the lock, the threads; and, for the record, the order in which the lock was taken. */
  datatype Config = Config(
    state: State,
    nextState: Option<State>,
    result: Option<Result>,
    holder: Option<nat>,
    threads: map<nat, Phase>,
    entered: seq<Event>,
    committed: seq<State>,
    records: seq<Record>)
  {
    function PhaseOf(t: nat): Phase {
      if t in threads then threads[t] else Resting
    }

    function At(t: nat, p: Phase): Config {
      this.(threads := threads[t := p])
    }
  }

  /** A thread calls an event method, or takes its next step. */
  datatype Move = Call(tid: nat, ev: Event) | Go(tid: nat)

  function Start(st: State): Config {
    Config(st, None, None, None, map[], [], [], [])
  }

  function Decide(c: Config, t: nat, ev: Event, ok: bool): Config {
    c.(threads := c.threads[t := Decided],
       committed := c.committed + [c.state],
       records := c.records + [Record(ev, if c.result.Some? then c.result.value.writes else [], ok)])
  }

  /**
   * One step on the shared copy: a write, or reading the record a refresh is about, or
   * the validation once nothing is left; an exception decides against the event.
   */
  function Work(c: Config, t: nat, ev: Event, todo: seq<Task>): Config {
    if c.nextState.None? || c.result.None? then Decide(c, t, ev, false)
    else if todo == [] then
      if SchemaOk(c.nextState.value) then Decide(c.(state := c.nextState.value), t, ev, true)
      else Decide(c, t, ev, false)
    else
      match todo[0]
      case Raise => Decide(c, t, ev, false)
      case Refresh(vk) =>
        if vk !in c.nextState.value.peers.at then Decide(c, t, ev, false)
        else c.At(t, Working(ev, Expanded(c.state, c.nextState.value, vk) + todo[1..]))
      case Make(w) =>
        var logged := c.(result := Some(c.result.value.(writes := c.result.value.writes + [w])));
        match ApplyWrite(c.nextState.value, w)
        case None => Decide(logged, t, ev, false)
        case Some(n) => logged.(nextState := Some(n)).At(t, Working(ev, todo[1..]))
  }

  function Proceed(c: Config, t: nat): Config {
    match c.PhaseOf(t)
    case Resting => c
    case Waiting(ev) =>
      if c.holder.None? then c.(holder := Some(t), entered := c.entered + [ev]).At(t, Entered(ev)) else c
    case Entered(ev) => c.(nextState := Some(c.state)).At(t, Copied(ev))
    case Copied(ev) => c.(result := Some(Result(ev, [], [], [], None))).At(t, Working(ev, Tasks(c.state, ev)))
    case Working(ev, todo) => Work(c, t, ev, todo)
    case Decided => c.(result := None).At(t, ResultCleared)
    case ResultCleared => c.(nextState := None).At(t, StateCleared)
    case StateCleared => c.(holder := None).At(t, Resting)
  }

  function Advance(c: Config, m: Move): Config {
    match m
    case Call(t, ev) => if c.PhaseOf(t).Resting? then c.At(t, Waiting(ev)) else c
    case Go(t) => Proceed(c, t)
  }

  function Exec(c: Config, moves: seq<Move>): Config {
    if moves == [] then c else Advance(Exec(c, moves[..|moves| - 1]), moves[|moves| - 1])
  }

  // ----- the invariant -----

  predicate Critical(p: Phase) {
    !p.Resting? && !p.Waiting?
  }

  ghost predicate Exclusive(c: Config) {
    forall t: nat :: Critical(c.PhaseOf(t)) <==> c.holder == Some(t)
  }

  /** The record of an event agrees with the event run alone on st. */
  predicate Agrees(r: Record, st: State, ev: Event) {
    var res := Step(st, ev).result;
    r.ev == ev && r.writes == res.writes && (r.ok <==> res.error.None?)
  }

  /** Events, states and records so far are those of running the events one at a time. */
  ghost predicate Serially(init: State, entered: seq<Event>, committed: seq<State>, records: seq<Record>) {
    && |committed| == |entered| && |records| == |entered|
    && forall i | 0 <= i < |entered| ::
         committed[i] == RunAll(init, entered[..i + 1]) && Agrees(records[i], RunAll(init, entered[..i]), entered[i])
  }

  ghost predicate Settled(c: Config, init: State) {
    Serially(init, c.entered, c.committed, c.records) && c.state == RunAll(init, c.entered)
  }

  /** ev has the lock and is not decided; everything before it is settled. */
  ghost predicate Undecided(c: Config, init: State, ev: Event) {
    && c.entered != [] && c.entered[|c.entered| - 1] == ev
    && Serially(init, c.entered[..|c.entered| - 1], c.committed, c.records)
    && c.state == RunAll(init, c.entered[..|c.entered| - 1])
  }

  /** What the event comes to when it is played on a copy of its own. */
  function Alone(st: State, ev: Event): Txn {
    Play(Begin(st, ev), st, Tasks(st, ev))
  }

  /** Playing what is left on the shared copy leads where the event alone does. */
  ghost predicate Midway(c: Config, ev: Event, todo: seq<Task>) {
    && c.nextState.Some? && c.result.Some? && c.result.value.error.None?
    && Play(Txn(c.nextState.value, c.result.value), c.state, todo) == Alone(c.state, ev)
  }

  ghost predicate InPhase(c: Config, init: State, p: Phase) {
    match p
    case Resting => false
    case Waiting(_) => false
    case Entered(ev) => Undecided(c, init, ev) && c.nextState.None? && c.result.None?
    case Copied(ev) => Undecided(c, init, ev) && c.nextState == Some(c.state) && c.result.None?
    case Working(ev, todo) => Undecided(c, init, ev) && Midway(c, ev, todo)
    case Decided => Settled(c, init)
    case ResultCleared => Settled(c, init) && c.result.None?
    case StateCleared => Settled(c, init) && c.result.None? && c.nextState.None?
  }

  ghost predicate Consistent(c: Config, init: State) {
    match c.holder
    case None => Settled(c, init) && c.nextState.None? && c.result.None?
    case Some(t) => InPhase(c, init, c.PhaseOf(t))
  }

  ghost predicate Good(c: Config, init: State) {
    Exclusive(c) && Consistent(c, init)
  }

  // ----- what a decision amounts to -----

  /** The event alone and its transaction agree on the copy, the writes and whether it fails. */
  lemma AloneIsRun(st: State, ev: Event)
    ensures Alone(st, ev) == Bare(Run(Begin(st, ev), st, ev))
  {
    assert Bare(Begin(st, ev)) == Begin(st, ev);
    PlayIsRun(Begin(st, ev), st, ev);
  }

  lemma FinishBare(st: State, t: Txn, b: Txn)
    requires b == Bare(t)
    ensures Finish(st, t).result.writes == b.result.writes
    ensures Finish(st, t).result.error.None? <==> !b.Failed() && SchemaOk(b.next)
    ensures Finish(st, t).state == if !b.Failed() && SchemaOk(b.next) then b.next else st
  {
  }

  lemma AloneIsStep(st: State, ev: Event, b: Txn)
    requires b == Alone(st, ev)
    ensures Step(st, ev).result.writes == b.result.writes
    ensures Step(st, ev).result.error.None? <==> !b.Failed() && SchemaOk(b.next)
    ensures Step(st, ev).state == if !b.Failed() && SchemaOk(b.next) then b.next else st
  {
    AloneIsRun(st, ev);
    FinishBare(st, Run(Begin(st, ev), st, ev), b);
  }

  lemma PrefixOfAllButLast(entered: seq<Event>, i: nat)
    requires i < |entered|
    ensures entered[..|entered| - 1][..i] == entered[..i]
  {
  }

  lemma SeriallyOneMore(init: State, entered: seq<Event>, committed: seq<State>, records: seq<Record>, st: State,
                        r: Record)
    requires entered != []
    requires var before := entered[..|entered| - 1];
             && Serially(init, before, committed, records)
             && st == RunAll(init, entered)
             && Agrees(r, RunAll(init, before), entered[|entered| - 1])
    ensures Serially(init, entered, committed + [st], records + [r])
  {
    forall i | 0 <= i < |entered|
      ensures (committed + [st])[i] == RunAll(init, entered[..i + 1])
      ensures Agrees((records + [r])[i], RunAll(init, entered[..i]), entered[i])
    {
      PrefixOfAllButLast(entered, i);
      if i < |entered| - 1 {
        PrefixOfAllButLast(entered, i + 1);
      } else {
        assert entered[..i + 1] == entered;
      }
    }
  }

  lemma DecisionSettles(c: Config, init: State, ev: Event, d: Config, t: nat, ok: bool)
    requires Undecided(c, init, ev)
    requires d.entered == c.entered && d.committed == c.committed && d.records == c.records && d.result.Some?
    requires d.state == Step(c.state, ev).state
    requires Agrees(Record(ev, d.result.value.writes, ok), c.state, ev)
    ensures Settled(Decide(d, t, ev, ok), init)
  {
    SeriallyOneMore(init, c.entered, c.committed, c.records, d.state, Record(ev, d.result.value.writes, ok));
  }

  /** Nothing is left: the schema decides. */
  lemma WorkEnds(c: Config, init: State, t: nat, ev: Event)
    requires Undecided(c, init, ev) && Midway(c, ev, [])
    ensures Settled(Work(c, t, ev, []), init) && Work(c, t, ev, []).PhaseOf(t).Decided?
  {
    var now := Txn(c.nextState.value, c.result.value);
    PlayEmpty(now, c.state);
    AloneIsStep(c.state, ev, now);
    if SchemaOk(c.nextState.value) {
      DecisionSettles(c, init, ev, c.(state := c.nextState.value), t, true);
    } else {
      DecisionSettles(c, init, ev, c, t, false);
    }
  }

  /** The event fails here, with the writes logged so far. */
  lemma WorkFails(c: Config, init: State, t: nat, ev: Event, logged: Config, b: Txn)
    requires Undecided(c, init, ev) && b == Alone(c.state, ev) && b.Failed()
    requires logged.entered == c.entered && logged.committed == c.committed && logged.records == c.records
    requires logged.state == c.state && logged.result.Some? && logged.result.value.writes == b.result.writes
    ensures Settled(Decide(logged, t, ev, false), init) && Decide(logged, t, ev, false).PhaseOf(t).Decided?
  {
    AloneIsStep(c.state, ev, b);
    DecisionSettles(c, init, ev, logged, t, false);
  }

  lemma WorkRaises(c: Config, init: State, t: nat, ev: Event, todo: seq<Task>)
    requires Undecided(c, init, ev) && Midway(c, ev, todo) && todo != []
    requires todo[0].Raise? || (todo[0].Refresh? && todo[0].vk !in c.nextState.value.peers.at)
    ensures Settled(Work(c, t, ev, todo), init) && Work(c, t, ev, todo).PhaseOf(t).Decided?
  {
    WorkFails(c, init, t, ev, c, Txn(c.nextState.value, c.result.value).Fail(FailedWrite));
  }

  function AfterWrite(c: Config, w: Write): Config
    requires c.result.Some?
  {
    c.(result := Some(c.result.value.(writes := c.result.value.writes + [w])))
  }

  lemma WriteIsPlayed(c: Config, ev: Event, todo: seq<Task>)
    requires Midway(c, ev, todo) && todo != [] && todo[0].Make?
    ensures Play(Txn(c.nextState.value, c.result.value).Do(todo[0].write), c.state, todo[1..]) == Alone(c.state, ev)
  {
  }

  lemma WriteFails(c: Config, init: State, t: nat, ev: Event, todo: seq<Task>)
    requires Undecided(c, init, ev) && Midway(c, ev, todo) && todo != [] && todo[0].Make?
    requires ApplyWrite(c.nextState.value, todo[0].write).None?
    ensures Settled(Work(c, t, ev, todo), init) && Work(c, t, ev, todo).PhaseOf(t).Decided?
  {
    var b := Txn(c.nextState.value, c.result.value).Do(todo[0].write);
    WriteIsPlayed(c, ev, todo);
    PlayFailed(b, c.state, todo[1..]);
    WorkFails(c, init, t, ev, AfterWrite(c, todo[0].write), b);
  }

  lemma WriteGoesOn(c: Config, init: State, t: nat, ev: Event, todo: seq<Task>)
    requires Undecided(c, init, ev) && Midway(c, ev, todo) && todo != [] && todo[0].Make?
    requires ApplyWrite(c.nextState.value, todo[0].write).Some?
    ensures var d := Work(c, t, ev, todo);
            d.PhaseOf(t) == Working(ev, todo[1..]) && Undecided(d, init, ev) && Midway(d, ev, todo[1..])
  {
    WriteIsPlayed(c, ev, todo);
  }

  lemma RefreshGoesOn(c: Config, init: State, t: nat, ev: Event, todo: seq<Task>)
    requires Undecided(c, init, ev) && Midway(c, ev, todo) && todo != []
    requires todo[0].Refresh? && todo[0].vk in c.nextState.value.peers.at
    ensures var d := Work(c, t, ev, todo);
            var left := Expanded(c.state, c.nextState.value, todo[0].vk) + todo[1..];
            d.PhaseOf(t) == Working(ev, left) && Undecided(d, init, ev) && Midway(d, ev, left)
  {
  }

  lemma WorkGood(c: Config, init: State, t: nat, ev: Event, todo: seq<Task>)
    requires Undecided(c, init, ev) && Midway(c, ev, todo)
    ensures var d := Work(c, t, ev, todo); InPhase(d, init, d.PhaseOf(t)) && Critical(d.PhaseOf(t))
  {
    if todo == [] {
      WorkEnds(c, init, t, ev);
    } else if todo[0].Make? {
      if ApplyWrite(c.nextState.value, todo[0].write).None? {
        WriteFails(c, init, t, ev, todo);
      } else {
        WriteGoesOn(c, init, t, ev, todo);
      }
    } else if todo[0].Refresh? && todo[0].vk in c.nextState.value.peers.at {
      RefreshGoesOn(c, init, t, ev, todo);
    } else {
      WorkRaises(c, init, t, ev, todo);
    }
  }

  lemma DecideLeavesRest(c: Config, t: nat, ev: Event, ok: bool)
    ensures var d := Decide(c, t, ev, ok);
            d.holder == c.holder && d.entered == c.entered && forall u: nat | u != t :: d.PhaseOf(u) == c.PhaseOf(u)
  {
  }

  lemma WorkLeavesRest(c: Config, t: nat, ev: Event, todo: seq<Task>)
    ensures var d := Work(c, t, ev, todo);
            d.holder == c.holder && d.entered == c.entered && forall u: nat | u != t :: d.PhaseOf(u) == c.PhaseOf(u)
  {
    if c.nextState.None? || c.result.None? || todo == [] || !todo[0].Make? {
      DecideLeavesRest(c, t, ev, false);
    }
  }

  // ----- moves keep it -----

  lemma EnterGood(c: Config, init: State, t: nat, ev: Event)
    requires Settled(c, init) && c.nextState.None? && c.result.None?
    ensures InPhase(c.(holder := Some(t), entered := c.entered + [ev]).At(t, Entered(ev)), init, Entered(ev))
  {
    assert (c.entered + [ev])[..|c.entered|] == c.entered;
  }

  lemma BeginGood(c: Config, init: State, t: nat, ev: Event)
    requires InPhase(c, init, Copied(ev))
    ensures var todo := Tasks(c.state, ev);
            InPhase(c.(result := Some(Result(ev, [], [], [], None))).At(t, Working(ev, todo)), init, Working(ev, todo))
  {
  }

  lemma HolderStepGood(c: Config, init: State, t: nat)
    requires Good(c, init) && c.holder == Some(t)
    ensures Consistent(Proceed(c, t), init)
    ensures Proceed(c, t).holder == None || Proceed(c, t).holder == Some(t)
    ensures Critical(Proceed(c, t).PhaseOf(t)) <==> Proceed(c, t).holder == Some(t)
  {
    match c.PhaseOf(t)
    case Entered(_) =>
    case Copied(ev) => BeginGood(c, init, t, ev);
    case Working(ev, todo) =>
      WorkGood(c, init, t, ev, todo);
      WorkLeavesRest(c, t, ev, todo);
    case _ =>
  }

  lemma OtherPhasesKept(c: Config, t: nat, u: nat)
    requires u != t
    ensures Proceed(c, t).PhaseOf(u) == c.PhaseOf(u)
  {
    if c.PhaseOf(t).Working? {
      WorkLeavesRest(c, t, c.PhaseOf(t).ev, c.PhaseOf(t).todo);
    }
  }

  lemma StepGood(c: Config, init: State, t: nat)
    requires Good(c, init)
    ensures Good(Proceed(c, t), init)
  {
    forall u: nat | u != t ensures Proceed(c, t).PhaseOf(u) == c.PhaseOf(u) {
      OtherPhasesKept(c, t, u);
    }
    assert Critical(c.PhaseOf(t)) <==> c.holder == Some(t);
    if c.holder == Some(t) {
      HolderStepGood(c, init, t);
    } else if c.PhaseOf(t).Waiting? && c.holder.None? {
      EnterGood(c, init, t, c.PhaseOf(t).ev);
    }
  }

  lemma CallGood(c: Config, init: State, t: nat, ev: Event)
    requires Good(c, init) && c.PhaseOf(t).Resting?
    ensures Good(c.At(t, Waiting(ev)), init)
  {
    var d := c.At(t, Waiting(ev));
    assert !Critical(c.PhaseOf(t));
    forall u: nat ensures Critical(d.PhaseOf(u)) <==> d.holder == Some(u) {
      assert Critical(c.PhaseOf(u)) <==> c.holder == Some(u);
    }
  }

  lemma {:induction false} ExecGood(init: State, moves: seq<Move>)
    ensures Good(Exec(Start(init), moves), init)
  {
    if moves != [] {
      var c := Exec(Start(init), moves[..|moves| - 1]);
      ExecGood(init, moves[..|moves| - 1]);
      match moves[|moves| - 1]
      case Call(t, ev) => if c.PhaseOf(t).Resting? { CallGood(c, init, t, ev); }
      case Go(t) => StepGood(c, init, t);
    }
  }

  /** The events decided so far: all that took the lock, except one still running. */
  function DecidedEvents(c: Config): seq<Event> {
    if |c.committed| <= |c.entered| then c.entered[..|c.committed|] else c.entered
  }

  /** What is decided is serial, and the state in force is what it leads to. */
  ghost predicate SerialSoFar(c: Config, init: State) {
    && Serially(init, DecidedEvents(c), c.committed, c.records)
    && c.state == RunAll(init, DecidedEvents(c))
  }

  lemma SettledIsSerial(c: Config, init: State)
    requires Settled(c, init)
    ensures DecidedEvents(c) == c.entered && SerialSoFar(c, init)
  {
    assert c.entered[..|c.entered|] == c.entered;
  }

  lemma UndecidedIsSerial(c: Config, init: State, ev: Event)
    requires Undecided(c, init, ev)
    ensures |c.committed| == |c.entered| - 1 && SerialSoFar(c, init)
  {
  }

  lemma GoodIsSerial(c: Config, init: State)
    requires Consistent(c, init)
    ensures |c.entered| - 1 <= |c.committed| <= |c.entered| && SerialSoFar(c, init)
  {
    if c.holder.Some? && c.PhaseOf(c.holder.value).Entered? {
      UndecidedIsSerial(c, init, c.PhaseOf(c.holder.value).ev);
    } else if c.holder.Some? && c.PhaseOf(c.holder.value).Copied? {
      UndecidedIsSerial(c, init, c.PhaseOf(c.holder.value).ev);
    } else if c.holder.Some? && c.PhaseOf(c.holder.value).Working? {
      UndecidedIsSerial(c, init, c.PhaseOf(c.holder.value).ev);
    } else {
      SettledIsSerial(c, init);
    }
  }

  lemma FreeIsSettled(c: Config, init: State)
    requires Consistent(c, init)
    ensures c.holder.None? ==> DecidedEvents(c) == c.entered && c.nextState.None? && c.result.None?
  {
    assert c.entered[..|c.entered|] == c.entered;
  }

  /**
   * However the threads interleave: the committed states, and what each event wrote
   * and whether it succeeded, are those of running the events one at a time in the
   * order in which they took the lock; at most one of them is undecided; and while
   * the lock is free there is no copy and no result.
   */
  lemma EventsAreSerial(init: State, moves: seq<Move>)
    ensures var c := Exec(Start(init), moves);
            && |c.entered| - 1 <= |c.committed| <= |c.entered|
            && SerialSoFar(c, init)
            && (c.holder.None? ==> DecidedEvents(c) == c.entered && c.nextState.None? && c.result.None?)
  {
    ExecGood(init, moves);
    GoodIsSerial(Exec(Start(init), moves), init);
    FreeIsSettled(Exec(Start(init), moves), init);
  }

  /** Two threads are never inside an event at once. */
  lemma OneThreadInside(init: State, moves: seq<Move>, t: nat, u: nat)
    ensures var c := Exec(Start(init), moves);
            Critical(c.PhaseOf(t)) && Critical(c.PhaseOf(u)) ==> t == u
  {
    ExecGood(init, moves);
  }

  // ----- the lock is always released -----

  function StepsLeft(st: State, p: Phase): nat {
    match p
    case Entered(ev) => 6 + Weight(Tasks(st, ev))
    case Copied(ev) => 5 + Weight(Tasks(st, ev))
    case Working(_, todo) => 4 + Weight(todo)
    case Decided => 3
    case ResultCleared => 2
    case StateCleared => 1
    case _ => 0
  }

  /** A bound on the steps its holder needs to release the lock. */
  function Remaining(c: Config): nat {
    match c.holder
    case None => 0
    case Some(t) => StepsLeft(c.state, c.PhaseOf(t))
  }

  lemma WorkMovesOn(c: Config, t: nat, ev: Event, todo: seq<Task>)
    ensures var d := Work(c, t, ev, todo);
            && d.holder == c.holder
            && (|| d.PhaseOf(t) == Decided
                || (d.PhaseOf(t).Working? && Weight(d.PhaseOf(t).todo) < Weight(todo)))
  {
    if c.nextState.Some? && todo != [] && todo[0].Refresh? && todo[0].vk in c.nextState.value.peers.at {
      assert [todo[0]] + todo[1..] == todo;
      ExpandedWeighs(c.state, c.nextState.value, todo[0].vk, todo[1..]);
    }
  }

  lemma HolderProgresses(c: Config, t: nat)
    requires c.holder == Some(t) && Critical(c.PhaseOf(t))
    ensures Remaining(Proceed(c, t)) < Remaining(c)
  {
    match c.PhaseOf(t)
    case Working(ev, todo) => WorkMovesOn(c, t, ev, todo);
    case _ =>
  }

  lemma BystandersWait(c: Config, t: nat, m: Move)
    requires c.holder == Some(t) && Critical(c.PhaseOf(t))
    requires m.tid != t && !Critical(c.PhaseOf(m.tid))
    ensures Remaining(Advance(c, m)) == Remaining(c)
  {
    var d := Advance(c, m);
    assert d.holder == c.holder && d.state == c.state && d.PhaseOf(t) == c.PhaseOf(t);
  }

  /** Each step of the holder brings the release closer, and no other move pushes it back. */
  lemma LockIsReleased(c: Config, init: State, m: Move)
    requires Good(c, init) && c.holder.Some?
    ensures if m == Go(c.holder.value) then Remaining(Advance(c, m)) < Remaining(c)
            else Remaining(Advance(c, m)) == Remaining(c)
  {
    var t := c.holder.value;
    assert Critical(c.PhaseOf(t));
    if m == Go(t) {
      HolderProgresses(c, t);
    } else if m.tid != t {
      assert !Critical(c.PhaseOf(m.tid));
      BystandersWait(c, t, m);
    }
  }
}
