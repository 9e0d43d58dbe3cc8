/** The app's keeper loop: a mode and a stop flag shared by start requests, stop requests and
    the loop itself, each touching them in atomic steps. */
module KeeperLoop {
  import opened Prelude

  datatype Mode = Idle | Running | Alert(message: string)

  /** Where a spawned loop stands between its atomic steps. */
  datatype Pc =
    | AtCheck
    | InStep
    | Rejecting(message: string)
    | Leaving

  /** The shared control, every stop flag ever allocated, and the live loops, each known by
      its flag. */
  datatype App = App(mode: Mode, stop: Option<nat>, flags: seq<bool>, loops: map<nat, Pc>)

  datatype Event =
    | Start
    | Stop
    | Check(id: nat)
    | StepEnds(id: nat, rejected: Option<string>)
    | Park(id: nat)
    | Leave(id: nat)

  const INITIAL: App := App(Idle, None, [], map[])

  /** A loop's own events need the loop to be at the matching place; requests are always open. */
  predicate Enabled(s: App, e: Event) {
    match e
    case Start => true
    case Stop => true
    case Check(id) => id in s.loops && s.loops[id] == AtCheck && id < |s.flags|
    case StepEnds(id, _) => id in s.loops && s.loops[id] == InStep
    case Park(id) => id in s.loops && s.loops[id].Rejecting?
    case Leave(id) => id in s.loops && s.loops[id] == Leaving
  }

  function Next(s: App, e: Event): App
    requires Enabled(s, e)
  {
    match e
    case Start =>
      if s.mode == Running then s
      else App(Running, Some(|s.flags|), s.flags + [false], s.loops[|s.flags| := AtCheck])
    case Stop =>
      if s.mode == Running && s.stop.Some? && s.stop.value < |s.flags| then s.(flags := s.flags[s.stop.value := true])
      else if s.mode.Alert? then s.(mode := Idle)
      else s
    case Check(id) => s.(loops := s.loops[id := if s.flags[id] then Leaving else InStep])
    case StepEnds(id, rejected) =>
      s.(loops := s.loops[id := match rejected case Some(m) => Rejecting(m) case None => AtCheck])
    case Park(id) => App(Alert(s.loops[id].message), None, s.flags, s.loops - {id})
    case Leave(id) => App(Idle, None, s.flags, s.loops - {id})
  }

  // ----- the shared object

  class AppState {
    var mode: Mode
    var stop: Option<nat>
    var flags: seq<bool>
    ghost var loops: map<nat, Pc>

    constructor ()
      ensures View() == INITIAL
    {
      mode, stop, flags, loops := Idle, None, [], map[];
    }

    ghost function View(): App reads this { App(mode, stop, flags, loops) }

    /** Ask a running loop to stop, or acknowledge an alert. */
    method RequestKeeperStop() returns (answer: string)
      modifies this
      ensures View() == Next(old(View()), Stop)
      ensures answer == "stopping" <==> old(mode == Running && stop.Some? && stop.value < |flags|)
    {
      if mode == Running && stop.Some? && stop.value < |flags| {
        flags := flags[stop.value := true];
        return "stopping";
      }
      if mode.Alert? {
        mode := Idle;
      }
      return "idle";
    }

    /** Start a loop on a fresh flag unless one is running. */
    method StartKeeper() returns (started: Option<nat>)
      modifies this
      ensures View() == Next(old(View()), Start)
      ensures started.None? <==> old(mode) == Running
      ensures started.Some? ==> started.value in loops && stop == started
    {
      if mode == Running {
        return None;
      }
      started := Some(|flags|);
      mode, stop := Running, started;
      loops := loops[|flags| := AtCheck];
      flags := flags + [false];
    }

    /** The loop condition: true means one more step. */
    method KeepsGoing(id: nat) returns (go: bool)
      requires Enabled(View(), Check(id))
      modifies this`loops
      ensures View() == Next(old(View()), Check(id))
      ensures go == !old(flags)[id]
    {
      go := !flags[id];
      loops := loops[id := if go then InStep else Leaving];
    }

    /** A rejection parks the loop in the sticky alert. */
    method ParkInAlert(id: nat, message: string)
      requires Enabled(View(), Park(id)) && loops[id].message == message
      modifies this
      ensures View() == Next(old(View()), Park(id))
    {
      mode, stop := Alert(message), None;
      loops := loops - {id};
    }

    /** The normal end of the loop. */
    method Finish(id: nat)
      requires Enabled(View(), Leave(id))
      modifies this
      ensures View() == Next(old(View()), Leave(id))
    {
      mode, stop := Idle, None;
      loops := loops - {id};
    }
  }

  // ----- every interleaving

  ghost predicate Valid(s: App, run: seq<Event>)
    decreases |run|
  {
    run == [] || (Enabled(s, run[0]) && Valid(Next(s, run[0]), run[1..]))
  }

  function After(s: App, run: seq<Event>): App
    requires Valid(s, run)
    decreases |run|
  {
    if run == [] then s else After(Next(s, run[0]), run[1..])
  }

  /** Running means exactly one live loop, and the stored flag is that loop's; otherwise no
      loop is live and no flag is stored. */
  ghost predicate Inv(s: App) {
    && (s.mode == Running <==> s.stop.Some?)
    && s.loops.Keys == (if s.stop.Some? then {s.stop.value} else {})
    && (s.stop.Some? ==> s.stop.value < |s.flags|)
  }

  lemma NextKeepsInv(s: App, e: Event)
    requires Inv(s) && Enabled(s, e)
    ensures Inv(Next(s, e))
  {
    var s' := Next(s, e);
    match e
    case Start => assert s.mode != Running ==> s'.loops.Keys == {|s.flags|};
    case Check(id) => assert s'.loops.Keys == s.loops.Keys;
    case StepEnds(id, r) => assert s'.loops.Keys == s.loops.Keys;
    case Park(id) => assert s'.loops.Keys == {};
    case Leave(id) => assert s'.loops.Keys == {};
    case Stop =>
  }

  lemma {:induction false} EveryRunKeepsInv(s: App, run: seq<Event>)
    requires Inv(s) && Valid(s, run)
    ensures Inv(After(s, run))
    decreases |run|
  {
    if run != [] {
      NextKeepsInv(s, run[0]);
      EveryRunKeepsInv(Next(s, run[0]), run[1..]);
    }
  }

  /** An alert is sticky: no loop is live to disturb it, and only two events are open, its
      acknowledgement and a restart. */
  lemma OnlyRequestsMoveAnAlert(s: App, e: Event)
    requires Inv(s) && s.mode.Alert? && Enabled(s, e)
    ensures e == Start || e == Stop
    ensures Next(s, e).mode == if e == Start then Running else Idle
  {
    assert s.loops.Keys == {};
  }

  /** The events of one loop in a run. */
  function Own(run: seq<Event>, id: nat): nat {
    if run == [] then 0 else (if OwnedBy(run[0], id) then 1 else 0) + Own(run[1..], id)
  }

  /** The steps of one loop that end in a run. */
  function Steps(run: seq<Event>, id: nat): nat {
    if run == [] then 0
    else (if run[0].StepEnds? && run[0].id == id then 1 else 0) + Steps(run[1..], id)
  }

  predicate OwnedBy(e: Event, id: nat) {
    match e
    case Start => false
    case Stop => false
    case Check(i) => i == id
    case StepEnds(i, _) => i == id
    case Park(i) => i == id
    case Leave(i) => i == id
  }

  /** The events a loop still has in it once its flag is up. */
  function Remaining(s: App, id: nat): nat {
    if id !in s.loops then 0
    else match s.loops[id]
         case Leaving => 1
         case Rejecting(_) => 1
         case AtCheck => 2
         case InStep => 3
  }

  lemma FlagStaysUp(s: App, e: Event, id: nat)
    requires Inv(s) && Enabled(s, e) && id < |s.flags| && s.flags[id]
    ensures var s' := Next(s, e);
            && id < |s'.flags| && s'.flags[id]
            && Remaining(s', id) <= Remaining(s, id) - (if OwnedBy(e, id) then 1 else 0)
            && (e.StepEnds? && e.id == id ==> id in s.loops && s.loops[id] == InStep)
            && (id in s'.loops && s'.loops[id] == InStep ==> id in s.loops && s.loops[id] == InStep && !OwnedBy(e, id))
  {
  }

  /** Once its flag is up a loop takes at most the step it is in, and is gone after at most
      three of its own moves, whatever the rest of the app does. */
  lemma {:induction false} StopEndsTheLoop(s: App, run: seq<Event>, id: nat)
    requires Inv(s) && Valid(s, run) && id < |s.flags| && s.flags[id]
    ensures Steps(run, id) <= if id in s.loops && s.loops[id] == InStep then 1 else 0
    ensures Own(run, id) + Remaining(After(s, run), id) <= Remaining(s, id) <= 3
    ensures Own(run, id) >= Remaining(s, id) ==> id !in After(s, run).loops
    decreases |run|
  {
    if run != [] {
      FlagStaysUp(s, run[0], id);
      NextKeepsInv(s, run[0]);
      StopEndsTheLoop(Next(s, run[0]), run[1..], id);
    }
  }

  /** A stop accepted while running raises the flag of the one live loop, and that loop can
      always move: it is never stuck short of its end. */
  lemma AcceptedStopReachesTheLoop(s: App)
    requires Inv(s) && s.mode == Running
    ensures var id := s.stop.value;
            && id in s.loops && Next(s, Stop).flags[id]
            && Next(s, Stop).loops == s.loops && Next(s, Stop).mode == Running
            && exists e :: OwnedBy(e, id) && Enabled(Next(s, Stop), e)
  {
    var id := s.stop.value;
    assert id in s.loops.Keys;
    var s' := Next(s, Stop);
    match s'.loops[id]
    case AtCheck => assert OwnedBy(Check(id), id) && Enabled(s', Check(id));
    case InStep => assert OwnedBy(StepEnds(id, None), id) && Enabled(s', StepEnds(id, None));
    case Rejecting(_) => assert OwnedBy(Park(id), id) && Enabled(s', Park(id));
    case Leaving => assert OwnedBy(Leave(id), id) && Enabled(s', Leave(id));
  }

  /** A rejection becomes an alert: the loop's next move, and its only one, parks it with the
      rejection's own message. */
  lemma ARejectionAlerts(s: App, id: nat, message: string, e: Event)
    requires Inv(s) && Enabled(s, StepEnds(id, Some(message)))
    ensures var rejected := Next(s, StepEnds(id, Some(message)));
            && Enabled(rejected, Park(id))
            && (Enabled(rejected, e) && OwnedBy(e, id) ==> e == Park(id))
            && Next(rejected, Park(id)).mode == Alert(message) && id !in Next(rejected, Park(id)).loops
  {
  }

  /** Requests, from every mode: a start begins one loop on a lowered flag unless one runs; a stop
      raises a running loop's flag, clears an alert, and does nothing to an idle app. */
  lemma RequestsDoTheirWork(s: App)
    requires Inv(s)
    ensures s.mode == Running ==> Next(s, Start) == s
    ensures s.mode != Running ==>
              var t := Next(s, Start);
              t.mode == Running && t.stop == Some(|s.flags|) && t.loops == map[|s.flags| := AtCheck]
              && t.flags == s.flags + [false]
    ensures s.mode == Running ==> Next(s, Stop) == s.(flags := s.flags[s.stop.value := true])
    ensures s.mode.Alert? ==> Next(s, Stop) == s.(mode := Idle)
    ensures s.mode == Idle ==> Next(s, Stop) == s
  {
    if s.mode != Running {
      assert s.loops.Keys == {};
    }
  }

  /** The events that end or stop a loop. */
  predicate Ends(e: Event, id: nat) { e == Stop || (e.StepEnds? && e.id == id && e.rejected.Some?) }

  /** A loop that is neither stopped nor rejected goes on: it stays live in mode Running, and every
      check begins a step. */
  lemma {:induction false} AnUnstoppedLoopGoesOn(s: App, run: seq<Event>, id: nat)
    requires Inv(s) && Valid(s, run) && id in s.loops && id < |s.flags| && !s.flags[id]
    requires s.loops[id] == AtCheck || s.loops[id] == InStep
    requires forall i :: 0 <= i < |run| ==> !Ends(run[i], id)
    ensures var t := After(s, run);
            && t.mode == Running && id in t.loops && (t.loops[id] == AtCheck || t.loops[id] == InStep)
            && id < |t.flags| && !t.flags[id]
    ensures s.loops[id] == AtCheck ==> Next(s, Check(id)).loops[id] == InStep
    decreases |run|
  {
    assert id in s.loops.Keys;
    if run != [] {
      NextKeepsInv(s, run[0]);
      StepGoesOn(s, run[0], id);
      AnUnstoppedLoopGoesOn(Next(s, run[0]), run[1..], id);
    }
  }

  lemma StepGoesOn(s: App, e: Event, id: nat)
    requires Inv(s) && Enabled(s, e) && !Ends(e, id) && id in s.loops && id < |s.flags| && !s.flags[id]
    requires s.loops[id] == AtCheck || s.loops[id] == InStep
    ensures var t := Next(s, e);
            && id in t.loops && (t.loops[id] == AtCheck || t.loops[id] == InStep) && id < |t.flags| && !t.flags[id]
  {
    assert id in s.loops.Keys;
  }
}
