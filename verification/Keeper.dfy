/** The keeper's step machine: at most one action per block, and no second action on work
    that is still waiting to confirm. */
module KeeperStep {
  import opened Prelude
  import opened Chain
  import opened Oracle
  import opened Planner
  import opened Builders
  import opened Retry

  /** Blocks an acted-on vault stays off limits while its spend awaits a block. */
  const ACTED_RETRY_BLOCKS: nat := 6

  datatype Opts = Opts(pokeLag: nat, refreshLag: nat)

  /** What a step learns from the synced wallet: `indexed` holds every tracked vault, `known`
      those with a resolved owner, in outpoint order. */
  datatype View = View(height: nat, anchor: nat, indexed: set<OutPoint>, known: seq<OnChainVault>)

  /** One step's surroundings: the view (absent when syncing fails or the protocol is not
      live), and how the attempts of the action it picks fare. */
  datatype Env = Env(tick: OracleTick, view: Option<View>, attempt: nat -> Attempt, resync: nat -> bool)

  datatype Performed =
    | DidPoke(txid: nat)
    | DidRefresh(vault: OutPoint, txid: nat)
    | DidPartial(vault: OutPoint, dd: nat, txid: nat)
    | DidFullLiq(vault: OutPoint, txid: nat)
    | DidBadDebt(vault: OutPoint, txid: nat)
    | FoundResolved(vault: OutPoint)

  datatype StepResult = Idle | Did(what: Performed) | StepFailed

  /** The bookkeeping between steps: outpoint acted on -> height, (anchor, height) of the last
      poke, and the height of the last action. */
  datatype Book = Book(acted: map<OutPoint, nat>, poked: Option<(nat, nat)>, lastActed: Option<nat>)

  // ----- the step, on values

  function Waits(at: nat, height: nat): bool { height < SatAdd(at, ACTED_RETRY_BLOCKS, U32_MAX) }

  /** The acted-on vaults still indexed and inside their retry window. */
  function Pending(acted: map<OutPoint, nat>, v: View): map<OutPoint, nat> {
    map op | op in acted && op in v.indexed && Waits(acted[op], v.height) :: acted[op]
  }

  /** The verdict on every known vault, at the flat fee. */
  function Due(o: Opts, tick: OracleTick, v: View): (due: seq<Action>)
    ensures |due| == |v.known|
  {
    seq(|v.known|, i requires 0 <= i < |v.known| => Decide(v.known[i], tick, v.anchor, o.refreshLag, FEE))
  }

  /** The last of the most severe liquidations due among the first `n`, pending ones aside. */
  function Urgent(known: seq<OnChainVault>, due: seq<Action>, acted: map<OutPoint, nat>, n: nat): (u: Option<nat>)
    requires n <= |known| == |due|
    ensures u.Some? ==> u.value < n && known[u.value].outpoint !in acted && Rank(due[u.value]) > 0
  {
    if n == 0 then None
    else
      var best := Urgent(known, due, acted, n - 1);
      if known[n - 1].outpoint !in acted && Rank(due[n - 1]) > 0
         && (best.None? || Rank(due[n - 1]) >= Rank(due[best.value]))
      then Some(n - 1) else best
  }

  /** The first healthy vault to refresh from `n` on, pending ones aside. */
  function Lagging(known: seq<OnChainVault>, due: seq<Action>, acted: map<OutPoint, nat>, n: nat): (r: Option<nat>)
    requires n <= |known| == |due|
    ensures r.Some? ==> r.value < |known| && known[r.value].outpoint !in acted && due[r.value] == Refresh
    decreases |known| - n
  {
    if n == |known| then None
    else if known[n].outpoint !in acted && due[n] == Refresh then Some(n)
    else Lagging(known, due, acted, n + 1)
  }

  /** What an executed vault action reports. */
  function Report(vault: OutPoint, a: Action, out: Outcome): StepResult {
    match out
    case ResolvedElsewhere => Did(FoundResolved(vault))
    case Done(txid) =>
      (match a
       case Partial(dd, _) => Did(DidPartial(vault, dd, txid))
       case FullLiq => Did(DidFullLiq(vault, txid))
       case BadDebt => Did(DidBadDebt(vault, txid))
       case Refresh => Did(DidRefresh(vault, txid))
       case NoAction => Idle)
    case _ => StepFailed
  }

  function Executed(b: Book, vault: OutPoint, a: Action, out: Outcome, height: nat): (Book, StepResult) {
    var done := Report(vault, a, out);
    if done.Did? then (Book(b.acted[vault := height], b.poked, Some(height)), done) else (b, done)
  }

  /** A poke with its outcome. */
  function Poked(b: Book, v: View, out: Outcome): (Book, StepResult) {
    match out
    case Done(txid) => (b.(poked := Some((v.anchor, v.height)), lastActed := Some(v.height)), Did(DidPoke(txid)))
    case ResolvedElsewhere => (b, Idle)
    case _ => (b, StepFailed)
  }

  /** The duties, once no liquidation is due: the poke, then a refresh. */
  function Duties(o: Opts, b: Book, tickHeight: nat, v: View, due: seq<Action>, out: Outcome): (Book, StepResult)
    requires |due| == |v.known|
  {
    var waits := b.poked.Some? && b.poked.value.0 == v.anchor && Waits(b.poked.value.1, v.height);
    var b' := if waits then b else b.(poked := None);
    if b'.poked.None? && SatSub(tickHeight, v.anchor) > o.pokeLag then Poked(b', v, out)
    else
      var stale := Lagging(v.known, due, b'.acted, 0);
      if stale.Some? then Executed(b', v.known[stale.value].outpoint, Refresh, out, v.height)
      else (b', Idle)
  }

  /** The step once the verdicts are known and the one action it picks has an outcome. */
  function StepOn(o: Opts, b: Book, tickHeight: nat, v: View, due: seq<Action>, out: Outcome): (Book, StepResult)
    requires |due| == |v.known|
  {
    if b.lastActed == Some(v.height) then (b, Idle)
    else
      var b' := b.(acted := Pending(b.acted, v));
      var urgent := Urgent(v.known, due, b'.acted, |due|);
      if urgent.Some? then Executed(b', v.known[urgent.value].outpoint, due[urgent.value], out, v.height)
      else Duties(o, b', tickHeight, v, due, out)
  }

  function AfterStep(o: Opts, b: Book, e: Env): (Book, StepResult) {
    if e.view.None? then (b, StepFailed)
    else StepOn(o, b, e.tick.height, e.view.value, Due(o, e.tick, e.view.value),
                Retried(e.attempt, e.resync, Benign, 0))
  }

  // ----- the step, as the keeper runs it

  class Keeper {
    const opts: Opts
    var acted: map<OutPoint, nat>
    var poked: Option<(nat, nat)>
    var lastActedHeight: Option<nat>

    constructor (opts: Opts)
      ensures this.opts == opts && Bookkeeping() == Book(map[], None, None)
    {
      this.opts := opts;
      acted, poked, lastActedHeight := map[], None, None;
    }

    function Bookkeeping(): Book reads this { Book(acted, poked, lastActedHeight) }

    /** One pass: sync, decide over every known vault, execute the single most urgent action. */
    method Step(e: Env) returns (r: StepResult)
      modifies this
      ensures (Bookkeeping(), r) == AfterStep(opts, old(Bookkeeping()), e)
    {
      if e.view.None? { return StepFailed; }
      var v := e.view.value;
      if lastActedHeight == Some(v.height) { return Idle; }
      acted := map op | op in acted && op in v.indexed && Waits(acted[op], v.height) :: acted[op];
      var urgent, action := MostUrgent(e.tick, v);
      if urgent.Some? {
        r := ExecuteTracked(v.known[urgent.value].outpoint, action, e, v.height);
      } else {
        r := DoDuties(e, v);
      }
    }

    /** The duties, once no liquidation is due: the poke, then a refresh. */
    method DoDuties(e: Env, v: View) returns (r: StepResult)
      modifies this
      ensures (Bookkeeping(), r)
              == Duties(opts, old(Bookkeeping()), e.tick.height, v, Due(opts, e.tick, v),
                        Retried(e.attempt, e.resync, Benign, 0))
    {
      if poked.Some? && !(poked.value.0 == v.anchor && Waits(poked.value.1, v.height)) {
        poked := None;
      }
      if poked.None? && SatSub(e.tick.height, v.anchor) > opts.pokeLag {
        r := PokeTracked(e, v);
        return;
      }
      var stale := FirstStale(e.tick, v);
      if stale.Some? {
        r := ExecuteTracked(v.known[stale.value].outpoint, Refresh, e, v.height);
        return;
      }
      return Idle;
    }

    /** Poke and, on a broadcast, remember the anchor until it moves. */
    method PokeTracked(e: Env, v: View) returns (r: StepResult)
      modifies this
      ensures (Bookkeeping(), r) == Poked(old(Bookkeeping()), v, Retried(e.attempt, e.resync, Benign, 0))
    {
      var out, _ := RetryConflicts(e.attempt, e.resync, Benign);
      match out
      case Done(txid) =>
        poked := Some((v.anchor, v.height));
        lastActedHeight := Some(v.height);
        return Did(DidPoke(txid));
      case ResolvedElsewhere => return Idle;
      case _ => return StepFailed;
    }

    method MostUrgent(tick: OracleTick, v: View) returns (best: Option<nat>, action: Action)
      ensures best == Urgent(v.known, Due(opts, tick, v), acted, |v.known|)
      ensures best.Some? ==> action == Due(opts, tick, v)[best.value]
    {
      best, action := None, NoAction;
      ghost var due := Due(opts, tick, v);
      for n := 0 to |v.known|
        invariant best == Urgent(v.known, due, acted, n)
        invariant best.Some? ==> action == due[best.value]
      {
        if v.known[n].outpoint !in acted {
          var a := Decide(v.known[n], tick, v.anchor, opts.refreshLag, FEE);
          assert a == due[n];
          if Rank(a) > 0 && (best.None? || Rank(a) >= Rank(action)) {
            best, action := Some(n), a;
          }
        }
      }
    }

    method FirstStale(tick: OracleTick, v: View) returns (r: Option<nat>)
      ensures r == Lagging(v.known, Due(opts, tick, v), acted, 0)
    {
      ghost var due := Due(opts, tick, v);
      for n := 0 to |v.known|
        invariant Lagging(v.known, due, acted, n) == Lagging(v.known, due, acted, 0)
      {
        var a := Decide(v.known[n], tick, v.anchor, opts.refreshLag, FEE);
        assert a == due[n];
        if v.known[n].outpoint !in acted && a == Refresh {
          return Some(n);
        }
      }
      return None;
    }

    /** Execute and, on a report, put the vault on the acted list. */
    method ExecuteTracked(vault: OutPoint, a: Action, e: Env, height: nat) returns (r: StepResult)
      modifies this
      ensures (Bookkeeping(), r) ==
              Executed(old(Bookkeeping()), vault, a, Retried(e.attempt, e.resync, Benign, 0), height)
    {
      var out, _ := RetryConflicts(e.attempt, e.resync, Benign);
      r := Report(vault, a, out);
      if r.Did? {
        acted := acted[vault := height];
        lastActedHeight := Some(height);
      }
    }
  }

  // ----- what one step does

  lemma {:induction false} UrgentIsMostSevere(known: seq<OnChainVault>, due: seq<Action>, acted: map<OutPoint, nat>,
                                              n: nat)
    requires n <= |known| == |due|
    ensures var u := Urgent(known, due, acted, n);
            && (forall i :: 0 <= i < n && known[i].outpoint !in acted ==>
                  Rank(due[i]) <= if u.Some? then Rank(due[u.value]) else 0)
            && (u.Some? ==> forall i :: u.value < i < n && known[i].outpoint !in acted ==>
                  Rank(due[i]) < Rank(due[u.value]))
  {
    if n > 0 {
      UrgentIsMostSevere(known, due, acted, n - 1);
    }
  }

  /** A duty runs only when no liquidation is due on a vault that is not pending, and a
      liquidation that runs is one of the most severe ones due. */
  lemma LiquidationsComeFirst(o: Opts, b: Book, e: Env)
    requires AfterStep(o, b, e).1.Did?
    ensures e.view.Some?
    ensures var v, due, what := e.view.value, Due(o, e.tick, e.view.value), AfterStep(o, b, e).1.what;
            forall i :: 0 <= i < |v.known| && v.known[i].outpoint !in Pending(b.acted, v) ==>
              && (what.DidPoke? || what.DidRefresh? ==> Rank(due[i]) == 0)
              && (what.DidPartial? ==> Rank(due[i]) <= 1)
              && (what.DidFullLiq? ==> Rank(due[i]) <= 2)
  {
    var v := e.view.value;
    UrgentIsMostSevere(v.known, Due(o, e.tick, v), Pending(b.acted, v), |v.known|);
    StepSeverity(o, b, e.tick.height, v, Due(o, e.tick, v), Retried(e.attempt, e.resync, Benign, 0));
  }

  lemma StepSeverity(o: Opts, b: Book, tickHeight: nat, v: View, due: seq<Action>, out: Outcome)
    requires |due| == |v.known| && StepOn(o, b, tickHeight, v, due, out).1.Did?
    ensures var u := Urgent(v.known, due, Pending(b.acted, v), |due|);
            var what := StepOn(o, b, tickHeight, v, due, out).1.what;
            && (what.DidPoke? || what.DidRefresh? ==> u.None?)
            && (what.DidPartial? ==> u.Some? && Rank(due[u.value]) == 1)
            && (what.DidFullLiq? ==> u.Some? && Rank(due[u.value]) == 2)
  {
  }

  /** The vault a report is about. */
  function VaultOf(p: Performed): Option<OutPoint> {
    if p.DidPoke? then None else Some(p.vault)
  }

  /** A reported action moves the bookkeeping to this height, and was not about a vault, or
      an anchor, that is still pending. */
  lemma ReportedActionIsBooked(o: Opts, b: Book, e: Env)
    requires AfterStep(o, b, e).1.Did?
    ensures e.view.Some?
    ensures var v, b', what := e.view.value, AfterStep(o, b, e).0, AfterStep(o, b, e).1.what;
            && b.lastActed != Some(v.height) && b'.lastActed == Some(v.height)
            && (what.DidPoke? ==> && b'.poked == Some((v.anchor, v.height))
                                  && !(&& b.poked.Some? && b.poked.value.0 == v.anchor
                                       && Waits(b.poked.value.1, v.height)))
            && (!what.DidPoke? ==> && what.vault !in Pending(b.acted, v)
                                   && b'.acted == Pending(b.acted, v)[what.vault := v.height])
  {
    var v := e.view.value;
    BookedOn(o, b, e.tick.height, v, Due(o, e.tick, v), Retried(e.attempt, e.resync, Benign, 0));
  }

  lemma BookedOn(o: Opts, b: Book, tickHeight: nat, v: View, due: seq<Action>, out: Outcome)
    requires |due| == |v.known| && StepOn(o, b, tickHeight, v, due, out).1.Did?
    ensures var (b', r) := StepOn(o, b, tickHeight, v, due, out);
            && b.lastActed != Some(v.height) && b'.lastActed == Some(v.height)
            && (r.what.DidPoke? ==> && b'.poked == Some((v.anchor, v.height))
                                    && !(&& b.poked.Some? && b.poked.value.0 == v.anchor
                                         && Waits(b.poked.value.1, v.height)))
            && (!r.what.DidPoke? ==> && r.what.vault !in Pending(b.acted, v)
                                     && b'.acted == Pending(b.acted, v)[r.what.vault := v.height])
  {
  }

  lemma ActsOnlyAtANewHeight(o: Opts, b: Book, e: Env)
    requires AfterStep(o, b, e).1.Did?
    ensures e.view.Some? && b.lastActed != Some(e.view.value.height)
  {
  }

  /** A step that reports nothing books no action. */
  lemma SilentStepKeepsTime(o: Opts, b: Book, e: Env)
    requires !AfterStep(o, b, e).1.Did?
    ensures AfterStep(o, b, e).0.lastActed == b.lastActed
  {
  }

  // ----- every step, from the view, the book and the outcome alone

  /** The vault was acted on less than six blocks ago and is still indexed. */
  ghost predicate Held(b: Book, v: View, op: OutPoint) {
    op in b.acted && op in v.indexed && v.height < b.acted[op] + 6 && v.height < 4_294_967_295
  }

  /** The issuer was poked less than six blocks ago and its anchor has not moved. */
  ghost predicate PokeHeld(b: Book, v: View) {
    b.poked.Some? && b.poked.value.0 == v.anchor && v.height < b.poked.value.1 + 6 && v.height < 4_294_967_295
  }

  predicate Liquidates(a: Action) { a.BadDebt? || a.FullLiq? || a.Partial? }

  /** The first action is worse news than the second. */
  predicate Worse(a: Action, b: Action) { (a.BadDebt? && !b.BadDebt?) || (a.FullLiq? && b.Partial?) }

  /** A liquidation is due on the vault, and it is not held. */
  ghost predicate DueAt(b: Book, v: View, said: seq<Action>, k: nat) {
    k < |v.known| && k < |said| && !Held(b, v, v.known[k].outpoint) && Liquidates(said[k])
  }

  /** The one to run: due, with nothing worse due, and the last of its kind. */
  ghost predicate Chosen(b: Book, v: View, said: seq<Action>, k: nat) {
    && DueAt(b, v, said, k)
    && forall j: nat :: DueAt(b, v, said, j) ==>
         && !Worse(said[j], said[k])
         && (j > k ==> Worse(said[k], said[j]))
  }

  ghost predicate StaleAt(b: Book, v: View, said: seq<Action>, k: nat) {
    k < |v.known| && k < |said| && !Held(b, v, v.known[k].outpoint) && said[k] == Refresh
  }

  ghost predicate FirstStaleAt(b: Book, v: View, said: seq<Action>, k: nat) {
    StaleAt(b, v, said, k) && forall j: nat :: StaleAt(b, v, said, j) ==> k <= j
  }

  /** What comes of running an action on a vault. */
  ghost predicate RanOn(r: StepResult, op: OutPoint, a: Action, out: Outcome) {
    match out
    case Done(txid) =>
      (match a
       case BadDebt => r == Did(DidBadDebt(op, txid))
       case FullLiq => r == Did(DidFullLiq(op, txid))
       case Partial(dd, _) => r == Did(DidPartial(op, dd, txid))
       case Refresh => r == Did(DidRefresh(op, txid))
       case NoAction => false)
    case ResolvedElsewhere => r == Did(FoundResolved(op))
    case _ => r == StepFailed
  }

  ghost predicate RanPoke(r: StepResult, out: Outcome) {
    match out
    case Done(txid) => r == Did(DidPoke(txid))
    case ResolvedElsewhere => r == Idle
    case _ => r == StepFailed
  }

  ghost predicate AnyDue(b: Book, v: View, said: seq<Action>) { exists k: nat :: DueAt(b, v, said, k) }

  ghost predicate AnyStale(b: Book, v: View, said: seq<Action>) { exists k: nat :: StaleAt(b, v, said, k) }

  /** What a step does that has not acted at this height yet: the liquidation to run, if any is due;
      else the poke, if none is held and the anchor lags; else the first refresh; else nothing. */
  ghost predicate Prescribed(o: Opts, b: Book, tickHeight: nat, v: View, said: seq<Action>, out: Outcome,
                             r: StepResult) {
    if AnyDue(b, v, said) then
      exists k: nat :: Chosen(b, v, said, k) && RanOn(r, v.known[k].outpoint, said[k], out)
    else if !PokeHeld(b, v) && tickHeight > v.anchor + o.pokeLag then RanPoke(r, out)
    else if AnyStale(b, v, said) then
      exists k: nat :: FirstStaleAt(b, v, said, k) && RanOn(r, v.known[k].outpoint, Refresh, out)
    else r == Idle
  }

  /** How the book is kept: acted-on vaults while they are held, the poke while it is held, and
      what this step did. */
  ghost predicate Kept(b: Book, v: View, said: seq<Action>, r: StepResult, after: Book) {
    && (forall op :: op in after.acted <==> Held(b, v, op) || (r.Did? && VaultOf(r.what) == Some(op)))
    && (forall op :: op in after.acted ==>
          after.acted[op] == if r.Did? && VaultOf(r.what) == Some(op) then v.height
                             else if op in b.acted then b.acted[op] else 0)
    && after.poked == (if r.Did? && r.what.DidPoke? then Some((v.anchor, v.height))
                       else if AnyDue(b, v, said) || PokeHeld(b, v) then b.poked
                       else None)
    && after.lastActed == if r.Did? then Some(v.height) else b.lastActed
  }

  /** The verdicts a step goes by: the ladder's on every known vault, at the view's anchor, the
      keeper's lag and a fee of 10,000. */
  lemma VerdictsAreTheLadders(o: Opts, tick: OracleTick, v: View, k: nat)
    requires k < |v.known|
    ensures Due(o, tick, v)[k] == Decide(v.known[k], tick, v.anchor, o.refreshLag, 10_000)
  {
  }

  lemma PendingIsHeld(b: Book, v: View)
    ensures forall op :: op in Pending(b.acted, v) <==> Held(b, v, op)
    ensures b.poked.Some? && b.poked.value.0 == v.anchor && Waits(b.poked.value.1, v.height) <==> PokeHeld(b, v)
  {
  }

  /** Every step does what is prescribed by the ladder's verdicts at the flat fee, and keeps its
      book so; without a view, or a second time at one height, it does nothing. */
  lemma EveryStepIsPrescribed(o: Opts, b: Book, e: Env)
    ensures var (b', r) := AfterStep(o, b, e);
            && (e.view.None? ==> b' == b && r == StepFailed)
            && (e.view.Some? && b.lastActed == Some(e.view.value.height) ==> b' == b && r == Idle)
            && (e.view.Some? && b.lastActed != Some(e.view.value.height) ==>
                  var (v, said) := (e.view.value, Due(o, e.tick, e.view.value));
                  && Prescribed(o, b, e.tick.height, v, said, Retried(e.attempt, e.resync, Benign, 0), r)
                  && Kept(b, v, said, r, b'))
  {
    if e.view.Some? && b.lastActed != Some(e.view.value.height) {
      StepIsPrescribed(o, b, e.tick.height, e.view.value, Due(o, e.tick, e.view.value),
                       Retried(e.attempt, e.resync, Benign, 0));
    }
  }

  lemma StepIsPrescribed(o: Opts, b: Book, tickHeight: nat, v: View, said: seq<Action>, out: Outcome)
    requires |said| == |v.known| && b.lastActed != Some(v.height)
    ensures var (b', r) := StepOn(o, b, tickHeight, v, said, out);
            Prescribed(o, b, tickHeight, v, said, out, r) && Kept(b, v, said, r, b')
  {
    PendingIsHeld(b, v);
    var u := Urgent(v.known, said, Pending(b.acted, v), |said|);
    UrgentIsChosen(b, v, said, Pending(b.acted, v));
    if u.Some? {
      UrgentRuns(o, b, tickHeight, v, said, u.value, out);
    } else {
      LaggingIsFirst(b, v, said, Pending(b.acted, v));
      DutiesRun(o, b, tickHeight, v, said, out);
    }
  }

  lemma UrgentIsChosen(b: Book, v: View, said: seq<Action>, acted: map<OutPoint, nat>)
    requires |said| == |v.known| && forall op :: op in acted <==> Held(b, v, op)
    ensures var u := Urgent(v.known, said, acted, |said|);
            && (u.None? <==> !AnyDue(b, v, said))
            && (u.Some? ==> Chosen(b, v, said, u.value))
  {
    var u := Urgent(v.known, said, acted, |said|);
    UrgentIsMostSevere(v.known, said, acted, |said|);
    assert forall k: nat :: DueAt(b, v, said, k) ==> v.known[k].outpoint !in acted && Rank(said[k]) > 0;
    if u.Some? {
      assert DueAt(b, v, said, u.value);
    }
  }

  lemma UrgentRuns(o: Opts, b: Book, tickHeight: nat, v: View, said: seq<Action>, k: nat, out: Outcome)
    requires |said| == |v.known| && Chosen(b, v, said, k)
    ensures var (b', r) := Executed(b.(acted := Pending(b.acted, v)), v.known[k].outpoint, said[k], out, v.height);
            Prescribed(o, b, tickHeight, v, said, out, r) && Kept(b, v, said, r, b')
  {
    PendingIsHeld(b, v);
    assert AnyDue(b, v, said);
  }

  lemma LaggingIsFirst(b: Book, v: View, said: seq<Action>, acted: map<OutPoint, nat>)
    requires |said| == |v.known| && forall op :: op in acted <==> Held(b, v, op)
    ensures var r := Lagging(v.known, said, acted, 0);
            && (r.None? <==> !AnyStale(b, v, said))
            && (r.Some? ==> FirstStaleAt(b, v, said, r.value))
  {
    LaggingFrom(v.known, said, acted, 0);
    assert forall k: nat :: StaleAt(b, v, said, k) ==> v.known[k].outpoint !in acted && said[k] == Refresh;
    var r := Lagging(v.known, said, acted, 0);
    if r.Some? {
      assert StaleAt(b, v, said, r.value);
    }
  }

  lemma {:induction false} LaggingFrom(known: seq<OnChainVault>, due: seq<Action>, acted: map<OutPoint, nat>, n: nat)
    requires n <= |known| == |due|
    ensures var r := Lagging(known, due, acted, n);
            && (r.Some? ==> n <= r.value)
            && forall j :: n <= j < (if r.Some? then r.value else |known|) ==>
                 !(known[j].outpoint !in acted && due[j] == Refresh)
    decreases |known| - n
  {
    if n < |known| {
      LaggingFrom(known, due, acted, n + 1);
    }
  }

  lemma DutiesRun(o: Opts, b: Book, tickHeight: nat, v: View, said: seq<Action>, out: Outcome)
    requires |said| == |v.known| && !AnyDue(b, v, said)
    requires var r := Lagging(v.known, said, Pending(b.acted, v), 0);
             (r.None? <==> !AnyStale(b, v, said)) && (r.Some? ==> FirstStaleAt(b, v, said, r.value))
    ensures var (b', r) := Duties(o, b.(acted := Pending(b.acted, v)), tickHeight, v, said, out);
            Prescribed(o, b, tickHeight, v, said, out, r) && Kept(b, v, said, r, b')
  {
    PendingIsHeld(b, v);
  }

  // ----- runs

  /** The bookkeeping before step `n` of a run that starts fresh. */
  function Before(o: Opts, run: seq<Env>, n: nat): Book
    requires n <= |run|
  {
    if n == 0 then Book(map[], None, None) else AfterStep(o, Before(o, run, n - 1), run[n - 1]).0
  }

  function ResultAt(o: Opts, run: seq<Env>, n: nat): StepResult
    requires n < |run|
  {
    AfterStep(o, Before(o, run, n), run[n]).1
  }

  ghost predicate Ascending(run: seq<Env>) {
    forall i, j :: 0 <= i < j < |run| && run[i].view.Some? && run[j].view.Some? ==>
      run[i].view.value.height <= run[j].view.value.height
  }

  /** The height of the last action booked lies between that of any action reported earlier
      and that of any step still to come. */
  lemma {:induction false} LastActedTracks(o: Opts, run: seq<Env>, i: nat, n: nat)
    requires Ascending(run) && i < n <= |run|
    requires ResultAt(o, run, i).Did?
    ensures run[i].view.Some?
    ensures var last := Before(o, run, n).lastActed;
            && last.Some? && last.value >= run[i].view.value.height
            && forall m :: n <= m < |run| && run[m].view.Some? ==> last.value <= run[m].view.value.height
  {
    if i == n - 1 {
      ReportedActionIsBooked(o, Before(o, run, i), run[i]);
    } else {
      LastActedTracks(o, run, i, n - 1);
      if ResultAt(o, run, n - 1).Did? {
        ReportedActionIsBooked(o, Before(o, run, n - 1), run[n - 1]);
      } else {
        SilentStepKeepsTime(o, Before(o, run, n - 1), run[n - 1]);
      }
    }
  }

  /** At most one step per starting height reports an action. */
  lemma OneActionPerHeight(o: Opts, run: seq<Env>, i: nat, j: nat)
    requires Ascending(run) && i < j < |run|
    requires ResultAt(o, run, i).Did? && ResultAt(o, run, j).Did?
    ensures run[i].view.Some? && run[j].view.Some?
    ensures run[i].view.value.height < run[j].view.value.height
  {
    LastActedTracks(o, run, i, j);
    ActsOnlyAtANewHeight(o, Before(o, run, j), run[j]);
  }

  /** The vault stays in the index at every synced step from `i` to `j`. */
  ghost predicate StaysIndexed(run: seq<Env>, op: OutPoint, i: nat, j: nat)
    requires i <= j < |run|
  {
    forall n :: i < n <= j && run[n].view.Some? ==> op in run[n].view.value.indexed
  }

  /** Some step after `i` and before `n` started at or past the retry height of step `i`. */
  ghost predicate WindowPassed(run: seq<Env>, i: nat, n: nat)
    requires i < n <= |run| && run[i].view.Some?
  {
    exists m :: i < m < n && run[m].view.Some? && !Waits(run[i].view.value.height, run[m].view.value.height)
  }

  lemma {:induction false} ActedVaultWaits(o: Opts, run: seq<Env>, op: OutPoint, i: nat, n: nat)
    requires Ascending(run) && i < n <= |run|
    requires ResultAt(o, run, i).Did? && VaultOf(ResultAt(o, run, i).what) == Some(op)
    requires StaysIndexed(run, op, i, n - 1)
    ensures run[i].view.Some?
    ensures var b := Before(o, run, n);
            (op in b.acted && b.acted[op] >= run[i].view.value.height) || WindowPassed(run, i, n)
  {
    ReportedActionIsBooked(o, Before(o, run, i), run[i]);
    if i < n - 1 {
      var h := run[i].view.value.height;
      ActedVaultWaits(o, run, op, i, n - 1);
      var b, e := Before(o, run, n - 1), run[n - 1];
      if WindowPassed(run, i, n - 1) {
        WindowStaysPassed(run, i, n);
      } else if e.view.Some? && !Waits(h, e.view.value.height) {
        assert WindowPassed(run, i, n);
      } else if e.view.Some? {
        ActedStep(o, b, e, op, h);
      }
    }
  }

  lemma WindowStaysPassed(run: seq<Env>, i: nat, n: nat)
    requires i + 1 < n <= |run| && run[i].view.Some? && WindowPassed(run, i, n - 1)
    ensures WindowPassed(run, i, n)
  {
    var m :| i < m < n - 1 && run[m].view.Some? && !Waits(run[i].view.value.height, run[m].view.value.height);
  }

  /** A step inside the retry window keeps a waiting entry or renews it. */
  lemma ActedStep(o: Opts, b: Book, e: Env, op: OutPoint, h: nat)
    requires e.view.Some? && op in e.view.value.indexed
    requires op in b.acted && b.acted[op] >= h
    requires h <= e.view.value.height && Waits(h, e.view.value.height)
    ensures var b' := AfterStep(o, b, e).0; op in b'.acted && b'.acted[op] >= h
  {
    assert op in Pending(b.acted, e.view.value);
  }

  /** Two actions on one vault that stays indexed are at least six blocks apart. */
  lemma RepeatActionsAreSixBlocksApart(o: Opts, run: seq<Env>, op: OutPoint, i: nat, j: nat)
    requires Ascending(run) && i < j < |run|
    requires ResultAt(o, run, i).Did? && VaultOf(ResultAt(o, run, i).what) == Some(op)
    requires ResultAt(o, run, j).Did? && VaultOf(ResultAt(o, run, j).what) == Some(op)
    requires StaysIndexed(run, op, i, j)
    ensures run[i].view.Some? && run[j].view.Some?
    ensures run[j].view.value.height >= SatAdd(run[i].view.value.height, ACTED_RETRY_BLOCKS, U32_MAX)
  {
    ActedVaultWaits(o, run, op, i, j);
    ReportedActionIsBooked(o, Before(o, run, j), run[j]);
    if WindowPassed(run, i, j) {
      var m :| i < m < j && run[m].view.Some? && !Waits(run[i].view.value.height, run[m].view.value.height);
    }
  }

  ghost predicate AnchorHolds(run: seq<Env>, i: nat, j: nat)
    requires i <= j < |run|
  {
    forall m, n :: i <= m <= j && i <= n <= j && run[m].view.Some? && run[n].view.Some? ==>
      run[m].view.value.anchor == run[n].view.value.anchor
  }

  lemma {:induction false} PokeWaits(o: Opts, run: seq<Env>, i: nat, n: nat)
    requires Ascending(run) && i < n <= |run|
    requires ResultAt(o, run, i).Did? && ResultAt(o, run, i).what.DidPoke?
    requires AnchorHolds(run, i, n - 1)
    ensures run[i].view.Some?
    ensures var b := Before(o, run, n);
            || (b.poked.Some? && b.poked.value.0 == run[i].view.value.anchor
                && b.poked.value.1 >= run[i].view.value.height)
            || WindowPassed(run, i, n)
  {
    var h := run[i].view.value.height;
    ReportedActionIsBooked(o, Before(o, run, i), run[i]);
    if i < n - 1 {
      PokeWaits(o, run, i, n - 1);
      var b, e := Before(o, run, n - 1), run[n - 1];
      if WindowPassed(run, i, n - 1) {
        WindowStaysPassed(run, i, n);
      } else if e.view.Some? {
        assert e.view.value.anchor == run[i].view.value.anchor;
        if !Waits(h, e.view.value.height) {
          assert WindowPassed(run, i, n);
        } else {
          PokeStep(o, b, e, h);
        }
      }
    }
  }

  lemma PokeStep(o: Opts, b: Book, e: Env, h: nat)
    requires e.view.Some? && Waits(h, e.view.value.height)
    requires b.poked.Some? && b.poked.value.0 == e.view.value.anchor && b.poked.value.1 >= h
    ensures AfterStep(o, b, e).0.poked == b.poked
  {
  }

  /** Two pokes under one unchanged anchor are at least six blocks apart. */
  lemma RepeatPokesAreSixBlocksApart(o: Opts, run: seq<Env>, i: nat, j: nat)
    requires Ascending(run) && i < j < |run|
    requires ResultAt(o, run, i).Did? && ResultAt(o, run, i).what.DidPoke?
    requires ResultAt(o, run, j).Did? && ResultAt(o, run, j).what.DidPoke?
    requires AnchorHolds(run, i, j)
    ensures run[i].view.Some? && run[j].view.Some?
    ensures run[j].view.value.height >= SatAdd(run[i].view.value.height, ACTED_RETRY_BLOCKS, U32_MAX)
  {
    PokeWaits(o, run, i, j);
    ReportedActionIsBooked(o, Before(o, run, j), run[j]);
    assert run[i].view.value.anchor == run[j].view.value.anchor;
    if WindowPassed(run, i, j) {
      var m :| i < m < j && run[m].view.Some? && !Waits(run[i].view.value.height, run[m].view.value.height);
    }
  }
}
